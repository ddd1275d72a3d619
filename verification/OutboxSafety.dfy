/**
 The invoice outbox under any interleaving of workers, engines recording invoices, expiry and
 revocation. `log` lists every publication a relay was asked to take.
 */
module OutboxSafety {
  import opened Types
  import opened Outbox
  import L = Ledger

  /** A worker between obtaining the canonical event and leaving the invoice. */
  datatype Agent =
    | Idle
    | Carrying(id: EventId, json: string)
    | Acking(id: EventId, json: string, url: Relay)

  datatype Delivery = Delivery(id: EventId, url: Relay, json: string, accepted: bool)

  /** The relays of an authorization are fixed for its lifetime. */
  datatype World = World(
    invoices: Invoices,
    sent: map<EventId, SentRow>,
    authorities: map<ConnectionId, L.Authority>,
    relaysOf: ConnectionId -> seq<Relay>,
    agents: map<nat, Agent>,
    log: seq<Delivery>)

  datatype Action =
    | Record(draft: InvoiceDraft, random: bool)
    | TouchRow(id: EventId, now: nat)
    | Carry(i: nat, id: EventId)
    | Propose(i: nat, id: EventId, json: string, createdAt: nat)
    | Send(i: nat, url: Relay, accepted: bool)
    | Ack(i: nat, now: nat)
    | Complete(i: nat, now: nat)
    | Leave(i: nat)
    | Expire(id: EventId)
    | RecordSent(id: EventId, row: SentRow)
    | StoreSent(id: EventId, json: string)
    | AckSent(id: EventId, url: Relay, now: nat)
    | CompleteSent(id: EventId, now: nat)
    | DiscardSent(id: EventId)
    | Register(connection: ConnectionId)
    | Revoke(connection: ConnectionId)

  function AgentOf(w: World, i: nat): Agent {
    if i in w.agents then w.agents[i] else Idle
  }

  function Actor(a: Action): Option<nat> {
    match a
    case Carry(i, _) => Some(i)
    case Propose(i, _, _, _) => Some(i)
    case Send(i, _, _) => Some(i)
    case Ack(i, _) => Some(i)
    case Complete(i, _) => Some(i)
    case Leave(i) => Some(i)
    case _ => None
  }

  predicate Enabled(w: World, a: Action) {
    match a
    case Carry(i, id) => AgentOf(w, i).Idle? && id in w.invoices && w.invoices[id].notice.json.Some?
    case Propose(i, _, _, _) => AgentOf(w, i).Idle?
    case Send(i, _, _) => AgentOf(w, i).Carrying?
    case Ack(i, _) => AgentOf(w, i).Acking?
    case Complete(i, _) => AgentOf(w, i).Carrying?
    case RecordSent(id, row) => id !in w.sent && row.notice.json.None? && row.notice.completedAt.None?
    case StoreSent(id, _) => id in w.sent
    case AckSent(id, _, _) => id in w.sent
    case CompleteSent(id, _) => id in w.sent
    case Register(connection) => connection !in w.authorities
    case Revoke(connection) => connection in w.authorities && w.authorities[connection].active
    case _ => true
  }

  function InvoicesAfter(w: World, a: Action): Invoices {
    match a
    case Record(draft, random) =>
      RecordInvoice(w.invoices, w.authorities.Keys, draft, w.relaysOf(draft.connection), random).0
    case TouchRow(id, now) => Touch(w.invoices, id, now).0
    case Propose(_, id, json, createdAt) => StoreEvent(w.invoices, id, json, createdAt).0
    case Ack(i, now) =>
      if AgentOf(w, i).Acking? then AcknowledgeInvoice(w.invoices, AgentOf(w, i).id, AgentOf(w, i).url, now).0 else w.invoices
    case Complete(i, now) =>
      if AgentOf(w, i).Carrying? then CompleteInvoice(w.invoices, AgentOf(w, i).id, now).0 else w.invoices
    case Expire(id) => ExpireInvoice(w.invoices, id)
    case _ => w.invoices
  }

  function SentAfter(w: World, a: Action): map<EventId, SentRow>
    requires Enabled(w, a)
  {
    match a
    case RecordSent(id, row) => w.sent[id := row]
    case StoreSent(id, json) => w.sent[id := w.sent[id].(notice := StoreJson(w.sent[id].notice, json))]
    case AckSent(id, url, now) =>
      w.sent[id := w.sent[id].(notice := w.sent[id].notice.(relays := Acknowledge(w.sent[id].notice.relays, url, now)))]
    case CompleteSent(id, now) => w.sent[id := w.sent[id].(notice := CompleteNotice(w.sent[id].notice, now))]
    case DiscardSent(id) => w.sent - {id}
    case _ => w.sent
  }

  function AgentAfter(w: World, a: Action): Agent
    requires Enabled(w, a) && Actor(a).Some?
  {
    match a
    case Carry(_, id) => Carrying(id, w.invoices[id].notice.json.value)
    case Propose(_, id, json, createdAt) =>
      var canonical := StoreEvent(w.invoices, id, json, createdAt).1;
      if canonical.Ok? then Carrying(id, canonical.value) else Idle
    case Send(i, url, accepted) =>
      if accepted then Acking(AgentOf(w, i).id, AgentOf(w, i).json, url) else AgentOf(w, i)
    case Ack(i, now) =>
      if Fits(now) then Carrying(AgentOf(w, i).id, AgentOf(w, i).json) else Idle
    case _ => Idle
  }

  function AuthoritiesAfter(w: World, a: Action): map<ConnectionId, L.Authority>
    requires Enabled(w, a)
  {
    match a
    case Register(connection) => w.authorities[connection := L.Authority(0, true)]
    case Revoke(connection) => w.authorities[connection := L.Authority(w.authorities[connection].revision + 1, false)]
    case _ => w.authorities
  }

  function Apply(w: World, a: Action): World
    requires Enabled(w, a)
  {
    World(InvoicesAfter(w, a), SentAfter(w, a), AuthoritiesAfter(w, a), w.relaysOf,
          if Actor(a).Some? then w.agents[Actor(a).value := AgentAfter(w, a)] else w.agents,
          if a.Send? then w.log + [Delivery(AgentOf(w, a.i).id, a.url, AgentOf(w, a.i).json, a.accepted)] else w.log)
  }

  ghost predicate Run(w: World, actions: seq<Action>)
    decreases |actions|
  {
    actions == [] || (Enabled(w, actions[0]) && Run(Apply(w, actions[0]), actions[1..]))
  }

  ghost function After(w: World, actions: seq<Action>): World
    requires Run(w, actions)
    decreases |actions|
  {
    if actions == [] then w else After(Apply(w, actions[0]), actions[1..])
  }

  ghost predicate Init(w: World) {
    w.invoices == map[] && w.sent == map[] && w.agents == map[] && w.log == []
  }

  // ---- The invariant ----

  /** The relay rows name exactly these relays, in this order. */
  ghost predicate Lists(relays: seq<RelayRow>, urls: seq<Relay>) {
    |relays| == |urls| && forall k :: 0 <= k < |relays| ==> relays[k].url == urls[k]
  }

  /** The record's relays are its authorization's, and every acknowledgement followed an accepted publication. */
  ghost predicate RowOk(w: World, id: EventId)
    requires id in w.invoices
  {
    var row := w.invoices[id];
    && row.draft.id == id && InvoiceCheck(row)
    && Lists(row.notice.relays, w.relaysOf(row.draft.connection))
    && (row.notice.completedAt.Some? ==> AllDelivered(row.notice.relays))
    && (forall r <- row.notice.relays :: r.deliveredAt.Some? ==>
          row.notice.json.Some? && Delivery(id, r.url, row.notice.json.value, true) in w.log)
  }

  /** The canonical event of a record, if it has one. */
  predicate HasJson(rows: Invoices, id: EventId, json: string) {
    id in rows && rows[id].notice.json == Some(json)
  }

  ghost predicate AgentOk(w: World, agent: Agent) {
    match agent
    case Idle => true
    case Carrying(id, json) => HasJson(w.invoices, id, json)
    case Acking(id, json, url) => HasJson(w.invoices, id, json) && Delivery(id, url, json, true) in w.log
  }

  ghost predicate Inv(w: World) {
    && (forall id <- w.invoices :: RowOk(w, id))
    && (forall p <- w.log :: HasJson(w.invoices, p.id, p.json))
    && (forall i <- w.agents :: AgentOk(w, w.agents[i]))
  }

  /** A stored event stays, in every table step. */
  lemma JsonStays(w: World, a: Action, id: EventId, json: string)
    requires HasJson(w.invoices, id, json)
    ensures HasJson(InvoicesAfter(w, a), id, json)
  {
  }

  /** Writing one row that is well formed in the new world. */
  lemma RowWriteKeepsRows(w: World, w': World, id: EventId)
    requires forall d <- w.invoices :: RowOk(w, d)
    requires id in w'.invoices && w'.invoices == w.invoices[id := w'.invoices[id]]
    requires w'.log == w.log && w'.relaysOf == w.relaysOf
    requires RowOk(w', id)
    ensures forall d <- w'.invoices :: RowOk(w', d)
  {
    forall d | d in w'.invoices
      ensures RowOk(w', d)
    {
      assert d != id ==> RowOk(w, d);
    }
  }

  /** Recording the same request again changes nothing: the authorization's relays are already there. */
  lemma RerecordingChangesNothing(w: World, a: Action)
    requires Inv(w) && a.Record? && a.draft.id in w.invoices
    ensures InvoicesAfter(w, a) == w.invoices
  {
    assert RowOk(w, a.draft.id);
    var row := w.invoices[a.draft.id];
    if row.draft.connection == a.draft.connection {
      assert MergeRelays(row.notice.relays, w.relaysOf(a.draft.connection)) == row.notice.relays;
    }
  }

  lemma NewRecordIsOk(w: World, a: Action)
    requires Inv(w) && Enabled(w, a) && a.Record? && a.draft.id !in w.invoices && a.draft.id in InvoicesAfter(w, a)
    ensures InvoicesAfter(w, a) == w.invoices[a.draft.id := InvoicesAfter(w, a)[a.draft.id]]
    ensures RowOk(Apply(w, a), a.draft.id)
  {
  }

  lemma ProposeKeepsRow(w: World, a: Action)
    requires Inv(w) && Enabled(w, a) && a.Propose? && a.id in w.invoices
    ensures RowOk(Apply(w, a), a.id)
  {
    assert RowOk(w, a.id);
  }

  lemma AckKeepsRow(w: World, a: Action)
    requires Inv(w) && Enabled(w, a) && a.Ack?
    ensures RowOk(w, AgentOf(w, a.i).id)
    ensures AgentOf(w, a.i).id in InvoicesAfter(w, a) && RowOk(Apply(w, a), AgentOf(w, a.i).id)
  {
    var agent := AgentOf(w, a.i);
    assert AgentOk(w, agent) && RowOk(w, agent.id);
    var before, row := w.invoices[agent.id].notice.relays, InvoicesAfter(w, a)[agent.id];
    if Fits(a.now) {
      assert row.notice.relays == Acknowledge(before, agent.url, a.now);
      forall r | r in row.notice.relays && r.deliveredAt.Some?
        ensures Delivery(agent.id, r.url, agent.json, true) in w.log
      {
        var k :| 0 <= k < |row.notice.relays| && row.notice.relays[k] == r;
        assert before[k] in before;
      }
      AcknowledgingKeepsDelivered(before, agent.url, a.now);
    }
  }

  lemma AcknowledgingKeepsDelivered(relays: seq<RelayRow>, url: Relay, now: nat)
    ensures DistinctUrls(relays) ==> DistinctUrls(Acknowledge(relays, url, now))
    ensures AllDelivered(relays) ==> AllDelivered(Acknowledge(relays, url, now))
  {
    if AllDelivered(relays) {
      forall k | 0 <= k < |relays|
        ensures Acknowledge(relays, url, now)[k] == relays[k]
      {
        assert relays[k] in relays;
      }
    }
  }

  lemma CompleteKeepsRow(w: World, a: Action)
    requires Inv(w) && Enabled(w, a) && a.Complete?
    ensures AgentOf(w, a.i).id in InvoicesAfter(w, a) && RowOk(Apply(w, a), AgentOf(w, a.i).id)
  {
    assert AgentOk(w, AgentOf(w, a.i)) && RowOk(w, AgentOf(w, a.i).id);
  }

  lemma RecordStepKeepsRows(w: World, a: Action)
    requires Inv(w) && Enabled(w, a) && a.Record?
    ensures forall id <- Apply(w, a).invoices :: RowOk(Apply(w, a), id)
  {
    var w' := Apply(w, a);
    if a.draft.id !in w.invoices && a.draft.id in w'.invoices {
      NewRecordIsOk(w, a);
      RowWriteKeepsRows(w, w', a.draft.id);
    } else {
      if a.draft.id in w.invoices {
        RerecordingChangesNothing(w, a);
      }
      assert w'.invoices == w.invoices;
      forall id | id in w'.invoices
        ensures RowOk(w', id)
      {
        assert RowOk(w, id);
      }
    }
  }

  lemma ProposeStepKeepsRows(w: World, a: Action)
    requires Inv(w) && Enabled(w, a) && a.Propose? && a.id in w.invoices
    ensures forall id <- Apply(w, a).invoices :: RowOk(Apply(w, a), id)
  {
    ProposeKeepsRow(w, a);
    RowWriteKeepsRows(w, Apply(w, a), a.id);
  }

  lemma TouchStepKeepsRows(w: World, a: Action)
    requires Inv(w) && Enabled(w, a) && a.TouchRow? && a.id in w.invoices
    ensures forall id <- Apply(w, a).invoices :: RowOk(Apply(w, a), id)
  {
    assert RowOk(w, a.id) && RowOk(Apply(w, a), a.id);
    RowWriteKeepsRows(w, Apply(w, a), a.id);
  }

  lemma WorkStepKeepsRows(w: World, a: Action)
    requires Inv(w) && Enabled(w, a) && (a.Ack? || a.Complete?)
    ensures forall id <- Apply(w, a).invoices :: RowOk(Apply(w, a), id)
  {
    if a.Ack? {
      AckKeepsRow(w, a);
    } else {
      CompleteKeepsRow(w, a);
    }
    RowWriteKeepsRows(w, Apply(w, a), AgentOf(w, a.i).id);
  }

  /** The remaining steps write no record: they remove one, grow the log, or touch an agent or a sent payment. */
  lemma OtherStepKeepsRows(w: World, a: Action)
    requires Inv(w) && Enabled(w, a)
    requires !a.Record? && !a.Ack? && !a.Complete?
    requires a.Propose? || a.TouchRow? ==> a.id !in w.invoices
    ensures forall id <- Apply(w, a).invoices :: RowOk(Apply(w, a), id)
  {
    var w' := Apply(w, a);
    forall id | id in w'.invoices
      ensures RowOk(w', id)
    {
      assert RowOk(w, id);
    }
  }

  lemma StepKeepsRows(w: World, a: Action)
    requires Inv(w) && Enabled(w, a)
    ensures forall id <- Apply(w, a).invoices :: RowOk(Apply(w, a), id)
  {
    if a.Record? {
      RecordStepKeepsRows(w, a);
    } else if a.Propose? && a.id in w.invoices {
      ProposeStepKeepsRows(w, a);
    } else if a.TouchRow? && a.id in w.invoices {
      TouchStepKeepsRows(w, a);
    } else if a.Ack? || a.Complete? {
      WorkStepKeepsRows(w, a);
    } else {
      OtherStepKeepsRows(w, a);
    }
  }

  lemma AgentStaysOk(w: World, a: Action, i: nat)
    requires Inv(w) && Enabled(w, a) && i in Apply(w, a).agents
    ensures AgentOk(Apply(w, a), Apply(w, a).agents[i])
  {
    var agent := AgentOf(w, i);
    assert AgentOk(w, agent);
    if Actor(a) == Some(i) {
      if agent.Carrying? || agent.Acking? {
        JsonStays(w, a, agent.id, agent.json);
      }
    } else if agent.Carrying? || agent.Acking? {
      JsonStays(w, a, agent.id, agent.json);
    }
  }

  lemma StepKeepsInv(w: World, a: Action)
    requires Inv(w) && Enabled(w, a)
    ensures Inv(Apply(w, a))
  {
    var w' := Apply(w, a);
    StepKeepsRows(w, a);
    forall i | i in w'.agents
      ensures AgentOk(w', w'.agents[i])
    {
      AgentStaysOk(w, a, i);
    }
    assert a.Send? ==> AgentOk(w, AgentOf(w, a.i));
    forall p | p in w'.log
      ensures HasJson(w'.invoices, p.id, p.json)
    {
      assert HasJson(w.invoices, p.id, p.json);
      JsonStays(w, a, p.id, p.json);
    }
  }

  lemma {:induction false} RunKeepsInv(w: World, actions: seq<Action>)
    requires Inv(w) && Run(w, actions)
    ensures Inv(After(w, actions))
    decreases |actions|
  {
    if actions != [] {
      StepKeepsInv(w, actions[0]);
      RunKeepsInv(Apply(w, actions[0]), actions[1..]);
    }
  }

  // ---- Results over whole runs ----

  /** Once stored, the canonical event of an invoice never changes, and its record is never removed. */
  lemma {:induction false} CanonicalEventIsForever(w: World, actions: seq<Action>, id: EventId, json: string)
    requires HasJson(w.invoices, id, json) && Run(w, actions)
    ensures HasJson(After(w, actions).invoices, id, json)
    decreases |actions|
  {
    if actions != [] {
      JsonStays(w, actions[0], id, json);
      CanonicalEventIsForever(Apply(w, actions[0]), actions[1..], id, json);
    }
  }

  /** Every publication for an invoice, by any worker and to any relay, is the record's one canonical event. */
  lemma PublicationsAreCanonical(start: World, actions: seq<Action>, j: nat, k: nat)
    requires Init(start) && Run(start, actions)
    ensures var w := After(start, actions);
            j < |w.log| && k < |w.log| && w.log[j].id == w.log[k].id ==>
              w.log[j].json == w.log[k].json && HasJson(w.invoices, w.log[j].id, w.log[j].json)
  {
    RunKeepsInv(start, actions);
  }

  /** A completed invoice's canonical event was accepted by every relay of its authorization. */
  lemma CompletionMeansDelivered(start: World, actions: seq<Action>, id: EventId)
    requires Init(start) && Run(start, actions)
    ensures var w := After(start, actions);
            id in w.invoices && w.invoices[id].notice.completedAt.Some? ==>
              var row := w.invoices[id];
              && row.notice.json.Some?
              && forall url <- w.relaysOf(row.draft.connection) :: Delivery(id, url, row.notice.json.value, true) in w.log
  {
    RunKeepsInv(start, actions);
    var w := After(start, actions);
    if id in w.invoices && w.invoices[id].notice.completedAt.Some? {
      assert RowOk(w, id);
      var row := w.invoices[id];
      forall k | 0 <= k < |w.relaysOf(row.draft.connection)|
        ensures Delivery(id, w.relaysOf(row.draft.connection)[k], row.notice.json.value, true) in w.log
      {
        assert row.notice.relays[k] in row.notice.relays;
      }
    }
  }

  // ---- Sent payments ----

  /** A completed sent payment was acknowledged by every relay it was recorded for. */
  ghost predicate SentOk(w: World) {
    forall id <- w.sent :: w.sent[id].notice.completedAt.Some? ==> AllDelivered(w.sent[id].notice.relays)
  }

  lemma SentStepIsStable(w: World, a: Action, id: EventId)
    requires Enabled(w, a) && id in w.sent && a != DiscardSent(id)
    requires w.sent[id].notice.completedAt.Some? ==> AllDelivered(w.sent[id].notice.relays)
    ensures var w' := Apply(w, a);
            && id in w'.sent
            && (w.sent[id].notice.json.Some? ==> w'.sent[id].notice.json == w.sent[id].notice.json)
            && (w'.sent[id].notice.completedAt.Some? ==> AllDelivered(w'.sent[id].notice.relays))
  {
    if a.AckSent? {
      AcknowledgingKeepsDelivered(w.sent[a.id].notice.relays, a.url, a.now);
    }
  }

  lemma StepKeepsSent(w: World, a: Action)
    requires Enabled(w, a) && SentOk(w)
    ensures SentOk(Apply(w, a))
  {
    forall id | id in Apply(w, a).sent
      ensures Apply(w, a).sent[id].notice.completedAt.Some? ==> AllDelivered(Apply(w, a).sent[id].notice.relays)
    {
      if id in w.sent && a != DiscardSent(id) {
        SentStepIsStable(w, a, id);
      }
    }
  }

  lemma {:induction false} RunKeepsSent(w: World, actions: seq<Action>)
    requires SentOk(w) && Run(w, actions)
    ensures SentOk(After(w, actions))
    decreases |actions|
  {
    if actions != [] {
      StepKeepsSent(w, actions[0]);
      RunKeepsSent(Apply(w, actions[0]), actions[1..]);
    }
  }

  lemma {:induction false} SentJsonStays(w: World, actions: seq<Action>, id: EventId)
    requires SentOk(w) && Run(w, actions) && id in w.sent && DiscardSent(id) !in actions
    ensures var end := After(w, actions);
            id in end.sent && (w.sent[id].notice.json.Some? ==> end.sent[id].notice.json == w.sent[id].notice.json)
    decreases |actions|
  {
    if actions != [] {
      SentStepIsStable(w, actions[0], id);
      StepKeepsSent(w, actions[0]);
      SentJsonStays(Apply(w, actions[0]), actions[1..], id);
    }
  }

  /**
   In every run, until it is discarded, a recorded sent payment keeps its event, and it completes only with
   every relay acknowledged.
   */
  lemma SentEventIsStable(start: World, before: seq<Action>, later: seq<Action>, id: EventId)
    requires Init(start) && Run(start, before) && Run(After(start, before), later)
    requires id in After(start, before).sent && DiscardSent(id) !in later
    ensures var was, now := After(start, before).sent[id], After(After(start, before), later).sent;
            && id in now
            && (was.notice.json.Some? ==> now[id].notice.json == was.notice.json)
            && (now[id].notice.completedAt.Some? ==> AllDelivered(now[id].notice.relays))
  {
    RunKeepsSent(start, before);
    SentJsonStays(After(start, before), later, id);
    RunKeepsSent(After(start, before), later);
  }
}
