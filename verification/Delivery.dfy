/** internal/outbox/worker.go: queued events reach the broker at least once. */
module Delivery {
  import opened Base

  datatype Exchange = Mail | Profiles | Unsupported

  /** A row of the outbox. */
  datatype Row = Row(id: Id, exchange: Exchange)

  // ---------- one worker: what it does with each answer of the broker ----------

  /** What the broker makes of a mandatory publish: a return for want of a consumer comes before the acknowledgement. */
  datatype Broker = Silent | Refused | Acknowledged(returned: bool)

  /** What can go wrong in the database: before publishing, or when the deletion is to be committed. */
  datatype Database = Sound | BrokenEarly | BrokenLate

  datatype Turn = Turn(broker: Broker, database: Database)

  datatype Outcome = Delivered | Nothing | Failed

  /** The rows left and the outcome of one turn at the head of the queue. */
  function TurnOn(rows: seq<Row>, t: Turn): (seq<Row>, Outcome) {
    if t.database == BrokenEarly then (rows, Failed)
    else if rows == [] then (rows, Nothing)
    else if rows[0].exchange != Unsupported && t.broker == Acknowledged(false) && t.database == Sound then (rows[1..], Delivered)
    else (rows, Failed)
  }

  /** A broker channel with the buffer of its returns. */
  class Channel {
    var bounced: seq<Id>
    var acknowledged: set<Id>

    constructor ()
      ensures bounced == [] && acknowledged == {}
    {
      bounced, acknowledged := [], {};
    }

    /** Publishes and waits for the confirmation: none, a refusal, or an acknowledgement. */
    method Publish(id: Id, b: Broker) returns (confirmation: Option<bool>)
      modifies this
      ensures confirmation == match b case Silent => None case Refused => Some(false) case Acknowledged(_) => Some(true)
      ensures bounced == old(bounced) + if b == Acknowledged(true) then [id] else []
      ensures acknowledged == old(acknowledged) + if b == Acknowledged(false) then {id} else {}
    {
      match b
      case Silent => confirmation := None;
      case Refused => confirmation := Some(false);
      case Acknowledged(returned) =>
        confirmation := Some(true);
        if returned {
          bounced := bounced + [id];
        } else {
          acknowledged := acknowledged + {id};
        }
    }
  }

  class Worker {
    var rows: seq<Row>

    constructor (queue: seq<Row>)
      ensures rows == queue
    {
      rows := queue;
    }

    /** One turn: lock the first row, publish it, and delete it once it is confirmed and was not returned. */
    method One(ch: Channel, t: Turn) returns (outcome: Outcome)
      requires ch.bounced == []
      modifies this, ch
      ensures (rows, outcome) == TurnOn(old(rows), t)
      ensures outcome != Failed ==> ch.bounced == []
      ensures old(ch.acknowledged) <= ch.acknowledged
      ensures forall r | r in old(rows) && r !in rows :: r.id in ch.acknowledged
    {
      if t.database == BrokenEarly {
        return Failed;
      }
      if rows == [] {
        return Nothing;
      }
      var row := rows[0];
      if row.exchange == Unsupported {
        return Failed;
      }
      var confirmation := ch.Publish(row.id, t.broker);
      if confirmation != Some(true) {
        return Failed;
      }
      if ch.bounced != [] {
        ch.bounced := ch.bounced[1..];
        return Failed;
      }
      if t.database == BrokenLate {
        return Failed;
      }
      rows := rows[1..];
      return Delivered;
    }

    /** A connection serves turn after turn until one fails; every publish starts with no return left over. */
    method RunConnection(ch: Channel, turns: seq<Turn>) returns (served: nat)
      requires ch.bounced == []
      modifies this, ch
      ensures served <= |turns| && rows == Served(old(rows), turns[..served])
      ensures forall k | 0 <= k < served :: Ends(old(rows), turns, k) == Failed ==> k == served - 1
      ensures served < |turns| ==> served > 0 && Ends(old(rows), turns, served - 1) == Failed
      ensures forall r | r in old(rows) && r !in rows :: r.id in ch.acknowledged
    {
      served := 0;
      var failed := false;
      while served < |turns| && !failed
        invariant served <= |turns| && rows == Served(old(rows), turns[..served])
        invariant !failed ==> ch.bounced == []
        invariant forall k | 0 <= k < served :: Ends(old(rows), turns, k) == Failed <==> failed && k == served - 1
        invariant failed ==> served > 0
        invariant forall r | r in old(rows) && r !in rows :: r.id in ch.acknowledged
      {
        var outcome := One(ch, turns[served]);
        assert turns[..served + 1][..served] == turns[..served];
        served := served + 1;
        failed := outcome == Failed;
      }
    }
  }

  function Served(rows: seq<Row>, turns: seq<Turn>): seq<Row> {
    if turns == [] then rows else TurnOn(Served(rows, turns[..|turns| - 1]), turns[|turns| - 1]).0
  }

  function Ends(rows: seq<Row>, turns: seq<Turn>, k: nat): Outcome
    requires k < |turns|
  {
    TurnOn(Served(rows, turns[..k]), turns[k]).1
  }

  // The queue is served in order: what is left is a tail of it.
  lemma {:induction false} ServedInOrder(rows: seq<Row>, turns: seq<Turn>)
    ensures exists n: nat :: n <= |rows| && Served(rows, turns) == rows[n..]
  {
    if turns == [] {
      assert rows[0..] == rows;
    } else {
      ServedInOrder(rows, turns[..|turns| - 1]);
      var n: nat :| n <= |rows| && Served(rows, turns[..|turns| - 1]) == rows[n..];
      assert n < |rows| ==> rows[n..][1..] == rows[n + 1..];
    }
  }

  // ---------- any number of workers, crashing at any point ----------

  datatype Phase = Idle | Held(id: Id) | Sent(id: Id)

  /** A worker: without a connection, or with a channel, its pending return and the confirmation of its last publish. */
  datatype Link = Down | Up(phase: Phase, returned: bool, confirmation: Option<bool>)

  datatype State = State(rows: map<Id, Exchange>, links: map<Id, Link>, enqueued: set<Id>, confirmed: set<Id>)

  datatype Event =
    | Enqueue(id: Id, exchange: Exchange)
    | Connect(worker: Id)
    | Lock(worker: Id, id: Id)
    | Publish(worker: Id)
    | Return(worker: Id)
    | Confirm(worker: Id, ack: bool)
    | Fail(worker: Id)
    | Commit(worker: Id, seen: bool)

  function LinkOf(s: State, w: Id): Link {
    if w in s.links then s.links[w] else Down
  }

  predicate Holds(l: Link, id: Id) {
    l.Up? && (l.phase == Held(id) || l.phase == Sent(id))
  }

  predicate Locked(s: State, id: Id) {
    exists w | w in s.links :: Holds(s.links[w], id)
  }

  /** The publish went through: acknowledged, and not returned. */
  predicate Confirmed(l: Link) {
    l.Up? && l.phase.Sent? && l.confirmation == Some(true) && !l.returned
  }

  /** One event; an event that is not enabled changes nothing. */
  function Step(s: State, e: Event): State {
    match e
    case Enqueue(id, exchange) =>
      if id in s.enqueued then s else s.(rows := s.rows[id := exchange], enqueued := s.enqueued + {id})
    case Connect(w) =>
      if LinkOf(s, w).Down? then s.(links := s.links[w := Up(Idle, false, None)]) else s
    case Lock(w, id) =>
      var l := LinkOf(s, w);
      if l.Up? && l.phase == Idle && id in s.rows && !Locked(s, id) then s.(links := s.links[w := l.(phase := Held(id))]) else s
    case Publish(w) =>
      var l := LinkOf(s, w);
      if l.Up? && l.phase.Held? && l.phase.id in s.rows && s.rows[l.phase.id] != Unsupported
      then s.(links := s.links[w := l.(phase := Sent(l.phase.id))]) else s
    case Return(w) =>
      var l := LinkOf(s, w);
      if l.Up? && l.phase.Sent? && l.confirmation.None? then s.(links := s.links[w := l.(returned := true)]) else s
    case Confirm(w, ack) =>
      var l := LinkOf(s, w);
      if l.Up? && l.phase.Sent? && l.confirmation.None? then
        s.(links := s.links[w := l.(confirmation := Some(ack))],
           confirmed := if ack && !l.returned then s.confirmed + {l.phase.id} else s.confirmed)
      else s
    case Fail(w) =>
      s.(links := s.links[w := Down])
    case Commit(w, seen) =>
      var l := LinkOf(s, w);
      if Confirmed(l) then
        s.(rows := s.rows - {l.phase.id}, links := s.links[w := if seen then Up(Idle, false, None) else Down])
      else s
  }

  function Run(events: seq<Event>): State {
    if events == [] then State(map[], map[], {}, {}) else Step(Run(events[..|events| - 1]), events[|events| - 1])
  }

  /** Nothing is stale: before its publish a channel has neither a return nor a confirmation pending. */
  predicate Clean(l: Link) {
    l.Up? && !l.phase.Sent? ==> !l.returned && l.confirmation.None?
  }

  ghost predicate Safe(s: State) {
    && (forall id | id in s.enqueued :: id in s.rows || id in s.confirmed)
    && (forall id | id in s.rows :: id in s.enqueued)
    && s.confirmed <= s.enqueued
    && (forall w | w in s.links :: Clean(s.links[w]))
    && (forall w, id | w in s.links && Holds(s.links[w], id) :: id in s.rows)
    && (forall w | w in s.links && Confirmed(s.links[w]) :: s.links[w].phase.id in s.confirmed)
    && (forall v, w, id | v in s.links && w in s.links && Holds(s.links[v], id) && Holds(s.links[w], id) :: v == w)
  }

  lemma StepIsSafe(s: State, e: Event)
    requires Safe(s)
    ensures Safe(Step(s, e))
  {
    match e
    case Commit(w, seen) => CommitIsSafe(s, w, seen);
    case Lock(w, id) => LockIsSafe(s, w, id);
    case Confirm(w, ack) => ConfirmIsSafe(s, w, ack);
    case _ =>
  }

  lemma CommitIsSafe(s: State, w: Id, seen: bool)
    requires Safe(s)
    ensures Safe(Step(s, Event.Commit(w, seen)))
  {
    assert Confirmed(LinkOf(s, w)) ==> Holds(LinkOf(s, w), LinkOf(s, w).phase.id);
  }

  lemma LockIsSafe(s: State, w: Id, id: Id)
    requires Safe(s)
    ensures Safe(Step(s, Lock(w, id)))
  {
  }

  lemma ConfirmIsSafe(s: State, w: Id, ack: bool)
    requires Safe(s)
    ensures Safe(Step(s, Confirm(w, ack)))
  {
  }

  /** With any number of workers and a failure at any point, every enqueued event is still queued or was confirmed and not
      returned; no two workers hold one event; and no publish starts with a return left over. */
  lemma {:induction false} NothingIsLost(events: seq<Event>)
    ensures Safe(Run(events))
  {
    if events != [] {
      NothingIsLost(events[..|events| - 1]);
      StepIsSafe(Run(events[..|events| - 1]), events[|events| - 1]);
    }
  }

  /** An event leaves the outbox only after the broker confirmed it. */
  lemma RemovedWasConfirmed(events: seq<Event>, e: Event, id: Id)
    requires id in Run(events).rows && id !in Run(events + [e]).rows
    ensures id in Run(events).confirmed
    ensures e.Commit?
  {
    assert (events + [e])[..|events|] == events;
    NothingIsLost(events);
  }

  /** A failure anywhere leaves the event to be delivered again: duplicates are possible, losses are not. */
  lemma FailureRequeues(s: State, w: Id, id: Id)
    requires Safe(s) && w in s.links && Holds(s.links[w], id)
    ensures id in Step(s, Event.Fail(w)).rows && !Locked(Step(s, Event.Fail(w)), id)
  {
  }
}
