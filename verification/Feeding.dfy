/** The outbox worker on the outbox of the engine: what a transaction queues is delivered or waits. */
module Feeding {
  import opened Base
  import opened Store
  import opened Protocol
  import opened Invariant
  import opened Reachability
  import opened Ledger
  import opened SignUps
  import Delivery

  /** A transaction of the engine, or an event at some worker. */
  datatype Happening = Called(call: Call) | Worked(event: Delivery.Event)

  /** The engine's database with the log of what it queued, and the rows that the workers see. */
  datatype Service = Service(db: DB, queue: Delivery.State)

  function ExchangeOf(m: Message): Delivery.Exchange {
    if m.Mail? then Delivery.Exchange.Mail else Delivery.Exchange.Profiles
  }

  /** The messages of the log from the n-th on become rows, each under its place in the log. */
  function Feed(s: Delivery.State, log: seq<Message>, n: nat): Delivery.State
    decreases |log| - n
  {
    if n >= |log| then s else Feed(Delivery.Step(s, Delivery.Event.Enqueue(n, ExchangeOf(log[n]))), log, n + 1)
  }

  function Next(cfg: Config, s: Service, h: Happening): Service {
    match h
    case Called(call) =>
      var d := Apply(cfg, s.db, call).db;
      Service(d, Feed(s.queue, d.outbox, |s.db.outbox|))
    case Worked(event) => if event.Enqueue? then s else s.(queue := Delivery.Step(s.queue, event))
  }

  function Live(cfg: Config, hs: seq<Happening>): Service {
    if hs == [] then Service(EMPTY, Delivery.Run([])) else Next(cfg, Live(cfg, hs[..|hs| - 1]), hs[|hs| - 1])
  }

  /** The transactions among what happened. */
  function Calls(hs: seq<Happening>): seq<Call> {
    if hs == [] then []
    else
      var h := hs[|hs| - 1];
      Calls(hs[..|hs| - 1]) + if h.Called? then [h.call] else []
  }

  /** The rows are those of the log, under their places, and nothing of the log is lost. */
  ghost predicate Fed(log: seq<Message>, s: Delivery.State) {
    && Delivery.Safe(s)
    && (forall k: nat :: k in s.enqueued <==> k < |log|)
    && (forall k | k in s.rows :: k < |log| && s.rows[k] == ExchangeOf(log[k]))
  }

  lemma {:induction false} FeedKeeps(s: Delivery.State, log: seq<Message>, n: nat)
    requires n <= |log| && Fed(log[..n], s)
    ensures Fed(log, Feed(s, log, n))
    decreases |log| - n
  {
    hide Delivery.Step, Fed;
    if n == |log| {
      assert log[..n] == log;
    } else {
      OneMoreRow(s, log, n);
      FeedKeeps(Delivery.Step(s, Delivery.Event.Enqueue(n, ExchangeOf(log[n]))), log, n + 1);
    }
  }

  lemma OneMoreRow(s: Delivery.State, log: seq<Message>, n: nat)
    requires n < |log| && Fed(log[..n], s)
    ensures Fed(log[..n + 1], Delivery.Step(s, Delivery.Event.Enqueue(n, ExchangeOf(log[n]))))
  {
    Delivery.StepIsSafe(s, Delivery.Event.Enqueue(n, ExchangeOf(log[n])));
    hide Delivery.Safe;
  }

  lemma WorkersKeep(log: seq<Message>, s: Delivery.State, e: Delivery.Event)
    requires Fed(log, s) && !e.Enqueue?
    ensures Fed(log, Delivery.Step(s, e))
  {
    Delivery.StepIsSafe(s, e);
    hide Delivery.Safe, Delivery.Locked, Delivery.Holds, Delivery.Confirmed;
  }

  /** Whatever the clients and the workers do, with failures at any point, every message that a transaction queued still waits in
      the outbox, on its own exchange, or was confirmed by the broker and not returned. */
  lemma {:induction false} QueuedIsDelivered(cfg: Config, hs: seq<Happening>, now: Time)
    requires Ordered(Calls(hs), now)
    ensures Live(cfg, hs).db == After(cfg, Calls(hs)) && Fed(After(cfg, Calls(hs)).outbox, Live(cfg, hs).queue)
    ensures forall k: nat | k < |After(cfg, Calls(hs)).outbox| :: k in Live(cfg, hs).queue.rows || k in Live(cfg, hs).queue.confirmed
  {
    hide Apply, Feed, Delivery.Step, After, Inv;
    if hs == [] {
      NothingFed(cfg);
    } else {
      var n := |hs| - 1;
      var m, h := hs[..n], hs[n];
      if h.Called? {
        assert Calls(hs) == Calls(m) + [h.call];
        CallsPrefix(Calls(m), h.call, now);
        QueuedIsDelivered(cfg, m, h.call.now);
        CallFeeds(cfg, Calls(m), h.call, Live(cfg, m).queue);
      } else {
        assert Calls(hs) == Calls(m);
        QueuedIsDelivered(cfg, m, now);
        if !h.event.Enqueue? {
          WorkersKeep(After(cfg, Calls(m)).outbox, Live(cfg, m).queue, h.event);
        }
      }
    }
    FedIsThere(After(cfg, Calls(hs)).outbox, Live(cfg, hs).queue);
  }

  lemma NothingFed(cfg: Config)
    ensures After(cfg, []) == EMPTY && Fed([], Delivery.Run([]))
  {
    hide Apply;
  }

  lemma CallsPrefix(calls: seq<Call>, call: Call, now: Time)
    requires Ordered(calls + [call], now)
    ensures Ordered(calls, call.now)
  {
    var run := calls + [call];
    assert run[|calls|] == call && forall i | 0 <= i < |calls| :: run[i] == calls[i];
  }

  lemma CallFeeds(cfg: Config, calls: seq<Call>, call: Call, s: Delivery.State)
    requires Ordered(calls, call.now) && Fed(After(cfg, calls).outbox, s)
    ensures var a, b := After(cfg, calls), Apply(cfg, After(cfg, calls), call).db;
      After(cfg, calls + [call]) == b && Fed(b.outbox, Feed(s, b.outbox, |a.outbox|))
  {
    hide Apply, Fed, Feed, Inv;
    var a, b := After(cfg, calls), Apply(cfg, After(cfg, calls), call).db;
    assert (calls + [call])[..|calls|] == calls;
    Reachable(cfg, calls, call.now);
    InvCore(cfg, a, call.now);
    OutboxGrows(cfg, a, call.now, call);
    assert b.outbox[..|a.outbox|] == a.outbox;
    FeedKeeps(s, b.outbox, |a.outbox|);
  }

  lemma FedIsThere(log: seq<Message>, s: Delivery.State)
    requires Fed(log, s)
    ensures forall k: nat | k < |log| :: k in s.rows || k in s.confirmed
  {
    hide Delivery.Holds, Delivery.Confirmed, Delivery.Clean;
  }
}
