/** internal/authentication/limiter.go: the bounded limiter of enrolment attempts. */
module Limiter {
  import opened Base

  datatype Window = Window(start: Time, count: nat)

  const SPAN: Time := 5 * MINUTE
  const LIMIT: nat := 10
  const CAPACITY: nat := 10000

  type Windows = map<Id, Window>

  datatype Verdict = Verdict(windows: Windows, allowed: bool)

  predicate Over(w: Window, now: Time) {
    now - w.start >= SPAN
  }

  /** Once the table is full, windows that are over make room. */
  function Evicted(windows: Windows, now: Time): Windows {
    if |windows| < CAPACITY then windows else map k | k in windows && !Over(windows[k], now) :: windows[k]
  }

  /** What allow answers and leaves behind. */
  function Judge(windows: Windows, id: Id, now: Time): Verdict {
    var left := Evicted(windows, now);
    if id !in left && |left| >= CAPACITY then Verdict(left, false)
    else
      var w := if id in left && !Over(left[id], now) then left[id] else Window(now, 0);
      if w.count >= LIMIT then Verdict(left, false) else Verdict(left[id := Window(w.start, w.count + 1)], true)
  }

  class ActivationLimiter {
    var windows: Windows

    constructor ()
      ensures windows == map[]
    {
      windows := map[];
    }

    method Allow(id: Id, now: Time) returns (allowed: bool)
      modifies this
      ensures Verdict(windows, allowed) == Judge(old(windows), id, now)
    {
      if |windows| >= CAPACITY {
        var todo, all := windows.Keys, windows;
        while todo != {}
          invariant todo <= all.Keys
          invariant windows == map k | k in all && (k in todo || !Over(all[k], now)) :: all[k]
          decreases |todo|
        {
          var k :| k in todo;
          todo := todo - {k};
          if now - windows[k].start >= SPAN {
            windows := windows - {k};
          }
        }
      }
      assert windows == Evicted(old(windows), now);
      if id !in windows && |windows| >= CAPACITY {
        return false;
      }
      var w := Window(now, 0);
      if id in windows && now - windows[id].start < SPAN {
        w := windows[id];
      }
      if w.count >= LIMIT {
        return false;
      }
      windows := windows[id := Window(w.start, w.count + 1)];
      return true;
    }
  }

  // ---------- one account, no bound on the table ----------

  function WindowAt(w: Option<Window>, now: Time): Window {
    if w.Some? && !Over(w.value, now) then w.value else Window(now, 0)
  }

  predicate Grants(w: Option<Window>, now: Time) {
    WindowAt(w, now).count < LIMIT
  }

  function After(w: Option<Window>, now: Time): Option<Window> {
    if Grants(w, now) then Some(Window(WindowAt(w, now).start, WindowAt(w, now).count + 1)) else w
  }

  /** The window after the tries. */
  function Free(tries: seq<Time>): Option<Window> {
    if tries == [] then None else After(Free(tries[..|tries| - 1]), tries[|tries| - 1])
  }

  /** Tries granted at times from lo, before hi. */
  function Granted(tries: seq<Time>, lo: Time, hi: Time): nat {
    if tries == [] then 0
    else
      var n := |tries| - 1;
      Granted(tries[..n], lo, hi) + if Grants(Free(tries[..n]), tries[n]) && lo <= tries[n] < hi then 1 else 0
  }

  predicate Rising(tries: seq<Time>) {
    forall i, j | 0 <= i <= j < |tries| :: tries[i] <= tries[j]
  }

  lemma {:induction false} GrantedSplits(tries: seq<Time>, lo: Time, mid: Time, hi: Time)
    requires lo <= mid <= hi
    ensures Granted(tries, lo, hi) == Granted(tries, lo, mid) + Granted(tries, mid, hi)
  {
    if tries != [] {
      GrantedSplits(tries[..|tries| - 1], lo, mid, hi);
    }
  }

  lemma {:induction false} GrantedNone(tries: seq<Time>, lo: Time, hi: Time)
    requires forall i | 0 <= i < |tries| :: tries[i] < lo
    ensures Granted(tries, lo, hi) == 0
  {
    if tries != [] {
      GrantedNone(tries[..|tries| - 1], lo, hi);
    }
  }

  /** The current window accounts for what was granted since its start, the first of it at its start; within a span before the
      start at most one less than the limit was granted. */
  ghost predicate Accounted(tries: seq<Time>) {
    var w := Free(tries);
    && (tries == [] <==> w.None?)
    && (w.Some? ==>
          && 0 < w.value.count <= LIMIT
          && (forall i | 0 <= i < |tries| :: tries[i] < w.value.start + SPAN)
          && (forall hi :: Granted(tries, w.value.start, hi) <= w.value.count)
          && (forall lo, hi | lo > w.value.start :: Granted(tries, lo, hi) < w.value.count)
          && (forall lo | lo > w.value.start - SPAN :: Granted(tries, lo, w.value.start) < LIMIT))
  }

  // One more try in the window, or the first of the next.
  lemma AccountedGrows(tries: seq<Time>)
    requires Rising(tries) && tries != [] && Accounted(tries[..|tries| - 1])
    ensures Accounted(tries)
  {
    var n := |tries| - 1;
    var m, now := tries[..n], tries[n];
    var v, w := Free(m), Free(tries);
    assert forall i | 0 <= i < n :: m[i] == tries[i];
    forall lo, hi
      ensures Granted(tries, lo, hi) == Granted(m, lo, hi) + if Grants(v, now) && lo <= now < hi then 1 else 0
    {
    }
    if v.Some? && !Over(v.value, now) {
      forall lo | lo > v.value.start - SPAN
        ensures Granted(tries, lo, v.value.start) < LIMIT
      {
        assert v.value.start <= now by { StartIsPast(m, now); }
      }
    } else {
      forall hi
        ensures Granted(tries, now, hi) <= 1
      {
        if v.Some? {
          GrantedNone(m, now, hi);
        }
      }
      forall lo, hi | lo > now
        ensures Granted(tries, lo, hi) == 0
      {
        GrantedNone(m, lo, hi);
      }
      assert forall lo | lo > now - SPAN && v.Some? :: lo > v.value.start && Granted(tries, lo, now) == Granted(m, lo, now);
    }
  }

  lemma {:induction false} StartIsPast(tries: seq<Time>, now: Time)
    requires Rising(tries) && forall i | 0 <= i < |tries| :: tries[i] <= now
    ensures Free(tries).Some? ==> Free(tries).value.start <= now
  {
    if tries != [] {
      StartIsPast(tries[..|tries| - 1], now);
    }
  }

  lemma {:induction false} AlwaysAccounted(tries: seq<Time>)
    requires Rising(tries)
    ensures Accounted(tries)
  {
    if tries != [] {
      AlwaysAccounted(tries[..|tries| - 1]);
      AccountedGrows(tries);
    }
  }

  /** A half-open interval of the span meets at most two windows, and misses the first grant of the earlier one. */
  lemma {:induction false} FreeRateBound(tries: seq<Time>, lo: Time)
    requires Rising(tries)
    ensures Granted(tries, lo, lo + SPAN) < 2 * LIMIT
  {
    if tries != [] {
      var n := |tries| - 1;
      var now := tries[n];
      FreeRateBound(tries[..n], lo);
      AlwaysAccounted(tries);
      var start := Free(tries).value.start;
      StartIsPast(tries, now);
      if lo <= now < lo + SPAN && lo <= start {
        GrantedSplits(tries, lo, start, lo + SPAN);
      }
    }
  }

  function Burst(tries: seq<Time>, now: Time, n: nat): seq<Time> {
    if n == 0 then tries else Burst(tries, now, n - 1) + [now]
  }

  lemma OneMore(tries: seq<Time>, now: Time, lo: Time, hi: Time)
    requires lo <= now < hi && Grants(Free(tries), now)
    ensures Granted(tries + [now], lo, hi) == Granted(tries, lo, hi) + 1
    ensures Free(tries + [now]) == After(Free(tries), now)
  {
    assert (tries + [now])[..|tries|] == tries;
  }

  // A burst in a window with room is granted whole.
  lemma {:induction false} BurstGranted(tries: seq<Time>, now: Time, n: nat, lo: Time, hi: Time)
    requires lo <= now < hi && WindowAt(Free(tries), now).count + n <= LIMIT
    ensures Granted(Burst(tries, now, n), lo, hi) == Granted(tries, lo, hi) + n
  {
    if n > 0 {
      hide Free, Granted;
      BurstGranted(tries, now, n - 1, lo, hi);
      BurstFills(tries, now, n - 1);
      OneMore(Burst(tries, now, n - 1), now, lo, hi);
    }
  }

  // The window after n grants.
  lemma {:induction false} BurstFills(tries: seq<Time>, now: Time, n: nat)
    requires WindowAt(Free(tries), now).count + n <= LIMIT
    ensures WindowAt(Free(Burst(tries, now, n)), now) == Filled(Free(tries), now, n)
    ensures n > 0 ==> Free(Burst(tries, now, n)) == Some(Filled(Free(tries), now, n))
  {
    if n > 0 {
      hide Free;
      BurstFills(tries, now, n - 1);
      FreeGrows(Burst(tries, now, n - 1), now);
    }
  }

  function Filled(state: Option<Window>, now: Time, n: nat): Window {
    Window(WindowAt(state, now).start, WindowAt(state, now).count + n)
  }

  lemma FreeGrows(tries: seq<Time>, now: Time)
    ensures Free(tries + [now]) == if Grants(Free(tries), now) then After(Free(tries), now) else Free(tries)
  {
    assert (tries + [now])[..|tries|] == tries;
  }

  /** Nineteen grants within the span. */
  predicate Reached(tries: seq<Time>, lo: Time) {
    Rising(tries) && Granted(tries, lo, lo + SPAN) == 19
  }

  /** The bound is reached: one try, nine more soon after, and ten in the next window. */
  lemma RateBoundIsTight()
    ensures exists tries, lo :: Reached(tries, lo)
  {
    var a := Burst([], 0, 1);
    BurstFills([], 0, 1);
    var b := Burst(a, 1, 9);
    BurstFills(a, 1, 9);
    GrantedNone(a, 1, 1 + SPAN);
    BurstGranted(a, 1, 9, 1, 1 + SPAN);
    var c := Burst(b, SPAN, 10);
    BurstGranted(b, SPAN, 10, 1, 1 + SPAN);
    BurstRises([], 0, 1);
    BurstRises(a, 1, 9);
    BurstRises(b, SPAN, 10);
    assert Reached(c, 1);
  }

  lemma {:induction false} BurstRises(tries: seq<Time>, now: Time, n: nat)
    requires Rising(tries) && forall i | 0 <= i < |tries| :: tries[i] <= now
    ensures Rising(Burst(tries, now, n)) && forall i | 0 <= i < |Burst(tries, now, n)| :: Burst(tries, now, n)[i] <= now
  {
    if n > 0 {
      BurstRises(tries, now, n - 1);
    }
  }

  // ---------- the bounded table refines it ----------

  datatype Try = Try(id: Id, now: Time)

  predicate InOrder(tries: seq<Try>) {
    forall i, j | 0 <= i <= j < |tries| :: tries[i].now <= tries[j].now
  }

  /** The table after the tries. */
  function Table(tries: seq<Try>): Windows {
    if tries == [] then map[] else var n := |tries| - 1; Judge(Table(tries[..n]), tries[n].id, tries[n].now).windows
  }

  /** The table has no room for the account: the try is refused, and leaves no trace. */
  predicate Crowded(windows: Windows, t: Try) {
    t.id !in Evicted(windows, t.now) && |Evicted(windows, t.now)| >= CAPACITY
  }

  /** The times of the tries of an account that found room. */
  function Recorded(tries: seq<Try>, id: Id): seq<Time> {
    if tries == [] then []
    else
      var n := |tries| - 1;
      Recorded(tries[..n], id) + if tries[n].id == id && !Crowded(Table(tries[..n]), tries[n]) then [tries[n].now] else []
  }

  /** Tries of the account granted by the bounded limiter at times from lo, before hi. */
  function GrantedTo(tries: seq<Try>, id: Id, lo: Time, hi: Time): nat {
    if tries == [] then 0
    else
      var n := |tries| - 1;
      GrantedTo(tries[..n], id, lo, hi)
      + if tries[n].id == id && Judge(Table(tries[..n]), id, tries[n].now).allowed && lo <= tries[n].now < hi then 1 else 0
  }

  /** What the table knows of an account: the window of the unbounded limiter, or nothing if that is over. */
  predicate Tracks(windows: Windows, id: Id, w: Option<Window>, now: Time) {
    if id in windows then w == Some(windows[id]) else w.None? || Over(w.value, now)
  }

  lemma JudgeTracks(windows: Windows, id: Id, w: Option<Window>, t: Try, before: Time)
    requires Tracks(windows, id, w, before) && before <= t.now
    ensures var v := Judge(windows, t.id, t.now);
      if t.id == id && !Crowded(windows, t) then v.allowed == Grants(w, t.now) && Tracks(v.windows, id, After(w, t.now), t.now)
      else (t.id == id ==> !v.allowed) && Tracks(v.windows, id, w, t.now)
  {
  }

  lemma {:induction false} TableTracks(tries: seq<Try>, id: Id, now: Time)
    requires InOrder(tries) && forall i | 0 <= i < |tries| :: tries[i].now <= now
    ensures Tracks(Table(tries), id, Free(Recorded(tries, id)), now)
  {
    if tries != [] {
      var n := |tries| - 1;
      var m, t := tries[..n], tries[n];
      TableTracks(m, id, t.now);
      JudgeTracks(Table(m), id, Free(Recorded(m, id)), t, t.now);
      RecordedGrows(tries, id);
      TracksLater(Table(tries), id, Free(Recorded(tries, id)), t.now, now);
    }
  }

  lemma RecordedGrows(tries: seq<Try>, id: Id)
    requires tries != []
    ensures var n := |tries| - 1;
      var r := Recorded(tries[..n], id);
      if tries[n].id == id && !Crowded(Table(tries[..n]), tries[n])
      then Recorded(tries, id) == r + [tries[n].now] && Recorded(tries, id)[..|r|] == r
      else Recorded(tries, id) == r
  {
    hide Crowded, Table;
  }

  lemma TracksLater(windows: Windows, id: Id, w: Option<Window>, now: Time, later: Time)
    requires Tracks(windows, id, w, now) && now <= later
    ensures Tracks(windows, id, w, later)
  {
  }

  /** Every answer is that of the unbounded limiter on the tries that found room; the others are refused and leave no trace. */
  lemma {:induction false} BoundedRefinesUnbounded(tries: seq<Try>, id: Id, lo: Time, hi: Time)
    requires InOrder(tries)
    ensures GrantedTo(tries, id, lo, hi) == Granted(Recorded(tries, id), lo, hi)
    ensures tries != [] && tries[|tries| - 1].id == id ==>
      var m, t := tries[..|tries| - 1], tries[|tries| - 1];
      Judge(Table(m), id, t.now).allowed <==> !Crowded(Table(m), t) && Grants(Free(Recorded(m, id)), t.now)
  {
    if tries != [] {
      var n := |tries| - 1;
      var m, t := tries[..n], tries[n];
      BoundedRefinesUnbounded(m, id, lo, hi);
      TableTracks(m, id, t.now);
      JudgeTracks(Table(m), id, Free(Recorded(m, id)), t, t.now);
      RecordedGrows(tries, id);
      hide Judge, Crowded, Tracks, Table;
    }
  }

  lemma {:induction false} RecordedRises(tries: seq<Try>, id: Id)
    requires InOrder(tries)
    ensures Rising(Recorded(tries, id))
    ensures forall i | 0 <= i < |Recorded(tries, id)| :: exists j | 0 <= j < |tries| :: tries[j].now == Recorded(tries, id)[i]
  {
    if tries != [] {
      RecordedRises(tries[..|tries| - 1], id);
      hide Crowded, Table;
    }
  }

  /** At most ten in a window, and nineteen in any five minutes, per account. */
  lemma RateBound(tries: seq<Try>, id: Id, lo: Time)
    requires InOrder(tries)
    ensures GrantedTo(tries, id, lo, lo + SPAN) <= 19
    ensures forall k | k in Table(tries) :: 0 < Table(tries)[k].count <= 10
  {
    BoundedRefinesUnbounded(tries, id, lo, lo + SPAN);
    RecordedRises(tries, id);
    FreeRateBound(Recorded(tries, id), lo);
    forall k | k in Table(tries)
      ensures 0 < Table(tries)[k].count <= 10
    {
      TableTracks(tries, k, if tries == [] then 0 else tries[|tries| - 1].now);
      RecordedRises(tries, k);
      AlwaysAccounted(Recorded(tries, k));
    }
  }

  /** The table never outgrows its capacity. */
  lemma {:induction false} TableIsBounded(tries: seq<Try>)
    ensures |Table(tries)| <= 10000
  {
    if tries != [] {
      var n := |tries| - 1;
      TableIsBounded(tries[..n]);
      EvictionShrinks(Table(tries[..n]), tries[n].now);
    }
  }

  lemma EvictionShrinks(windows: Windows, now: Time)
    ensures |Evicted(windows, now)| <= |windows|
  {
    var left := Evicted(windows, now);
    assert left.Keys <= windows.Keys;
    SubsetIsSmaller(left.Keys, windows.Keys);
  }
}
