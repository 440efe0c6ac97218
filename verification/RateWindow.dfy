/** The per-replica command rate window: one upsert decides whether a request is admitted. */
module RateWindow {
  import opened Basics

  const MAX_REQUESTS := 64

  /** One minute, in milliseconds. */
  const MINUTE := 60_000

  datatype Window = Window(epoch: int, startedAt: int, count: int)

  predicate Expired(window: Window, epoch: int, now: int) {
    window.epoch != epoch || now >= window.startedAt + MINUTE
  }

  /** INSERT .. ON CONFLICT DO UPDATE .. WHERE .. RETURNING: None when the WHERE clause drops the row. */
  function Consume(window: Option<Window>, epoch: int, now: int): Option<Window> {
    match window
    case None => Some(Window(epoch, now, 1))
    case Some(w) =>
      if Expired(w, epoch, now) then Some(Window(epoch, now, 1))
      else if w.count < MAX_REQUESTS then Some(w.(count := w.count + 1))
      else None
  }

  datatype Hit = Hit(time: int, window: Window)

  /** The admitted requests among requests arriving at `times` in one replica epoch. */
  function Admitted(window: Option<Window>, epoch: int, times: seq<int>): seq<Hit>
    decreases |times|
  {
    if times == [] then []
    else
      match Consume(window, epoch, times[0])
      case None => Admitted(window, epoch, times[1..])
      case Some(next) => [Hit(times[0], next)] + Admitted(Some(next), epoch, times[1..])
  }

  ghost predicate NonDecreasing(times: seq<int>) {
    forall i, j :: 0 <= i <= j < |times| ==> times[i] <= times[j]
  }

  /** How a later admitted request relates to the one before it. */
  predicate Follows(previous: Hit, next: Hit) {
    && previous.time <= next.time
    && if previous.window.startedAt == next.window.startedAt && next.window.count != 1
       then next.window.count == previous.window.count + 1
       else next.window.count == 1 && next.window.startedAt == next.time >= previous.window.startedAt + MINUTE
  }

  ghost predicate Chain(hits: seq<Hit>) {
    && (forall i :: 0 <= i < |hits| ==>
          1 <= hits[i].window.count <= MAX_REQUESTS &&
          hits[i].window.startedAt <= hits[i].time < hits[i].window.startedAt + MINUTE &&
          (hits[i].window.count == 1 ==> hits[i].window.startedAt == hits[i].time))
    && (forall i :: 0 <= i < |hits| - 1 ==> Follows(hits[i], hits[i + 1]))
  }

  ghost predicate Open(window: Window, epoch: int, earliest: int) {
    window.epoch == epoch && 1 <= window.count <= MAX_REQUESTS && window.startedAt <= earliest
  }

  lemma {:induction false} AdmittedChain(window: Option<Window>, epoch: int, times: seq<int>)
    requires NonDecreasing(times)
    requires window.Some? && window.value.epoch == epoch && times != [] ==> Open(window.value, epoch, times[0])
    ensures Chain(Admitted(window, epoch, times))
    ensures var hits := Admitted(window, epoch, times);
            hits != [] ==>
              && times[0] <= hits[0].time
              && (window.Some? && window.value.epoch == epoch ==>
                    forall t :: times != [] && t <= times[0] ==> Follows(Hit(t, window.value), hits[0]))
    decreases |times|
  {
    if times != [] {
      match Consume(window, epoch, times[0]) {
        case None => AdmittedChain(window, epoch, times[1..]);
        case Some(next) => AdmittedChain(Some(next), epoch, times[1..]);
      }
    }
  }

  /** The window in force at hit `i` gives way to a new one after at most 64 hits in all. */
  lemma {:induction false} NextWindow(hits: seq<Hit>, i: nat) returns (m: nat)
    requires Chain(hits) && i < |hits| && i + (MAX_REQUESTS + 1 - hits[i].window.count) < |hits|
    ensures i < m <= i + (MAX_REQUESTS + 1 - hits[i].window.count)
    ensures hits[m].window.count == 1
    ensures hits[m].window.startedAt == hits[m].time >= hits[i].window.startedAt + MINUTE
    ensures hits[i].time <= hits[m].time
    decreases MAX_REQUESTS - hits[i].window.count
  {
    assert Follows(hits[i], hits[i + 1]);
    if hits[i + 1].window.count == 1 {
      m := i + 1;
    } else {
      m := NextWindow(hits, i + 1);
    }
  }

  lemma {:induction false} TimesOrdered(hits: seq<Hit>, i: nat, j: nat)
    requires Chain(hits) && i <= j < |hits|
    ensures hits[i].time <= hits[j].time && hits[i].window.startedAt <= hits[j].window.startedAt
    decreases j - i
  {
    if i < j {
      assert Follows(hits[i], hits[i + 1]);
      TimesOrdered(hits, i + 1, j);
    }
  }

  lemma {:induction false} ChainApart(hits: seq<Hit>, i: nat, j: nat)
    requires Chain(hits) && i <= j < |hits|
    ensures if hits[i].window.startedAt == hits[j].window.startedAt
            then j - i == hits[j].window.count - hits[i].window.count < MAX_REQUESTS
            else hits[i].window.startedAt + MINUTE <= hits[j].window.startedAt
    decreases j - i
  {
    if i < j {
      assert Follows(hits[j - 1], hits[j]);
      ChainApart(hits, i, j - 1);
      TimesOrdered(hits, i, j - 1);
    }
  }

  /** A chain never has 128 hits within less than a minute. */
  lemma ChainMinute(hits: seq<Hit>, i: nat, j: nat)
    requires Chain(hits) && i <= j < |hits| && hits[j].time < hits[i].time + MINUTE
    ensures j - i < 127
  {
    if j - i >= 127 {
      var m := i;
      if hits[i].window.count != 1 {
        m := NextWindow(hits, i);
      }
      var n := NextWindow(hits, m);
      TimesOrdered(hits, n, j);
    }
  }

  /** Two different windows of one epoch start at least a minute apart, and a window admits at most 64. */
  lemma WindowsApart(window: Option<Window>, epoch: int, times: seq<int>, i: nat, j: nat)
    requires NonDecreasing(times)
    requires window.Some? && window.value.epoch == epoch && times != [] ==> Open(window.value, epoch, times[0])
    requires i <= j < |Admitted(window, epoch, times)|
    ensures var first, last := Admitted(window, epoch, times)[i].window, Admitted(window, epoch, times)[j].window;
            if first.startedAt == last.startedAt then j - i == last.count - first.count < MAX_REQUESTS
            else first.startedAt + MINUTE <= last.startedAt
  {
    AdmittedChain(window, epoch, times);
    ChainApart(Admitted(window, epoch, times), i, j);
  }

  /** Any span shorter than a minute holds at most 127 admitted requests, whatever the arrival times. */
  lemma AnyMinute(window: Option<Window>, epoch: int, times: seq<int>, i: nat, j: nat)
    requires NonDecreasing(times)
    requires window.Some? && window.value.epoch == epoch && times != [] ==> Open(window.value, epoch, times[0])
    requires i <= j < |Admitted(window, epoch, times)|
    requires Admitted(window, epoch, times)[j].time < Admitted(window, epoch, times)[i].time + MINUTE
    ensures j - i < 127
  {
    AdmittedChain(window, epoch, times);
    ChainMinute(Admitted(window, epoch, times), i, j);
  }

  // ---- a refusal is justified ---

  /** The stored window after these arrivals. */
  function Stored(window: Option<Window>, epoch: int, times: seq<int>): Option<Window>
    decreases |times|
  {
    if times == [] then window
    else
      match Consume(window, epoch, times[0])
      case None => Stored(window, epoch, times[1..])
      case Some(next) => Stored(Some(next), epoch, times[1..])
  }

  lemma {:induction false} AdmittedLast(window: Option<Window>, epoch: int, times: seq<int>, t: int)
    ensures Admitted(window, epoch, times + [t]) == Admitted(window, epoch, times) +
              match Consume(Stored(window, epoch, times), epoch, t)
              case None => []
              case Some(next) => [Hit(t, next)]
    decreases |times|
  {
    if times == [] {
      assert times + [t] == [t];
    } else {
      assert (times + [t])[0] == times[0] && (times + [t])[1..] == times[1..] + [t];
      match Consume(window, epoch, times[0]) {
        case None => AdmittedLast(window, epoch, times[1..], t);
        case Some(next) => AdmittedLast(Some(next), epoch, times[1..], t);
      }
    }
  }

  lemma {:induction false} StoredIsLast(window: Option<Window>, epoch: int, times: seq<int>)
    ensures var hits := Admitted(window, epoch, times);
            Stored(window, epoch, times) == if hits == [] then window else Some(hits[|hits| - 1].window)
    decreases |times|
  {
    if times != [] {
      match Consume(window, epoch, times[0]) {
        case None => StoredIsLast(window, epoch, times[1..]);
        case Some(next) => StoredIsLast(Some(next), epoch, times[1..]);
      }
    }
  }

  /** The hits counted by the window of hit `i` are the last ones up to it, the first of them at its start. */
  lemma {:induction false} WindowHits(hits: seq<Hit>, i: nat)
    requires Chain(hits) && i < |hits| && hits[0].window.count == 1
    ensures hits[i].window.count <= i + 1
    ensures hits[i + 1 - hits[i].window.count].time == hits[i].window.startedAt
    decreases i
  {
    if hits[i].window.count > 1 {
      assert Follows(hits[i - 1], hits[i]);
      WindowHits(hits, i - 1);
    }
  }

  /** From an empty table, an arrival is refused only if the sixty-four admitted before it all arrived within the last
      minute; any other arrival is admitted. */
  lemma RefusedOnlyWhenFull(epoch: int, times: seq<int>, t: int)
    requires NonDecreasing(times + [t])
    ensures var before, after := Admitted(None, epoch, times), Admitted(None, epoch, times + [t]);
            || (|after| == |before| + 1 && after[|before|].time == t)
            || (after == before && |before| >= 64 && before[|before| - 64].time > t - 60_000)
  {
    var before := Admitted(None, epoch, times);
    AdmittedLast(None, epoch, times, t);
    StoredIsLast(None, epoch, times);
    assert NonDecreasing(times) by {
      forall i, j | 0 <= i <= j < |times| ensures times[i] <= times[j] {
        assert (times + [t])[i] <= (times + [t])[j];
      }
    }
    AdmittedChain(None, epoch, times);
    if before != [] {
      FirstHit(epoch, times);
      WindowHits(before, |before| - 1);
      LastEpoch(None, epoch, times);
    }
  }

  lemma FirstHit(epoch: int, times: seq<int>)
    requires Admitted(None, epoch, times) != []
    ensures Admitted(None, epoch, times)[0].window.count == 1
  {
  }

  lemma {:induction false} LastEpoch(window: Option<Window>, epoch: int, times: seq<int>)
    ensures forall k :: 0 <= k < |Admitted(window, epoch, times)| ==>
        Admitted(window, epoch, times)[k].window.epoch == epoch
    decreases |times|
  {
    if times != [] {
      match Consume(window, epoch, times[0]) {
        case None => LastEpoch(window, epoch, times[1..]);
        case Some(next) => LastEpoch(Some(next), epoch, times[1..]);
      }
    }
  }

  // ---- the bound of 127 is reached ---

  function Repeat(t: int, n: nat): seq<int> {
    if n == 0 then [] else [t] + Repeat(t, n - 1)
  }

  lemma {:induction false} RepeatedArrivals(w: Window, t: int, n: nat, rest: seq<int>)
    requires w.startedAt <= t < w.startedAt + MINUTE && w.count + n <= MAX_REQUESTS
    ensures |Admitted(Some(w), w.epoch, Repeat(t, n) + rest)| == n + |Admitted(Some(w.(count := w.count + n)), w.epoch,
        rest)|
    ensures forall k :: 0 <= k < n ==> Admitted(Some(w), w.epoch, Repeat(t, n) + rest)[k].time == t
    ensures Admitted(Some(w), w.epoch, Repeat(t, n) + rest)[n..] == Admitted(Some(w.(count := w.count + n)), w.epoch,
        rest)
    decreases n
  {
    if n == 0 {
      assert Repeat(t, n) + rest == rest;
    } else {
      assert (Repeat(t, n) + rest)[1..] == Repeat(t, n - 1) + rest;
      RepeatedArrivals(w.(count := w.count + 1), t, n - 1, rest);
    }
  }

  /** 127 requests are admitted within two milliseconds around a window boundary. */
  lemma BoundaryBurst(epoch: int)
    ensures var times := [0] + (Repeat(MINUTE - 1, 63) + ([MINUTE] + (Repeat(MINUTE, 63) + [])));
            var hits := Admitted(None, epoch, times);
            |hits| == 128 && hits[1].time == MINUTE - 1 && hits[127].time == MINUTE
  {
    var later := [MINUTE] + (Repeat(MINUTE, 63) + []);
    RepeatedArrivals(Window(epoch, 0, 1), MINUTE - 1, 63, later);
    RepeatedArrivals(Window(epoch, MINUTE, 1), MINUTE, 63, []);
    var times := [0] + (Repeat(MINUTE - 1, 63) + later);
    assert times[1..] == Repeat(MINUTE - 1, 63) + later;
    assert later[1..] == Repeat(MINUTE, 63) + [];
    var tail := Admitted(Some(Window(epoch, 0, 64)), epoch, later);
    var last := Admitted(Some(Window(epoch, MINUTE, 1)), epoch, Repeat(MINUTE, 63) + []);
    assert tail == [Hit(MINUTE, Window(epoch, MINUTE, 1))] + last;
    assert last[62].time == MINUTE;
    assert tail[63] == last[62];
    var hits := Admitted(None, epoch, times);
    var after := Admitted(Some(Window(epoch, 0, 1)), epoch, Repeat(MINUTE - 1, 63) + later);
    assert hits == [Hit(0, Window(epoch, 0, 1))] + after;
    assert hits[1] == after[0];
    assert hits[127] == after[126] == after[63..][63];
  }
}
