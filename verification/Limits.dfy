/** Rate limits: the sliding window over handshakes and the fixed window over audio frames. */
module Limits {
  import opened Text

  const WINDOW_MS: int := 60_000
  const FRAME_WINDOW_MS: int := 1_000
  const MAX_FRAMES_PER_WINDOW: nat := 60

  /** Times inside `(from, to]`. */
  function Within(times: seq<int>, from: int, to: int): nat {
    if times == [] then 0
    else
      var last := times[|times| - 1];
      Within(times[..|times| - 1], from, to) + if from < last <= to then 1 else 0
  }

  predicate Sorted(times: seq<int>) {
    forall i, j | 0 <= i < j < |times| :: times[i] <= times[j]
  }

  /** The kept part of a sorted list of times: those after the cutoff. */
  function Recent(times: seq<int>, cutoff: int): seq<int> {
    if times == [] then []
    else
      var last := times[|times| - 1];
      Recent(times[..|times| - 1], cutoff) + if last > cutoff then [last] else []
  }

  /* Handshakes */

  /** The kept times answer every later question about the window as the whole history would. */
  ghost predicate Pruned(kept: seq<int>, history: seq<int>, clock: int) {
    && (forall i | 0 <= i < |history| :: history[i] <= clock)
    && (forall cutoff | cutoff >= clock - WINDOW_MS :: Recent(kept, cutoff) == Recent(history, cutoff))
  }

  class HandshakeLimiter {
    var hits: map<string, seq<int>>
    const limit: int
    /** Every admission ever, per key. */
    ghost var admitted: map<string, seq<int>>
    ghost var clock: int

    ghost predicate Consistent()
      reads this
    {
      && hits.Keys == admitted.Keys
      && forall key | key in hits :: Pruned(hits[key], admitted[key], clock)
    }

    ghost function Admitted(key: string): seq<int>
      reads this
    {
      if key in admitted then admitted[key] else []
    }

    constructor (limit: int, now: int)
      ensures Consistent() && this.limit == limit && clock == now && admitted == map[]
    {
      this.limit := limit;
      hits, admitted, clock := map[], map[], now;
    }

    /** The clock is read twice: once for the cutoff and once for the recorded time. */
    method Allow(key: string, now: int, later: int) returns (allowed: bool)
      requires Consistent() && clock <= now <= later
      modifies this
      ensures Consistent() && clock == later
      ensures allowed <==> Within(old(Admitted(key)), now - WINDOW_MS, now) < limit
      ensures Admitted(key) == Admit(old(Admitted(key)), limit, now, later)
      ensures forall other | other != key :: Admitted(other) == old(Admitted(other))
    {
      var cutoff := now - WINDOW_MS;
      ghost var history := Admitted(key);
      var recent := Prune(if key in hits then hits[key] else [], cutoff);
      assert recent == Recent(history, cutoff);
      RecentCount(history, cutoff, now);
      PrunedNow(history, cutoff, now, later);
      allowed := |recent| < limit;
      clock := later;
      if allowed {
        PrunedGrows(recent, history, later);
        recent := recent + [later];
        history := history + [later];
      }
      hits := hits[key := recent];
      admitted := admitted[key := history];
    }
  }

  method Prune(times: seq<int>, cutoff: int) returns (recent: seq<int>)
    ensures recent == Recent(times, cutoff)
  {
    recent := [];
    for i := 0 to |times|
      invariant recent == Recent(times[..i], cutoff)
    {
      assert times[..i + 1][..i] == times[..i];
      if times[i] > cutoff {
        recent := recent + [times[i]];
      }
    }
    assert times[..|times|] == times;
  }

  lemma {:induction false} RecentCount(times: seq<int>, cutoff: int, now: int)
    requires forall i | 0 <= i < |times| :: times[i] <= now
    ensures |Recent(times, cutoff)| == Within(times, cutoff, now)
    decreases |times|
  {
    if times != [] {
      RecentCount(times[..|times| - 1], cutoff, now);
    }
  }

  lemma {:induction false} RecentConcat(a: seq<int>, b: seq<int>, cutoff: int)
    ensures Recent(a + b, cutoff) == Recent(a, cutoff) + Recent(b, cutoff)
    decreases |b|
  {
    if b == [] {
      assert a + b == a;
    } else {
      RecentConcat(a, b[..|b| - 1], cutoff);
      assert (a + b)[..|a + b| - 1] == a + b[..|b| - 1];
    }
  }

  lemma RecentOne(at: int, cutoff: int)
    ensures Recent([at], cutoff) == if at > cutoff then [at] else []
  {
    assert [at][..0] == [];
  }

  lemma {:induction false} RecentOfRecent(times: seq<int>, cutoff: int, higher: int)
    requires cutoff <= higher
    ensures Recent(Recent(times, cutoff), higher) == Recent(times, higher)
    decreases |times|
  {
    if times != [] {
      var front, last := times[..|times| - 1], times[|times| - 1];
      RecentOfRecent(front, cutoff, higher);
      if last > cutoff {
        assert Recent(times, cutoff) == Recent(front, cutoff) + [last];
        RecentConcat(Recent(front, cutoff), [last], higher);
        RecentOne(last, higher);
      } else {
        assert Recent(times, cutoff) == Recent(front, cutoff);
      }
    }
  }

  /** Pruning at one cutoff loses nothing that a later cutoff would keep. */
  lemma RecentTwice(times: seq<int>, cutoff: int)
    ensures forall higher | higher >= cutoff :: Recent(Recent(times, cutoff), higher) == Recent(times, higher)
  {
    forall higher | higher >= cutoff
      ensures Recent(Recent(times, cutoff), higher) == Recent(times, higher)
    {
      RecentOfRecent(times, cutoff, higher);
    }
  }

  lemma PrunedNow(history: seq<int>, cutoff: int, now: int, later: int)
    requires cutoff == now - WINDOW_MS && now <= later
    requires forall i | 0 <= i < |history| :: history[i] <= now
    ensures Pruned(Recent(history, cutoff), history, later)
  {
    RecentTwice(history, cutoff);
  }

  lemma PrunedGrows(kept: seq<int>, history: seq<int>, at: int)
    requires Pruned(kept, history, at)
    ensures Pruned(kept + [at], history + [at], at)
  {
    forall cutoff | cutoff >= at - WINDOW_MS
      ensures Recent(kept + [at], cutoff) == Recent(history + [at], cutoff)
    {
      RecentConcat(kept, [at], cutoff);
      RecentConcat(history, [at], cutoff);
    }
  }

  function Admit(times: seq<int>, limit: int, now: int, later: int): seq<int> {
    if Within(times, now - WINDOW_MS, now) < limit then times + [later] else times
  }

  /** The two clock readings of one call. */
  datatype Call = Call(now: int, later: int)

  predicate ClockRuns(calls: seq<Call>) {
    && (forall i | 0 <= i < |calls| :: calls[i].now <= calls[i].later)
    && (forall i, j | 0 <= i < j < |calls| :: calls[i].later <= calls[j].now)
  }

  function AdmittedBy(calls: seq<Call>, limit: int): seq<int> {
    if calls == [] then []
    else
      var last := calls[|calls| - 1];
      Admit(AdmittedBy(calls[..|calls| - 1], limit), limit, last.now, last.later)
  }

  lemma {:induction false} WithinMonotone(times: seq<int>, from: int, to: int, from': int, to': int)
    requires forall i | 0 <= i < |times| && from < times[i] <= to :: from' < times[i] <= to'
    ensures Within(times, from, to) <= Within(times, from', to')
    decreases |times|
  {
    if times != [] {
      WithinMonotone(times[..|times| - 1], from, to, from', to');
    }
  }

  lemma {:induction false} AdmittedInPast(calls: seq<Call>, limit: int, now: int)
    requires forall i | 0 <= i < |calls| :: calls[i].later <= now
    ensures forall i | 0 <= i < |AdmittedBy(calls, limit)| :: AdmittedBy(calls, limit)[i] <= now
    decreases |calls|
  {
    if calls != [] {
      AdmittedInPast(calls[..|calls| - 1], limit, now);
    }
  }

  /** However the calls are spread, no window of sixty seconds contains more than `limit` admissions of a key. */
  lemma {:induction false} AtMostLimitPerWindow(calls: seq<Call>, limit: nat, from: int)
    requires ClockRuns(calls)
    ensures Within(AdmittedBy(calls, limit), from, from + WINDOW_MS) <= limit
    decreases |calls|
  {
    if calls != [] {
      var before, last := calls[..|calls| - 1], calls[|calls| - 1];
      AtMostLimitPerWindow(before, limit, from);
      AdmittedInPast(before, limit, last.now);
      AdmissionKeepsLimit(AdmittedBy(before, limit), limit, last, from);
    }
  }

  lemma AdmissionKeepsLimit(times: seq<int>, limit: nat, call: Call, from: int)
    requires call.now <= call.later && forall i | 0 <= i < |times| :: times[i] <= call.now
    requires Within(times, from, from + WINDOW_MS) <= limit
    ensures Within(Admit(times, limit, call.now, call.later), from, from + WINDOW_MS) <= limit
  {
    WithinAppend(times, call.later, from, from + WINDOW_MS);
    if from < call.later <= from + WINDOW_MS {
      WithinMonotone(times, from, from + WINDOW_MS, call.now - WINDOW_MS, call.now);
    }
  }

  /* Audio frames */

  datatype FrameWindow = FrameWindow(start: int, frames: nat)

  function Advance(w: FrameWindow, now: int): FrameWindow {
    if now - w.start >= FRAME_WINDOW_MS then FrameWindow(now, 1) else w.(frames := w.frames + 1)
  }

  predicate Accepts(w: FrameWindow, now: int) {
    Advance(w, now).frames <= MAX_FRAMES_PER_WINDOW
  }

  /** Window and accepted times after frames arrived at the given times, for a session started at `start`. */
  function Frames(start: int, arrivals: seq<int>): (FrameWindow, seq<int>) {
    if arrivals == [] then (FrameWindow(start, 0), [])
    else
      var (w, accepted) := Frames(start, arrivals[..|arrivals| - 1]);
      var now := arrivals[|arrivals| - 1];
      (Advance(w, now), if Accepts(w, now) then accepted + [now] else accepted)
  }

  lemma WithinAppend(times: seq<int>, at: int, from: int, to: int)
    ensures Within(times + [at], from, to) == Within(times, from, to) + if from < at <= to then 1 else 0
  {
    assert (times + [at])[..|times|] == times;
  }

  /** Accepted frames in the half-open second `[from, from + 1000)`. */
  function InSecond(accepted: seq<int>, from: int): nat {
    Within(accepted, from - 1, from - 1 + FRAME_WINDOW_MS)
  }

  /** The clock never runs backwards, and no frame comes before the session. */
  predicate InOrder(start: int, arrivals: seq<int>) {
    Sorted(arrivals) && forall at | at in arrivals :: start <= at
  }

  /** How many frames of a second may belong to a window that began before it: the first window begins without a
      frame, every later one with the frame that opened it. */
  function Earlier(start: int, from: int): nat {
    if start < from < start + FRAME_WINDOW_MS then MAX_FRAMES_PER_WINDOW
    else if from > start + FRAME_WINDOW_MS then MAX_FRAMES_PER_WINDOW - 1
    else 0
  }

  /** The most frames a session started at `start` can get accepted in the second from `from`. */
  function Most(start: int, from: int): nat {
    if from + FRAME_WINDOW_MS <= start then 0 else Earlier(start, from) + MAX_FRAMES_PER_WINDOW
  }

  /** What the counter knows about one second, by where the current window stands to it: over before it, open when it
      begins, begun in it, or begun after it. */
  predicate Counts(start: int, from: int, w: FrameWindow, accepted: seq<int>, now: int) {
    var n := InSecond(accepted, from);
    && w.start <= now && (w.start == start || (w.start >= start + FRAME_WINDOW_MS && w.frames > 0))
    && if w.start + FRAME_WINDOW_MS <= from then n == 0
       else if w.start < from then n <= Earlier(start, from) && n <= if w.start == start then w.frames else w.frames - 1
       else if w.start < from + FRAME_WINDOW_MS then n <= Earlier(start, from) + Min(w.frames, MAX_FRAMES_PER_WINDOW)
       else n <= Most(start, from)
  }

  lemma FrameCounts(start: int, from: int, w: FrameWindow, accepted: seq<int>, before: int, now: int)
    requires Counts(start, from, w, accepted, before) && before <= now
    ensures Counts(start, from, Advance(w, now), if Accepts(w, now) then accepted + [now] else accepted, now)
  {
    WithinAppend(accepted, now, from - 1, from - 1 + FRAME_WINDOW_MS);
  }

  lemma {:induction false} FramesCount(start: int, from: int, arrivals: seq<int>)
    requires InOrder(start, arrivals)
    ensures var now := if arrivals == [] then start else arrivals[|arrivals| - 1];
            Counts(start, from, Frames(start, arrivals).0, Frames(start, arrivals).1, now)
    decreases |arrivals|
  {
    if arrivals != [] {
      var front, now := arrivals[..|arrivals| - 1], arrivals[|arrivals| - 1];
      var before := if front == [] then start else front[|front| - 1];
      assert forall at | at in front :: at in arrivals;
      FramesCount(start, from, front);
      assert now in arrivals && (front != [] ==> before in arrivals);
      var (w, accepted) := Frames(start, front);
      FrameCounts(start, from, w, accepted, before, now);
    }
  }

  /** However frames arrive, no more than that are accepted. */
  lemma AtMostMost(start: int, from: int, arrivals: seq<int>)
    requires InOrder(start, arrivals)
    ensures InSecond(Frames(start, arrivals).1, from) <= Most(start, from)
  {
    FramesCount(start, from, arrivals);
  }

  /** So at most one hundred and twenty are accepted in any half-open second. */
  lemma AtMostTwoWindows(start: int, arrivals: seq<int>, from: int)
    requires InOrder(start, arrivals)
    ensures InSecond(Frames(start, arrivals).1, from) <= 2 * MAX_FRAMES_PER_WINDOW
  {
    AtMostMost(start, from, arrivals);
  }

  /* A second as full as it gets */

  function Burst(at: int, n: nat): (burst: seq<int>)
    ensures |burst| == n && forall i | 0 <= i < n :: burst[i] == at
  {
    if n == 0 then [] else Burst(at, n - 1) + [at]
  }

  lemma NextFrame(start: int, arrivals: seq<int>, now: int)
    ensures var (w, accepted) := Frames(start, arrivals);
            Frames(start, arrivals + [now])
            == (Advance(w, now), if Accepts(w, now) then accepted + [now] else accepted)
  {
    assert (arrivals + [now])[..|arrivals|] == arrivals;
  }

  lemma BurstGrows(times: seq<int>, at: int, n: nat)
    requires n > 0
    ensures times + Burst(at, n) == times + Burst(at, n - 1) + [at]
  {
  }

  /** What is known once the frames of a burst so far were all accepted. */
  predicate Took(start: int, arrivals: seq<int>, at: int, n: nat, w: FrameWindow) {
    Frames(start, arrivals + Burst(at, n)) == (w, Frames(start, arrivals).1 + Burst(at, n))
  }

  lemma TakesOneMore(start: int, arrivals: seq<int>, at: int, n: nat, w: FrameWindow)
    requires n > 0 && Took(start, arrivals, at, n - 1, w) && Accepts(w, at)
    ensures Took(start, arrivals, at, n, Advance(w, at))
  {
    NextFrame(start, arrivals + Burst(at, n - 1), at);
    BurstGrows(arrivals, at, n);
    BurstGrows(Frames(start, arrivals).1, at, n);
  }

  lemma TookNone(start: int, arrivals: seq<int>, at: int)
    ensures Took(start, arrivals, at, 0, Frames(start, arrivals).0)
  {
    assert arrivals + Burst(at, 0) == arrivals;
    assert Frames(start, arrivals).1 + Burst(at, 0) == Frames(start, arrivals).1;
  }

  /** A burst the current window has room for. */
  lemma {:induction false} BurstFits(start: int, arrivals: seq<int>, at: int, n: nat)
    requires var w := Frames(start, arrivals).0;
             at < w.start + FRAME_WINDOW_MS && w.frames + n <= MAX_FRAMES_PER_WINDOW
    ensures var w := Frames(start, arrivals).0; Took(start, arrivals, at, n, w.(frames := w.frames + n))
  {
    if n == 0 {
      TookNone(start, arrivals, at);
    } else {
      var w := Frames(start, arrivals).0;
      BurstFits(start, arrivals, at, n - 1);
      TakesOneMore(start, arrivals, at, n, w.(frames := w.frames + n - 1));
    }
  }

  /** A burst that opens a window of its own. */
  lemma {:induction false} BurstOpens(start: int, arrivals: seq<int>, at: int, n: nat)
    requires at >= Frames(start, arrivals).0.start + FRAME_WINDOW_MS && 0 < n <= MAX_FRAMES_PER_WINDOW
    ensures Took(start, arrivals, at, n, FrameWindow(at, n))
  {
    if n == 1 {
      TookNone(start, arrivals, at);
      TakesOneMore(start, arrivals, at, 1, Frames(start, arrivals).0);
    } else {
      BurstOpens(start, arrivals, at, n - 1);
      TakesOneMore(start, arrivals, at, n, FrameWindow(at, n - 1));
    }
  }

  lemma {:induction false} BurstInSecond(accepted: seq<int>, from: int, at: int, n: nat)
    ensures InSecond(accepted + Burst(at, n), from)
            == InSecond(accepted, from) + if from <= at < from + FRAME_WINDOW_MS then n else 0
  {
    if n == 0 {
      assert accepted + Burst(at, n) == accepted;
    } else {
      BurstInSecond(accepted, from, at, n - 1);
      WithinAppend(accepted + Burst(at, n - 1), at, from - 1, from - 1 + FRAME_WINDOW_MS);
      BurstGrows(accepted, at, n);
    }
  }

  /** Arrivals that fill a second: one full window before a boundary inside it and one behind. */
  function Fullest(start: int, from: int): seq<int> {
    if from + FRAME_WINDOW_MS <= start then []
    else if from <= start then Burst(start, MAX_FRAMES_PER_WINDOW)
    else if from < start + FRAME_WINDOW_MS then
      Burst(start + FRAME_WINDOW_MS - 1, MAX_FRAMES_PER_WINDOW) + Burst(start + FRAME_WINDOW_MS, MAX_FRAMES_PER_WINDOW)
    else if from == start + FRAME_WINDOW_MS then Burst(from, MAX_FRAMES_PER_WINDOW)
    else Burst(from - 1, 1) + Burst(from, MAX_FRAMES_PER_WINDOW - 1)
         + Burst(from - 1 + FRAME_WINDOW_MS, MAX_FRAMES_PER_WINDOW)
  }

  lemma FullestInOrder(start: int, from: int)
    ensures InOrder(start, Fullest(start, from))
  {
  }

  lemma FirstBurst(start: int, from: int, at: int, n: nat)
    requires start <= at && n <= MAX_FRAMES_PER_WINDOW && (at >= start + FRAME_WINDOW_MS ==> n > 0)
    ensures var w := if at < start + FRAME_WINDOW_MS then FrameWindow(start, n) else FrameWindow(at, n);
            Frames(start, Burst(at, n)) == (w, Burst(at, n))
    ensures InSecond(Burst(at, n), from) == if from <= at < from + FRAME_WINDOW_MS then n else 0
  {
    assert [] + Burst(at, n) == Burst(at, n);
    BurstInSecond([], from, at, n);
    if at < start + FRAME_WINDOW_MS {
      BurstFits(start, [], at, n);
    } else {
      BurstOpens(start, [], at, n);
    }
  }

  /** They are all accepted. */
  lemma FullestIsMost(start: int, from: int)
    ensures InSecond(Frames(start, Fullest(start, from)).1, from) == Most(start, from)
  {
    if from + FRAME_WINDOW_MS <= start {
    } else if from <= start {
      FirstBurst(start, from, start, MAX_FRAMES_PER_WINDOW);
    } else if from < start + FRAME_WINDOW_MS {
      var edge := start + FRAME_WINDOW_MS;
      var first := Burst(edge - 1, MAX_FRAMES_PER_WINDOW);
      FirstBurst(start, from, edge - 1, MAX_FRAMES_PER_WINDOW);
      BurstOpens(start, first, edge, MAX_FRAMES_PER_WINDOW);
      BurstInSecond(first, from, edge, MAX_FRAMES_PER_WINDOW);
    } else if from == start + FRAME_WINDOW_MS {
      FirstBurst(start, from, from, MAX_FRAMES_PER_WINDOW);
    } else {
      LateSecond(start, from);
    }
  }

  /** A second after the first window is over: the frame that opens a window just before it is the only one lost. */
  lemma LateSecond(start: int, from: int)
    requires from > start + FRAME_WINDOW_MS
    ensures InSecond(Frames(start, Fullest(start, from)).1, from) == 2 * MAX_FRAMES_PER_WINDOW - 1
  {
    var edge := from - 1 + FRAME_WINDOW_MS;
    var opens, first := Burst(from - 1, 1), Burst(from, MAX_FRAMES_PER_WINDOW - 1);
    FirstBurst(start, from, from - 1, 1);
    BurstFits(start, opens, from, MAX_FRAMES_PER_WINDOW - 1);
    BurstInSecond(opens, from, from, MAX_FRAMES_PER_WINDOW - 1);
    BurstOpens(start, opens + first, edge, MAX_FRAMES_PER_WINDOW);
    BurstInSecond(opens + first, from, edge, MAX_FRAMES_PER_WINDOW);
  }

  /** The exact bound on every second, for every session: no more than `most` frames are accepted in it, however frames
      arrive, if and only if `most` is at least one hundred and twenty for a second that begins inside the session's
      first window, one hundred and nineteen for one that begins after it, and sixty for one that begins with either. */
  lemma SecondIsBoundedIff(start: int, from: int, most: nat)
    ensures (forall arrivals | InOrder(start, arrivals) :: InSecond(Frames(start, arrivals).1, from) <= most)
            <==> Most(start, from) <= most
  {
    FullestInOrder(start, from);
    FullestIsMost(start, from);
    forall arrivals | InOrder(start, arrivals)
      ensures InSecond(Frames(start, arrivals).1, from) <= Most(start, from)
    {
      AtMostMost(start, from, arrivals);
    }
  }

  /** So the cap of sixty a second holds for a second if and only if it begins with the session or before it, or one
      second after. */
  lemma SixtyPerSecondIff(start: int, from: int)
    ensures (forall arrivals | InOrder(start, arrivals) ::
               InSecond(Frames(start, arrivals).1, from) <= MAX_FRAMES_PER_WINDOW)
            <==> from <= start || from == start + FRAME_WINDOW_MS
  {
    SecondIsBoundedIff(start, from, MAX_FRAMES_PER_WINDOW);
  }
}
