/** The stability window: which leading tokens of a live hypothesis may be shown as final. */
module Stability {
  import opened Text

  /** `s.slice(start)`: a negative start counts from the end. */
  function SliceFrom<T>(s: seq<T>, start: int): seq<T> {
    s[if start >= 0 then Min(start, |s|) else Max(0, |s| + start)..]
  }

  /** Length of the longest common prefix. */
  function CommonPrefix(a: seq<string>, b: seq<string>): (n: nat)
    ensures n <= |a| && n <= |b|
    ensures a[..n] == b[..n]
    ensures n < |a| && n < |b| ==> a[n] != b[n]
  {
    if a != [] && b != [] && a[0] == b[0] then
      var n := CommonPrefix(a[1..], b[1..]);
      assert a[..n + 1] == [a[0]] + a[1..][..n] && b[..n + 1] == [b[0]] + b[1..][..n];
      n + 1
    else 0
  }

  /** Tokens of `current` on which every hypothesis of the window agrees. */
  function AgreedTokens(current: seq<string>, window: seq<seq<string>>): (n: nat)
    ensures n <= |current|
  {
    if window == [] then |current|
    else Min(AgreedTokens(current, window[..|window| - 1]), CommonPrefix(current, window[|window| - 1]))
  }

  function StableTokens(history: seq<seq<string>>, frames: int, volatileTail: int): nat {
    if history == [] || |history| < frames then 0
    else
      var current := history[|history| - 1];
      Max(0, Min(AgreedTokens(current, SliceFrom(history, -frames)), |current| - volatileTail))
  }

  function TotalLength(tokens: seq<string>): nat {
    if tokens == [] then 0 else TotalLength(tokens[..|tokens| - 1]) + |tokens[|tokens| - 1]|
  }

  function StableChars(tokens: seq<string>, stableTokens: int): nat {
    if stableTokens <= 0 then 0
    else
      var n := Min(stableTokens, |tokens|);
      TotalLength(tokens[..n]) + Max(0, n - 1)
  }

  method StablePrefixTokens(history: seq<seq<string>>, frames: int, volatileTail: int) returns (stable: nat)
    ensures stable == StableTokens(history, frames, volatileTail)
  {
    if |history| == 0 {
      return 0;
    }
    var current := history[|history| - 1];
    if |history| < frames {
      return 0;
    }
    var window := SliceFrom(history, -frames);
    var common := |current|;
    var w := 0;
    while w < |window|
      invariant w <= |window| && common <= |current|
      invariant common == AgreedTokens(current, window[..w])
    {
      var hypothesis := window[w];
      var i := 0;
      while i < common && i < |hypothesis| && hypothesis[i] == current[i]
        invariant i <= common && i <= |hypothesis|
        invariant current[..i] == hypothesis[..i]
      {
        i := i + 1;
      }
      MatchedLength(current, hypothesis, common, i);
      assert window[..w + 1][..w] == window[..w];
      common := i;
      w := w + 1;
      if common == 0 {
        NothingAgreed(current, window, w);
        break;
      }
    }
    assert window[..|window|] == window;
    return Max(0, Min(common, |current| - volatileTail));
  }

  lemma MatchedLength(current: seq<string>, hypothesis: seq<string>, common: nat, i: nat)
    requires i <= common <= |current| && i <= |hypothesis|
    requires current[..i] == hypothesis[..i]
    requires i == common || i == |hypothesis| || hypothesis[i] != current[i]
    ensures i == Min(common, CommonPrefix(current, hypothesis))
  {
    var n := CommonPrefix(current, hypothesis);
    assert forall k | 0 <= k < i :: current[k] == current[..i][k] == hypothesis[..i][k];
    assert forall k | 0 <= k < n :: current[k] == current[..n][k] == hypothesis[..n][k];
  }

  lemma {:induction false} NothingAgreed(current: seq<string>, window: seq<seq<string>>, w: nat)
    requires w <= |window| && AgreedTokens(current, window[..w]) == 0
    ensures AgreedTokens(current, window) == 0
    decreases |window|
  {
    if w == |window| {
      assert window[..w] == window;
    } else {
      assert window[..|window| - 1][..w] == window[..w];
      NothingAgreed(current, window[..|window| - 1], w);
    }
  }

  method StablePrefixChars(tokens: seq<string>, stableTokens: int) returns (chars: nat)
    ensures chars == StableChars(tokens, stableTokens)
  {
    if stableTokens <= 0 {
      return 0;
    }
    var n := Min(stableTokens, |tokens|);
    chars := 0;
    for i := 0 to n
      invariant chars == TotalLength(tokens[..i])
    {
      assert tokens[..i + 1][..i] == tokens[..i];
      chars := chars + |tokens[i]|;
    }
    chars := chars + Max(0, n - 1);
  }

  /** Remembers, for the last partials, which of them changed a word that was already shown. */
  class RewriteTracker {
    var window: seq<bool>
    const capacity: nat

    constructor (capacity: nat := 20)
      ensures window == [] && this.capacity == capacity
    {
      this.window := [];
      this.capacity := capacity;
    }

    method Record(previous: seq<string>, next: seq<string>)
      requires |window| <= capacity
      modifies this
      ensures window == Recorded(old(window), capacity, previous, next)
      ensures |window| <= capacity
    {
      var compare := Min(|previous|, |next|);
      var rewrote := false;
      var i := 0;
      while i < compare
        invariant 0 <= i <= compare
        invariant previous[..i] == next[..i]
        invariant !rewrote
      {
        if previous[i] != next[i] {
          rewrote := true;
          break;
        }
        i := i + 1;
      }
      assert rewrote <==> previous[..compare] != next[..compare] by {
        if rewrote {
          assert previous[..compare][i] != next[..compare][i];
        }
      }
      window := window + [rewrote];
      if |window| > capacity {
        window := window[1..];
      }
    }

    method Rate() returns (rate: real)
      ensures rate == RewriteRate(window)
    {
      if |window| == 0 {
        return 0.0;
      }
      var rewrites := 0;
      for i := 0 to |window|
        invariant rewrites == |Rewrites(window[..i])|
      {
        assert window[..i + 1][..i] == window[..i];
        if window[i] {
          rewrites := rewrites + 1;
        }
      }
      assert window[..|window|] == window;
      return rewrites as real / |window| as real;
    }

    method Reset()
      modifies this
      ensures window == []
    {
      window := [];
    }
  }

  predicate Rewrote(previous: seq<string>, next: seq<string>) {
    var compare := Min(|previous|, |next|);
    previous[..compare] != next[..compare]
  }

  function Recorded(window: seq<bool>, capacity: nat, previous: seq<string>, next: seq<string>): seq<bool> {
    var longer := window + [Rewrote(previous, next)];
    if |longer| > capacity then longer[1..] else longer
  }

  function Rewrites(window: seq<bool>): seq<bool> {
    if window == [] then []
    else
      var rest := Rewrites(window[..|window| - 1]);
      if window[|window| - 1] then rest + [true] else rest
  }

  function RewriteRate(window: seq<bool>): real {
    if window == [] then 0.0 else |Rewrites(window)| as real / |window| as real
  }

  function AdaptiveFrames(base: int, rewriteRate: real, threshold: real): int {
    if rewriteRate > threshold then base + 1 else base
  }

  /* What the window guarantees */

  predicate AgreedOn(current: seq<string>, window: seq<seq<string>>, n: nat)
    requires n <= |current|
  {
    forall k | 0 <= k < |window| :: current[..n] <= window[k]
  }

  lemma {:induction false} AgreedTokensIsGreatest(current: seq<string>, window: seq<seq<string>>, m: nat)
    requires m <= |current|
    ensures AgreedOn(current, window, m) <==> m <= AgreedTokens(current, window)
    decreases |window|
  {
    if window != [] {
      var front, last := window[..|window| - 1], window[|window| - 1];
      AgreedTokensIsGreatest(current, front, m);
      var n := CommonPrefix(current, last);
      assert window == front + [last];
      assert forall k | 0 <= k < |front| :: front[k] == window[k];
      assert AgreedOn(current, window, m) <==> AgreedOn(current, front, m) && current[..m] <= last;
      assert forall k | 0 <= k < n :: current[k] == current[..n][k] == last[..n][k];
      if current[..m] <= last {
        assert forall k | 0 <= k < m :: current[k] == current[..m][k] == last[k];
      }
    }
  }

  /** Over the last `frames` hypotheses, a count of leading tokens is at most the stable count exactly
      when all of them agree on it and it stays clear of the volatile tail. */
  lemma StableTokensMeaning(history: seq<seq<string>>, frames: int, volatileTail: int, m: nat)
    requires 0 < m && 0 < frames <= |history|
    ensures var current := history[|history| - 1];
            m <= StableTokens(history, frames, volatileTail) <==>
            && m <= |current|
            && m <= |current| - volatileTail
            && (forall k | |history| - frames <= k < |history| :: current[..m] <= history[k])
  {
    var current := history[|history| - 1];
    var window := SliceFrom(history, -frames);
    if m <= |current| {
      AgreedTokensIsGreatest(current, window, m);
      assert forall k | |history| - frames <= k < |history| :: history[k] == window[k - (|history| - frames)];
      assert forall k | 0 <= k < |window| :: window[k] == history[|history| - frames + k];
    }
  }

  lemma {:induction false} JoinLength(tokens: seq<string>)
    requires tokens != []
    ensures |Join(tokens)| == TotalLength(tokens) + |tokens| - 1
    decreases |tokens|
  {
    var last := |tokens| - 1;
    if last == 0 {
      assert tokens[..0] == [];
    } else {
      JoinLength(tokens[..last]);
      JoinAppend(tokens[..last], tokens[last]);
      assert tokens == tokens[..last] + [tokens[last]];
    }
  }

  /** The character count cuts the joined text exactly after the stable tokens. */
  lemma StableCharsCut(tokens: seq<string>, n: nat)
    requires n <= |tokens|
    ensures StableChars(tokens, n) <= |Join(tokens)|
    ensures Join(tokens)[..StableChars(tokens, n)] == Join(tokens[..n])
  {
    JoinPrefix(tokens, n);
    if n > 0 {
      JoinLength(tokens[..n]);
    }
    assert |Join(tokens[..n])| == StableChars(tokens, n);
  }
}
