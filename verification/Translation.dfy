/** Translation scheduling: when to speculate, the context window, and the LRU cache. */
module Translation {
  import opened Text

  /** `lastRequestAtMs` is absent before the first request, where the source holds minus infinity. */
  datatype Speculation = Speculation(lastTranslatedChars: int, lastRequestAtMs: Option<int>)

  predicate ShouldTranslate(state: Speculation, stableChars: int, nowMs: int, growthChars: int, minIntervalMs: int) {
    && stableChars - state.lastTranslatedChars >= growthChars
    && (state.lastRequestAtMs.None? || nowMs - state.lastRequestAtMs.value >= minIntervalMs)
  }

  /* Rolling context */

  function LastN<T>(s: seq<T>, n: nat): (r: seq<T>)
    ensures |r| == Min(n, |s|)
  {
    s[Max(0, |s| - n)..]
  }

  function Pushed(sentences: seq<string>, size: nat, sentence: string): seq<string> {
    if Trim(sentence) == "" then sentences else LastN(sentences + [Trim(sentence)], size)
  }

  class ContextWindow {
    var sentences: seq<string>
    const size: nat

    constructor (size: nat)
      ensures sentences == [] && this.size == size
    {
      this.sentences := [];
      this.size := size;
    }

    method Push(sentence: string)
      modifies this
      ensures sentences == Pushed(old(sentences), size, sentence)
    {
      var trimmed := Trim(sentence);
      if trimmed == "" {
        return;
      }
      sentences := sentences + [trimmed];
      ghost var all := sentences;
      ghost var dropped := 0;
      while |sentences| > size
        invariant 0 <= dropped <= Max(0, |all| - size) && sentences == all[dropped..]
        decreases |sentences|
      {
        sentences := sentences[1..];
        dropped := dropped + 1;
      }
    }
  }

  /* LRU cache. A JavaScript map iterates in insertion order: the first entry is the oldest. */

  datatype Entry = Entry(key: string, value: string)

  function Lookup(entries: seq<Entry>, key: string): Option<string> {
    if entries == [] then None
    else if entries[0].key == key then Some(entries[0].value)
    else Lookup(entries[1..], key)
  }

  function Without(entries: seq<Entry>, key: string): (r: seq<Entry>)
    ensures |r| <= |entries|
  {
    if entries == [] then []
    else if entries[0].key == key then Without(entries[1..], key)
    else [entries[0]] + Without(entries[1..], key)
  }

  function AfterGet(entries: seq<Entry>, key: string): seq<Entry> {
    match Lookup(entries, key)
    case None => entries
    case Some(value) => Without(entries, key) + [Entry(key, value)]
  }

  function AfterSet(entries: seq<Entry>, capacity: nat, key: string, value: string): seq<Entry> {
    var longer := Without(entries, key) + [Entry(key, value)];
    if |longer| > capacity then longer[1..] else longer
  }

  class TranslationCache {
    var entries: seq<Entry>
    var hits: nat
    var misses: nat
    const capacity: nat

    constructor (capacity: nat := 1000)
      ensures entries == [] && hits == misses == 0 && this.capacity == capacity
    {
      this.entries, this.hits, this.misses := [], 0, 0;
      this.capacity := capacity;
    }

    method Get(key: string) returns (value: Option<string>)
      modifies this
      ensures value == Lookup(old(entries), key)
      ensures entries == AfterGet(old(entries), key)
      ensures hits == old(hits) + (if value.Some? then 1 else 0)
      ensures misses == old(misses) + (if value.None? then 1 else 0)
    {
      value := Lookup(entries, key);
      if value.None? {
        misses := misses + 1;
        return;
      }
      entries := Without(entries, key);
      entries := entries + [Entry(key, value.value)];
      hits := hits + 1;
    }

    method Set(key: string, value: string)
      modifies this`entries
      ensures entries == AfterSet(old(entries), capacity, key, value)
    {
      if Lookup(entries, key).Some? {
        entries := Without(entries, key);
      } else {
        WithoutAbsent(entries, key);
      }
      entries := entries + [Entry(key, value)];
      if |entries| > capacity {
        entries := entries[1..];
      }
    }
  }

  datatype CacheOp = Get(key: string) | Set(key: string, value: string)

  function Apply(entries: seq<Entry>, capacity: nat, op: CacheOp): seq<Entry> {
    match op
    case Get(key) => AfterGet(entries, key)
    case Set(key, value) => AfterSet(entries, capacity, key, value)
  }

  /** The cache after a run of operations on an empty one. */
  function Contents(capacity: nat, ops: seq<CacheOp>): seq<Entry> {
    if ops == [] then []
    else Apply(Contents(capacity, ops[..|ops| - 1]), capacity, ops[|ops| - 1])
  }

  /** The value most recently set for a key. */
  function LastSet(ops: seq<CacheOp>, key: string): Option<string> {
    if ops == [] then None
    else
      var last := ops[|ops| - 1];
      if last.Set? && last.key == key then Some(last.value) else LastSet(ops[..|ops| - 1], key)
  }

  function Hits(capacity: nat, ops: seq<CacheOp>): nat {
    if ops == [] then 0
    else
      var before, last := ops[..|ops| - 1], ops[|ops| - 1];
      Hits(capacity, before) + (if last.Get? && Lookup(Contents(capacity, before), last.key).Some? then 1 else 0)
  }

  /* Lookups through the elementary operations */

  lemma {:induction false} WithoutAbsent(entries: seq<Entry>, key: string)
    requires Lookup(entries, key).None?
    ensures Without(entries, key) == entries
  {
    if entries != [] {
      WithoutAbsent(entries[1..], key);
    }
  }

  lemma {:induction false} LookupWithout(entries: seq<Entry>, key: string, other: string)
    ensures Lookup(Without(entries, key), other) == if other == key then None else Lookup(entries, other)
  {
    if entries != [] {
      LookupWithout(entries[1..], key, other);
      assert Without(entries, key) == Without(entries[1..], key)
          || Without(entries, key)[1..] == Without(entries[1..], key);
    }
  }

  lemma {:induction false} LookupAppend(entries: seq<Entry>, e: Entry, key: string)
    ensures Lookup(entries + [e], key)
         == match Lookup(entries, key) case Some(v) => Some(v) case None => if e.key == key then Some(e.value) else None
  {
    if entries == [] {
      assert entries + [e] == [e];
    } else {
      LookupAppend(entries[1..], e, key);
      assert (entries + [e])[1..] == entries[1..] + [e];
    }
  }

  lemma LookupMoved(entries: seq<Entry>, e: Entry, key: string)
    ensures Lookup(Without(entries, e.key) + [e], key) == if key == e.key then Some(e.value) else Lookup(entries, key)
  {
    LookupWithout(entries, e.key, key);
    LookupAppend(Without(entries, e.key), e, key);
  }

  /** No two entries share a key. */
  predicate UniqueKeys(entries: seq<Entry>) {
    entries == [] || (Lookup(entries[1..], entries[0].key).None? && UniqueKeys(entries[1..]))
  }

  lemma {:induction false} UniqueAfterMove(entries: seq<Entry>, e: Entry)
    requires UniqueKeys(entries)
    ensures UniqueKeys(Without(entries, e.key) + [e])
  {
    var moved := Without(entries, e.key) + [e];
    if entries == [] {
      assert moved == [e];
    } else {
      UniqueAfterMove(entries[1..], e);
      if entries[0].key != e.key {
        assert moved[1..] == Without(entries[1..], e.key) + [e];
        LookupMoved(entries[1..], e, entries[0].key);
      }
    }
  }

  lemma {:induction false} SizeAfterMove(entries: seq<Entry>, e: Entry)
    requires UniqueKeys(entries)
    ensures |Without(entries, e.key)| == |entries| - (if Lookup(entries, e.key).Some? then 1 else 0)
  {
    if entries != [] {
      SizeAfterMove(entries[1..], e);
      if entries[0].key == e.key {
        WithoutAbsent(entries[1..], e.key);
      }
    }
  }

  lemma {:induction false} ContentsUnique(capacity: nat, ops: seq<CacheOp>)
    ensures UniqueKeys(Contents(capacity, ops))
    ensures |Contents(capacity, ops)| <= capacity
    decreases |ops|
  {
    if ops != [] {
      var before, op := ops[..|ops| - 1], ops[|ops| - 1];
      ContentsUnique(capacity, before);
      var entries := Contents(capacity, before);
      var value := if op.Set? then op.value else match Lookup(entries, op.key) case Some(v) => v case None => "";
      UniqueAfterMove(entries, Entry(op.key, value));
      SizeAfterMove(entries, Entry(op.key, value));
    }
  }

  /** Every hit returns the value last set for its key. */
  lemma {:induction false} HitIsLastSet(capacity: nat, ops: seq<CacheOp>, key: string)
    requires Lookup(Contents(capacity, ops), key).Some?
    ensures Lookup(Contents(capacity, ops), key) == LastSet(ops, key)
    decreases |ops|
  {
    var before, op := ops[..|ops| - 1], ops[|ops| - 1];
    var entries := Contents(capacity, before);
    ContentsUnique(capacity, before);
    match op {
      case Get(k) =>
        if Lookup(entries, k).Some? {
          LookupMoved(entries, Entry(k, Lookup(entries, k).value), key);
        }
      case Set(k, value) =>
        LookupMoved(entries, Entry(k, value), key);
        UniqueAfterMove(entries, Entry(k, value));
    }
    if key != op.key || op.Get? {
      HitIsLastSet(capacity, before, key);
    }
  }

  /* Inclusion between capacities */

  /** The entries of `a` occur in `b`, in the same order. */
  predicate Subsequence(a: seq<Entry>, b: seq<Entry>) {
    a == []
    || (b != [] && (if a[0] == b[0] then Subsequence(a[1..], b[1..]) else Subsequence(a, b[1..])))
  }

  lemma {:induction false} SubsequenceSkip(a: seq<Entry>, b: seq<Entry>)
    requires b != [] && Subsequence(a, b[1..])
    ensures Subsequence(a, b)
    decreases |b|, 0
  {
    if a != [] && a[0] == b[0] {
      SubsequenceTail(a, b[1..]);
    }
  }

  lemma {:induction false} SubsequenceTail(a: seq<Entry>, b: seq<Entry>)
    requires a != [] && Subsequence(a, b)
    ensures Subsequence(a[1..], b)
    decreases |b|, 1
  {
    if a[0] != b[0] {
      SubsequenceTail(a, b[1..]);
    }
    SubsequenceSkip(a[1..], b);
  }

  lemma SubsequenceTails(a: seq<Entry>, b: seq<Entry>)
    requires a != [] && Subsequence(a, b)
    ensures Subsequence(a[1..], b[1..])
  {
    if a[0] != b[0] {
      SubsequenceTail(a, b[1..]);
    }
  }

  lemma {:induction false} SubsequenceWithout(a: seq<Entry>, b: seq<Entry>, key: string)
    requires Subsequence(a, b)
    ensures Subsequence(Without(a, key), Without(b, key))
    decreases |b|
  {
    if a != [] {
      if a[0] == b[0] {
        SubsequenceWithout(a[1..], b[1..], key);
      } else {
        SubsequenceWithout(a, b[1..], key);
        if b[0].key != key {
          assert Without(b, key)[1..] == Without(b[1..], key);
          SubsequenceSkip(Without(a, key), Without(b, key));
        }
      }
    }
  }

  lemma {:induction false} SubsequenceAppend(a: seq<Entry>, b: seq<Entry>, e: Entry)
    requires Subsequence(a, b)
    ensures Subsequence(a + [e], b + [e])
    decreases |b|
  {
    if b == [] {
      assert a + [e] == b + [e];
    } else {
      assert (b + [e])[1..] == b[1..] + [e];
      if a != [] && a[0] == b[0] {
        assert (a + [e])[1..] == a[1..] + [e];
        SubsequenceAppend(a[1..], b[1..], e);
      } else {
        SubsequenceAppend(a, b[1..], e);
        SubsequenceSkip(a + [e], b + [e]);
      }
    }
  }

  lemma {:induction false} SubsequenceLookup(a: seq<Entry>, b: seq<Entry>, key: string)
    requires Subsequence(a, b) && UniqueKeys(b) && Lookup(a, key).Some?
    ensures Lookup(b, key) == Lookup(a, key)
    decreases |b|
  {
    if a[0] == b[0] {
      if a[0].key != key {
        SubsequenceLookup(a[1..], b[1..], key);
      }
    } else {
      SubsequenceLookup(a, b[1..], key);
    }
  }

  /** The smaller cache holds part of the larger one in the same order, and all of it until it first fills. */
  predicate Included(small: seq<Entry>, large: seq<Entry>, capacity: nat) {
    Subsequence(small, large) && (|small| < capacity ==> small == large)
  }

  lemma IncludedAfterGet(small: seq<Entry>, large: seq<Entry>, capacity: nat, key: string)
    requires Included(small, large, capacity) && UniqueKeys(small) && UniqueKeys(large)
    ensures Included(AfterGet(small, key), AfterGet(large, key), capacity)
  {
    SubsequenceWithout(small, large, key);
    match Lookup(small, key) {
      case Some(value) =>
        SubsequenceLookup(small, large, key);
        SubsequenceAppend(Without(small, key), Without(large, key), Entry(key, value));
        SizeAfterMove(small, Entry(key, value));
      case None =>
        WithoutAbsent(small, key);
        if Lookup(large, key).Some? {
          SubsequenceOfLonger(small, Without(large, key), Entry(key, Lookup(large, key).value));
        }
    }
  }

  lemma {:induction false} SubsequenceOfLonger(a: seq<Entry>, b: seq<Entry>, e: Entry)
    requires Subsequence(a, b)
    ensures Subsequence(a, b + [e])
    decreases |b|
  {
    if a != [] {
      assert (b + [e])[1..] == b[1..] + [e];
      if a[0] == b[0] {
        SubsequenceOfLonger(a[1..], b[1..], e);
      } else {
        SubsequenceOfLonger(a, b[1..], e);
      }
    }
  }

  lemma IncludedAfterSet(small: seq<Entry>, large: seq<Entry>, c: nat, d: nat, key: string, value: string)
    requires c <= d && |small| <= c && |large| <= d
    requires Included(small, large, c) && UniqueKeys(small) && UniqueKeys(large)
    ensures Included(AfterSet(small, c, key, value), AfterSet(large, d, key, value), c)
  {
    var e := Entry(key, value);
    var a, b := Without(small, key) + [e], Without(large, key) + [e];
    SubsequenceWithout(small, large, key);
    SubsequenceAppend(Without(small, key), Without(large, key), e);
    SizeAfterMove(small, e);
    SizeAfterMove(large, e);
    if Lookup(small, key).Some? {
      SubsequenceLookup(small, large, key);
    }
    if |a| > c {
      SubsequenceTail(a, b);
      SubsequenceTails(a, b);
    }
  }

  /** Extra capacity never loses an entry: a smaller cache is always part of a larger one. */
  lemma {:induction false} CapacityInclusion(c: nat, d: nat, ops: seq<CacheOp>)
    requires c <= d
    ensures Included(Contents(c, ops), Contents(d, ops), c)
    ensures forall key | Lookup(Contents(c, ops), key).Some? ::
              Lookup(Contents(d, ops), key) == Lookup(Contents(c, ops), key)
    decreases |ops|
  {
    if ops != [] {
      var before, op := ops[..|ops| - 1], ops[|ops| - 1];
      CapacityInclusion(c, d, before);
      ContentsUnique(c, before);
      ContentsUnique(d, before);
      match op {
        case Get(key) => IncludedAfterGet(Contents(c, before), Contents(d, before), c, key);
        case Set(key, value) => IncludedAfterSet(Contents(c, before), Contents(d, before), c, d, key, value);
      }
    }
    ContentsUnique(d, ops);
    forall key | Lookup(Contents(c, ops), key).Some?
      ensures Lookup(Contents(d, ops), key) == Lookup(Contents(c, ops), key)
    {
      SubsequenceLookup(Contents(c, ops), Contents(d, ops), key);
    }
  }

  /** Extra capacity never loses a hit. */
  lemma {:induction false} HitsMonotone(c: nat, d: nat, ops: seq<CacheOp>)
    requires c <= d
    ensures Hits(c, ops) <= Hits(d, ops)
    decreases |ops|
  {
    if ops != [] {
      var before := ops[..|ops| - 1];
      HitsMonotone(c, d, before);
      CapacityInclusion(c, d, before);
    }
  }
}
