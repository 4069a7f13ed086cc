/** Line breaking at the strongest boundary in the back part of a line. */
module LineBreak {
  import opened Text

  datatype Candidate = Candidate(index: nat, score: real, width: nat)

  predicate Ends(word: string, marks: string) {
    word != "" && word[|word| - 1] in marks
  }

  const SENTENCE_MARKS := ".!?\U{2026}"
  const CLOSING_MARKS := "\"'\U{00BB})]"

  predicate SentenceEnd(word: string) {
    || Ends(word, SENTENCE_MARKS)
    || (Ends(word, CLOSING_MARKS) && Ends(word[..|word| - 1], SENTENCE_MARKS))
  }

  predicate Digits(s: string) {
    s != "" && forall c | c in s :: IsDigit(c)
  }

  predicate Numeric(word: string) {
    || Digits(word)
    || exists i | 0 < i < |word| :: word[i] in ".," && Digits(word[..i]) && Digits(word[i + 1..])
  }

  /** The rank of a break behind word `i`, zero for no reason to break there; `leading` marks words that belong to the
      next line. */
  function BoundaryScore(words: seq<string>, i: nat, leading: string -> bool): real
    requires i < |words|
  {
    if i + 1 == |words| then 5.0
    else if Numeric(words[i]) then 0.0
    else if SentenceEnd(words[i]) then 4.0
    else if Ends(words[i], ":;") then 3.0
    else if Ends(words[i], ",") then 2.0
    else if leading(words[i + 1]) then 1.0
    else 0.5
  }

  /* What a break is */

  function Width(words: seq<string>, from: nat, to: nat): nat
    requires from <= to <= |words|
  {
    |Join(words[from..to])|
  }

  predicate Fits(words: seq<string>, from: nat, maxChars: int, to: nat) {
    from < to <= |words| && Width(words, from, to) <= maxChars
  }

  /** A break in the last 40% of the line that separates nothing belonging together. */
  predicate Usable(words: seq<string>, from: nat, maxChars: int, leading: string -> bool, to: nat) {
    && Fits(words, from, maxChars, to)
    && 5 * Width(words, from, to) >= 3 * maxChars
    && BoundaryScore(words, to - 1, leading) > 0.0
  }

  predicate NoWorse(words: seq<string>, from: nat, leading: string -> bool, a: nat, b: nat)
    requires from < a <= |words| && from < b <= |words|
  {
    var sa, sb := BoundaryScore(words, a - 1, leading), BoundaryScore(words, b - 1, leading);
    sa > sb || (sa == sb && Width(words, from, a) >= Width(words, from, b))
  }

  /** The break a line starting at word `from` must take. */
  ghost predicate IsBreak(words: seq<string>, from: nat, maxChars: int, leading: string -> bool, take: nat) {
    if !Fits(words, from, maxChars, from + 1) then
      take == from + 1 <= |words|
    else if forall k: nat :: !Usable(words, from, maxChars, leading, k) then
      Fits(words, from, maxChars, take) && !Fits(words, from, maxChars, take + 1)
    else
      && Usable(words, from, maxChars, leading, take)
      && forall k: nat | Usable(words, from, maxChars, leading, k) :: NoWorse(words, from, leading, take, k)
  }

  lemma WidthStep(words: seq<string>, from: nat, to: nat)
    requires AreWords(words) && from <= to < |words|
    ensures Width(words, from, to + 1)
         == if to == from then |words[to]| else Width(words, from, to) + 1 + |words[to]|
    ensures Width(words, from, to) == 0 <==> to == from
  {
    var line := words[from..to];
    assert words[from..to + 1] == line + [words[to]];
    if to > from {
      JoinAppend(line, words[to]);
      assert line[0] == words[from] && words[from] in words;
      JoinPrefix(line, 1);
      assert line[..1] == [line[0]];
    }
  }

  lemma {:induction false} WidthMonotone(words: seq<string>, from: nat, a: nat, b: nat)
    requires AreWords(words) && from <= a <= b <= |words|
    ensures Width(words, from, a) <= Width(words, from, b)
    ensures a < b ==> Width(words, from, a) < Width(words, from, b)
    decreases b
  {
    if a < b {
      WidthMonotone(words, from, a, b - 1);
      assert words[b - 1] in words;
      WidthStep(words, from, b - 1);
    }
  }

  predicate UsableCandidate(c: Candidate, maxChars: int) {
    5 * c.width >= 3 * maxChars && c.score > 0.0
  }

  /** A better rank, or the same rank and more text on the line. */
  predicate Beats(a: Candidate, b: Candidate) {
    a.score > b.score || (a.score == b.score && a.width > b.width)
  }

  method BestUsable(candidates: seq<Candidate>, maxChars: int) returns (best: Option<Candidate>)
    ensures best.None? <==> forall c | c in candidates :: !UsableCandidate(c, maxChars)
    ensures best.Some? ==> IsBest(candidates, maxChars, best.value)
  {
    best := None;
    for i := 0 to |candidates|
      invariant best.None? <==> forall c | c in candidates[..i] :: !UsableCandidate(c, maxChars)
      invariant best.Some? ==> IsBest(candidates[..i], maxChars, best.value)
    {
      var candidate := candidates[i];
      assert candidates[..i + 1] == candidates[..i] + [candidate];
      if UsableCandidate(candidate, maxChars) {
        if best.None? || Beats(candidate, best.value) {
          best := Some(candidate);
        }
      }
    }
    assert candidates[..|candidates|] == candidates;
  }

  /** The candidates of a line are exactly its fitting breaks. */
  ghost predicate AreCandidates(words: seq<string>, from: nat, maxChars: int, leading: string -> bool,
                                candidates: seq<Candidate>)
  {
    && from + |candidates| <= |words|
    && (forall c | 0 <= c < |candidates| :: candidates[c] == CandidateAt(words, from, leading, from + c + 1))
    && (forall k: nat :: Fits(words, from, maxChars, k) <==> from < k <= from + |candidates|)
  }

  function CandidateAt(words: seq<string>, from: nat, leading: string -> bool, to: nat): Candidate
    requires from < to <= |words|
  {
    Candidate(to, BoundaryScore(words, to - 1, leading), Width(words, from, to))
  }

  method CollectCandidates(words: seq<string>, from: nat, maxChars: int, leading: string -> bool)
    returns (lastFitting: nat, candidates: seq<Candidate>)
    requires AreWords(words) && from < |words|
    ensures lastFitting == from + |candidates|
    ensures AreCandidates(words, from, maxChars, leading, candidates)
  {
    var width := 0;
    lastFitting := from;
    candidates := [];
    var i := from;
    while i < |words|
      invariant from <= i <= |words| && lastFitting == i && |candidates| == i - from
      invariant width == Width(words, from, i) && (i > from ==> width <= maxChars)
      invariant forall c | 0 <= c < |candidates| :: candidates[c] == CandidateAt(words, from, leading, from + c + 1)
    {
      var next := if width == 0 then |words[i]| else width + 1 + |words[i]|;
      WidthStep(words, from, i);
      if next > maxChars {
        break;
      }
      width := next;
      lastFitting := i + 1;
      candidates := candidates + [Candidate(i + 1, BoundaryScore(words, i, leading), width)];
      i := i + 1;
    }
    ExactlyThese(words, from, maxChars, lastFitting);
  }

  lemma ExactlyThese(words: seq<string>, from: nat, maxChars: int, last: nat)
    requires AreWords(words) && from <= last <= |words|
    requires last > from ==> Width(words, from, last) <= maxChars
    requires last == |words| || Width(words, from, last + 1) > maxChars
    ensures forall k: nat :: Fits(words, from, maxChars, k) <==> from < k <= last
  {
    forall k: nat
      ensures Fits(words, from, maxChars, k) <==> from < k <= last
    {
      if last < k <= |words| {
        WidthMonotone(words, from, last + 1, k);
      } else if from < k <= last {
        WidthMonotone(words, from, k, last);
      }
    }
  }

  ghost predicate IsBest(candidates: seq<Candidate>, maxChars: int, best: Candidate) {
    && best in candidates && UsableCandidate(best, maxChars)
    && forall c | c in candidates && UsableCandidate(c, maxChars) :: !Beats(c, best)
  }

  lemma UsableIsCandidate(words: seq<string>, from: nat, maxChars: int, leading: string -> bool,
                          candidates: seq<Candidate>, k: nat)
    requires AreCandidates(words, from, maxChars, leading, candidates)
    ensures Usable(words, from, maxChars, leading, k) <==>
      && from < k <= from + |candidates|
      && UsableCandidate(candidates[k - from - 1], maxChars)
  {
    assert Fits(words, from, maxChars, k) <==> from < k <= from + |candidates|;
    if from < k <= from + |candidates| {
      assert candidates[k - from - 1] == CandidateAt(words, from, leading, k);
    }
  }

  lemma BestIsBreak(words: seq<string>, from: nat, maxChars: int, leading: string -> bool,
                    candidates: seq<Candidate>, best: Candidate)
    requires AreCandidates(words, from, maxChars, leading, candidates)
    requires IsBest(candidates, maxChars, best)
    ensures from < best.index <= |words| && IsBreak(words, from, maxChars, leading, best.index)
  {
    var b :| 0 <= b < |candidates| && candidates[b] == best;
    var take := from + b + 1;
    assert best == CandidateAt(words, from, leading, take);
    UsableIsCandidate(words, from, maxChars, leading, candidates, take);
    assert Fits(words, from, maxChars, from + 1);
    forall k: nat | Usable(words, from, maxChars, leading, k)
      ensures NoWorse(words, from, leading, take, k)
    {
      UsableIsCandidate(words, from, maxChars, leading, candidates, k);
      var other := candidates[k - from - 1];
      assert other in candidates && !Beats(other, best);
      UnbeatenIsNoWorse(words, from, leading, take, k);
    }
  }

  lemma UnbeatenIsNoWorse(words: seq<string>, from: nat, leading: string -> bool, a: nat, k: nat)
    requires from < a <= |words| && from < k <= |words|
    requires !Beats(CandidateAt(words, from, leading, k), CandidateAt(words, from, leading, a))
    ensures NoWorse(words, from, leading, a, k)
  {
  }

  lemma LastFittingIsBreak(words: seq<string>, from: nat, maxChars: int, leading: string -> bool,
                           candidates: seq<Candidate>)
    requires AreCandidates(words, from, maxChars, leading, candidates) && candidates != []
    requires forall c | c in candidates :: !UsableCandidate(c, maxChars)
    ensures IsBreak(words, from, maxChars, leading, from + |candidates|)
  {
    var take := from + |candidates|;
    assert Fits(words, from, maxChars, from + 1);
    assert Fits(words, from, maxChars, take) && !Fits(words, from, maxChars, take + 1);
    forall k: nat
      ensures !Usable(words, from, maxChars, leading, k)
    {
      UsableIsCandidate(words, from, maxChars, leading, candidates, k);
    }
  }

  /** How many words the next line takes. */
  method ChooseBreak(words: seq<string>, from: nat, maxChars: int, leading: string -> bool) returns (take: nat)
    requires AreWords(words) && from < |words|
    ensures from < take <= |words|
    ensures IsBreak(words, from, maxChars, leading, take)
  {
    var lastFitting, candidates := CollectCandidates(words, from, maxChars, leading);
    if lastFitting == from {
      assert !Fits(words, from, maxChars, from + 1);
      return from + 1;
    }
    var best := BestUsable(candidates, maxChars);
    if best.None? {
      LastFittingIsBreak(words, from, maxChars, leading, candidates);
      return lastFitting;
    }
    BestIsBreak(words, from, maxChars, leading, candidates, best.value);
    return best.value.index;
  }

  ghost predicate IsLine(words: seq<string>, maxChars: int, leading: string -> bool, line: string, from: nat, to: nat) {
    from < to <= |words| && line == Join(words[from..to]) && IsBreak(words, from, maxChars, leading, to)
  }

  /** `cuts` lays the words out: line `i` holds the words between two consecutive cuts. */
  ghost predicate Layout(words: seq<string>, maxChars: int, leading: string -> bool,
                         lines: seq<string>, overflow: string, cuts: seq<nat>)
  {
    && |cuts| == |lines| + 1 && cuts[0] == 0 && cuts[|lines|] <= |words|
    && (forall i | 0 <= i < |lines| :: IsLine(words, maxChars, leading, lines[i], cuts[i], cuts[i + 1]))
    && overflow == Join(words[cuts[|lines|]..])
  }

  method BreakIntoLines(text: string, maxChars: int, maxLines: int, leading: string -> bool)
    returns (lines: seq<string>, overflow: string, ghost cuts: seq<nat>)
    ensures Layout(Tokenize(Trim(text)), maxChars, leading, lines, overflow, cuts)
    ensures |lines| <= Max(0, maxLines)
    ensures overflow != "" ==> |lines| == Max(0, maxLines)
  {
    var words := Tokenize(Trim(text));
    if |words| == 0 {
      return [], "", [0];
    }
    lines, cuts := [], [0];
    var cursor := 0;
    while cursor < |words| && |lines| < maxLines
      invariant cursor <= |words| && |cuts| == |lines| + 1 && cuts[|lines|] == cursor
      invariant Layout(words, maxChars, leading, lines, Join(words[cursor..]), cuts)
      invariant |lines| <= Max(0, maxLines)
      decreases |words| - cursor
    {
      var take := ChooseBreak(words, cursor, maxChars, leading);
      lines := lines + [Join(words[cursor..take])];
      cuts := cuts + [take];
      cursor := take;
    }
    overflow := Join(words[cursor..]);
  }

  /* What a layout guarantees */

  function LineWords(lines: seq<string>): seq<string> {
    if lines == [] then [] else LineWords(lines[..|lines| - 1]) + Tokenize(lines[|lines| - 1])
  }

  /** All lines but the last are a layout whose overflow is the rest. */
  lemma LayoutFront(words: seq<string>, maxChars: int, leading: string -> bool,
                    lines: seq<string>, overflow: string, cuts: seq<nat>)
    requires Layout(words, maxChars, leading, lines, overflow, cuts) && lines != []
    ensures var n := |lines| - 1;
            && cuts[n] < cuts[n + 1] <= |words| && lines[n] == Join(words[cuts[n]..cuts[n + 1]])
            && Layout(words, maxChars, leading, lines[..n], Join(words[cuts[n]..]), cuts[..n + 1])
  {
    assert IsLine(words, maxChars, leading, lines[|lines| - 1], cuts[|lines| - 1], cuts[|lines|]);
  }

  lemma TokenizeSplit(words: seq<string>, from: nat, to: nat)
    requires AreWords(words) && from <= to <= |words|
    ensures Tokenize(Join(words[from..])) == words[from..]
    ensures words[from..] == Tokenize(Join(words[from..to])) + Tokenize(Join(words[to..]))
  {
    TokenizeJoin(words[from..]);
    TokenizeJoin(words[from..to]);
    TokenizeJoin(words[to..]);
  }

  /** Nothing is lost, repeated or reordered: the words of the lines, then those of the overflow, are the input. */
  lemma {:induction false} LayoutKeepsWords(words: seq<string>, maxChars: int, leading: string -> bool,
                                            lines: seq<string>, overflow: string, cuts: seq<nat>)
    requires AreWords(words) && Layout(words, maxChars, leading, lines, overflow, cuts)
    ensures LineWords(lines) + Tokenize(overflow) == words
    decreases |lines|
  {
    if lines == [] {
      TokenizeSplit(words, 0, 0);
      assert words[0..] == words;
    } else {
      var n := |lines| - 1;
      LayoutFront(words, maxChars, leading, lines, overflow, cuts);
      LayoutKeepsWords(words, maxChars, leading, lines[..n], Join(words[cuts[n]..]), cuts[..n + 1]);
      TokenizeSplit(words, cuts[n], cuts[n + 1]);
    }
  }

  /** The break of a line is determined: there is exactly one. */
  lemma BreakIsUnique(words: seq<string>, from: nat, maxChars: int, leading: string -> bool, a: nat, b: nat)
    requires AreWords(words) && from < |words|
    requires IsBreak(words, from, maxChars, leading, a) && IsBreak(words, from, maxChars, leading, b)
    ensures a == b
  {
    if Fits(words, from, maxChars, from + 1) {
      var lo, hi := Min(a, b), Max(a, b);
      WidthMonotone(words, from, lo, hi);
      if lo < hi {
        WidthMonotone(words, from, lo + 1, hi);
      }
    }
  }

  /** A line is too wide only when it is a single word. */
  lemma LineFits(words: seq<string>, from: nat, maxChars: int, leading: string -> bool, take: nat)
    requires IsBreak(words, from, maxChars, leading, take)
    ensures Width(words, from, take) <= maxChars || take == from + 1
  {
  }

  /** A line of several words ends on a number that is not the last word only when every break in the last
      40% of the line would. */
  lemma NumberKeptWithUnit(words: seq<string>, from: nat, maxChars: int, leading: string -> bool, take: nat)
    requires IsBreak(words, from, maxChars, leading, take)
    requires take > from + 1 && take < |words| && Numeric(words[take - 1])
    ensures forall k: nat | Fits(words, from, maxChars, k) && 5 * Width(words, from, k) >= 3 * maxChars ::
              k < |words| && Numeric(words[k - 1])
  {
    forall k: nat | Fits(words, from, maxChars, k) && 5 * Width(words, from, k) >= 3 * maxChars
      ensures k < |words| && Numeric(words[k - 1])
    {
      assert !Usable(words, from, maxChars, leading, take);
      assert !Usable(words, from, maxChars, leading, k);
    }
  }
}
