/** Counting the occurrences of the query that end in the current line,
    where an occurrence may begin in the previous line of the same record. */
module MatchCount {

  /** The backward walk: compares `query[..wordIndex + 1]`, last character
      first, with the text ending at position `index` of `curr`; a negative
      position `index` stands for `prev[|prev| + index]`. Answers 1 for a
      full match and 0 otherwise. A position before the start of `prev` is
      a mismatch (the walk does not read outside the two lines). */
  function CharSearch(query: string, wordIndex: int, curr: string, prev: string, index: int): (r: int)
    requires -1 <= wordIndex < |query|
    requires index < |curr|
    ensures r == 0 || r == 1
    decreases wordIndex + 1
  {
    if wordIndex < 0 then 1
    else if index < 0 then
      if |prev| + index < 0 then 0
      else if prev[|prev| + index] == query[wordIndex] then
        CharSearch(query, wordIndex - 1, curr, prev, index - 1)
      else 0
    else if curr[index] == query[wordIndex] then
      CharSearch(query, wordIndex - 1, curr, prev, index - 1)
    else 0
  }

  /** `query` occurs in `s` with its last character at position `e`. */
  predicate EndsAt(query: string, s: string, e: int) {
    0 <= e < |s| && |query| <= e + 1 && s[e + 1 - |query|..e + 1] == query
  }

  /** Two sequences of equal length with one element appended are equal
      exactly when the sequences and the elements are. */
  lemma SnocEqual(x: string, a: char, y: string, b: char)
    requires |x| == |y|
    ensures x + [a] == y + [b] <==> x == y && a == b
  {
    if x + [a] == y + [b] {
      assert x == (x + [a])[..|x|] && y == (y + [b])[..|y|];
      assert a == (x + [a])[|x|] && b == (y + [b])[|y|];
    }
  }

  /** A slice is the slice one shorter followed by its last element. */
  lemma SliceSnoc(s: string, lo: int, hi: int)
    requires 0 <= lo < hi <= |s|
    ensures s[lo..hi] == s[lo..hi - 1] + [s[hi - 1]]
  {
  }

  /** The walk answers 1 exactly when the `wordIndex + 1` characters of
      `prev + curr` ending at position `|prev| + index` spell
      `query[..wordIndex + 1]`. */
  lemma {:induction false} CharSearchSpec(query: string, wordIndex: int, curr: string, prev: string, index: int)
    requires -1 <= wordIndex < |query|
    requires index < |curr|
    requires -1 <= |prev| + index
    ensures var s, pos := prev + curr, |prev| + index;
      CharSearch(query, wordIndex, curr, prev, index) == 1 <==>
        pos - wordIndex >= 0 && s[pos - wordIndex..pos + 1] == query[..wordIndex + 1]
    decreases wordIndex + 1
  {
    var s, pos := prev + curr, |prev| + index;
    if wordIndex >= 0 && pos >= 0 {
      var c := if index < 0 then prev[pos] else curr[index];
      assert s[pos] == c;
      CharSearchSpec(query, wordIndex - 1, curr, prev, index - 1);
      if pos - wordIndex >= 0 {
        SliceSnoc(s, pos - wordIndex, pos + 1);
        assert query[..wordIndex + 1] == query[..wordIndex] + [query[wordIndex]];
        SnocEqual(s[pos - wordIndex..pos], c, query[..wordIndex], query[wordIndex]);
      }
    }
  }

  /** A walk over the whole query answers 1 exactly when the query ends at
      that position of `prev + curr`. */
  lemma CharSearchEndsAt(query: string, curr: string, prev: string, index: int)
    requires |query| > 0
    requires -1 <= |prev| + index && index < |curr|
    ensures CharSearch(query, |query| - 1, curr, prev, index) == 1
      <==> EndsAt(query, prev + curr, |prev| + index)
  {
    CharSearchSpec(query, |query| - 1, curr, prev, index);
    assert query[..|query|] == query;
  }

  /** Number of end positions `e` with `lo <= e < hi` at which `query`
      occurs in `s`. */
  function CountEnding(query: string, s: string, lo: int, hi: int): nat
    requires 0 <= lo <= hi <= |s|
    decreases hi - lo
  {
    if hi == lo then 0
    else CountEnding(query, s, lo, hi - 1) + if EndsAt(query, s, hi - 1) then 1 else 0
  }

  /** The occurrences of `query` in `prev + curr` whose last character lies
      in `curr`. */
  function Occurrences(query: string, prev: string, curr: string): nat {
    CountEnding(query, prev + curr, |prev|, |prev| + |curr|)
  }

  /** No occurrence ends before position `|query| - 1`. */
  lemma {:induction false} NoEarlyEnd(query: string, s: string, lo: int, hi: int)
    requires 0 <= lo <= hi <= |s| && hi < |query|
    ensures CountEnding(query, s, lo, hi) == 0
    decreases hi - lo
  {
    if hi > lo {
      NoEarlyEnd(query, s, lo, hi - 1);
    }
  }

  /** Counts split at any middle position. */
  lemma {:induction false} CountEndingSplit(query: string, s: string, lo: int, mid: int, hi: int)
    requires 0 <= lo <= mid <= hi <= |s|
    ensures CountEnding(query, s, lo, hi) == CountEnding(query, s, lo, mid) + CountEnding(query, s, mid, hi)
    decreases hi - mid
  {
    if hi > mid {
      CountEndingSplit(query, s, lo, mid, hi - 1);
    }
  }

  /** Occurrences ending inside `a` do not see what follows `a`. */
  lemma {:induction false} CountEndingPrefix(query: string, a: string, b: string, hi: int)
    requires 0 <= hi <= |a|
    ensures CountEnding(query, a + b, 0, hi) == CountEnding(query, a, 0, hi)
    decreases hi
  {
    if hi > 0 {
      CountEndingPrefix(query, a, b, hi - 1);
      var e := hi - 1;
      if |query| <= e + 1 {
        assert (a + b)[e + 1 - |query|..e + 1] == a[e + 1 - |query|..e + 1];
      }
    }
  }

  /** Two consecutive lines of a record: the count for the first line (with
      no previous line) plus the count for the second (with the first as
      previous line) is the count in the joined text, so an occurrence that
      spans the line break is counted once and none twice. */
  lemma TwoLines(query: string, a: string, b: string)
    ensures Occurrences(query, "", a) + Occurrences(query, a, b) == Occurrences(query, "", a + b)
  {
    assert "" + a == a;
    assert "" + (a + b) == a + b;
    CountEndingPrefix(query, a, b, |a|);
    CountEndingSplit(query, a + b, 0, |a|, |a| + |b|);
  }

  /** One more candidate end: the walk's answer at position `i` of `curr`
      is what the count gains when the range grows past `|prev| + i`. */
  lemma CountEndingStep(query: string, curr: string, prev: string, lo: int, i: int)
    requires |query| > 0
    requires 0 <= lo <= |prev| + i && 0 <= i < |curr|
    ensures CountEnding(query, prev + curr, lo, |prev| + i + 1)
      == CountEnding(query, prev + curr, lo, |prev| + i) + CharSearch(query, |query| - 1, curr, prev, i)
  {
    CharSearchEndsAt(query, curr, prev, i);
  }

  /** `*occurence_count += ...` over every end position in `curr`: with a
      previous line every position of `curr` is tried, without one only the
      positions from `|query| - 1` on. Answers the updated count. */
  method MatchingOccurencesCount(query: string, curr: string, prev: string, count: int)
    returns (newCount: int)
    requires |query| > 0
    ensures newCount == count + Occurrences(query, prev, curr)
    ensures newCount >= count
  {
    if prev != "" {
      newCount := CountWithPrev(query, curr, prev, count);
    } else {
      newCount := CountWithoutPrev(query, curr, prev, count);
    }
  }

  /** The loop for a line that has a previous line: every position of
      `curr` is a candidate end. */
  method CountWithPrev(query: string, curr: string, prev: string, count: int)
    returns (newCount: int)
    requires |query| > 0
    ensures newCount == count + Occurrences(query, prev, curr)
  {
    newCount := count;
    var i := 0;
    while i < |curr|
      invariant 0 <= i <= |curr|
      invariant newCount == count + CountEnding(query, prev + curr, |prev|, |prev| + i)
    {
      CountEndingStep(query, curr, prev, |prev|, i);
      newCount := newCount + CharSearch(query, |query| - 1, curr, prev, i);
      i := i + 1;
    }
  }

  /** The loop for the first line of a record (`prev` is empty): the
      candidate ends start at `|query| - 1`, the first position where the
      whole query fits. */
  method CountWithoutPrev(query: string, curr: string, prev: string, count: int)
    returns (newCount: int)
    requires |query| > 0 && prev == ""
    ensures newCount == count + Occurrences(query, prev, curr)
  {
    newCount := count;
    var i := |query| - 1;
    if i >= |curr| {
      NoEarlyEnd(query, prev + curr, 0, |curr|);
    } else {
      NoEarlyEnd(query, prev + curr, 0, i);
      while i < |curr|
        invariant |query| - 1 <= i <= |curr|
        invariant newCount == count + CountEnding(query, prev + curr, 0, i)
      {
        CountEndingStep(query, curr, prev, 0, i);
        newCount := newCount + CharSearch(query, |query| - 1, curr, prev, i);
        i := i + 1;
      }
    }
  }

  /** Previous line "AATT", current line "TCCA", query "TTT": one
      occurrence, spanning the break. */
  lemma ExampleSpanTTT()
    ensures Occurrences("TTT", "AATT", "TCCA") == 1
  {
    var s := "AATT" + "TCCA";
    assert s == "AATTTCCA";
    assert s[2..5] == "TTT";
    assert s[3..6][2] == 'C' && s[4..7][1] == 'C' && s[5..8][0] == 'C';
    assert CountEnding("TTT", s, 4, 4) == 0;
  }

  /** First line "AATT" of a record, query "TTT": no occurrence. */
  lemma ExampleFirstLineAATT()
    ensures Occurrences("TTT", "", "AATT") == 0
  {
    var s := "" + "AATT";
    assert s == "AATT";
    NoEarlyEnd("TTT", s, 0, 2);
    assert s[0..3][0] == 'A' && s[1..4][0] == 'A';
  }

  /** "T" occurs once in the first line "ACGT". */
  lemma MatchACGT()
    ensures Occurrences("T", "", "ACGT") == 1
  {
    var s := "" + "ACGT";
    assert s == "ACGT";
    assert s[0..1][0] == 'A' && s[1..2][0] == 'C' && s[2..3][0] == 'G' && s[3..4] == "T";
  }

  /** Previous line "ATCG", current line "GATTACA", query "CGGA": one
      occurrence, spanning the break. */
  lemma ExampleSpanCGGA()
    ensures Occurrences("CGGA", "ATCG", "GATTACA") == 1
  {
    var s := "ATCG" + "GATTACA";
    assert s == "ATCGGATTACA";
    assert s[1..5][0] == 'T' && s[2..6] == "CGGA";
    assert s[3..7][0] == 'G' && s[4..8][0] == 'G' && s[5..9][0] == 'A';
    assert s[6..10][0] == 'T' && s[7..11][0] == 'T';
    assert CountEnding("CGGA", s, 4, 4) == 0;
  }

  /** The walk as written in the source: a negative position is read as
      `prev[|prev| + index]` with no lower bound, so past the start of `prev`
      it reads whatever lies before it, given here by `below`. */
  function CharSearchAsWritten(query: string, wordIndex: int, curr: string, prev: string,
                               index: int, below: int -> char): (r: int)
    requires -1 <= wordIndex < |query|
    requires index < |curr|
    ensures r == 0 || r == 1
    decreases wordIndex + 1
  {
    if wordIndex < 0 then 1
    else if index < 0 then
      var at := |prev| + index;
      var ch := if at < 0 then below(at) else prev[at];
      if ch == query[wordIndex] then
        CharSearchAsWritten(query, wordIndex - 1, curr, prev, index - 1, below)
      else 0
    else if curr[index] == query[wordIndex] then
      CharSearchAsWritten(query, wordIndex - 1, curr, prev, index - 1, below)
    else 0
  }

  /** With previous line "A", current line "C" and query "AAC", the walk as
      written reads one byte before "A"; if that byte is 'A' it reports a
      match although "AC" holds no "AAC". The guarded walk reports none. */
  lemma PhantomMatch()
    ensures CharSearchAsWritten("AAC", 2, "C", "A", 0, _ => 'A') == 1
    ensures CharSearch("AAC", 2, "C", "A", 0) == 0
    ensures Occurrences("AAC", "A", "C") == 0
  {
    assert !EndsAt("AAC", "A" + "C", 1);
  }
}
