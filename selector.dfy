/** Header selection: a header line is selected when it is exactly ">" followed
    by one of the comma-separated tokens of the selector string. */
module Selector {

  predicate IsHeader(line: string) {
    |line| > 0 && line[0] == '>'
  }

  /** Length of the leading run of `s` that holds no comma. */
  function FieldEnd(s: string): (k: nat)
    ensures k <= |s|
  {
    if s == [] || s[0] == ',' then 0 else 1 + FieldEnd(s[1..])
  }

  /** The leading run holds no comma and stops at a comma or at the end. */
  lemma {:induction false} FieldEndSpec(s: string)
    ensures forall i :: 0 <= i < FieldEnd(s) ==> s[i] != ','
    ensures FieldEnd(s) < |s| ==> s[FieldEnd(s)] == ','
  {
    if s != [] && s[0] != ',' {
      FieldEndSpec(s[1..]);
      assert forall i :: 1 <= i < FieldEnd(s) ==> s[i] == s[1..][i - 1];
    }
  }

  /** The tokens a `strtok_r(..., ",", ...)` loop yields, in order: the
      non-empty comma-free runs of `s` (runs of commas separate them and
      leading or trailing commas yield nothing). */
  function Tokens(s: string): (ts: seq<string>)
    decreases |s|
  {
    if s == [] then []
    else if s[0] == ',' then Tokens(s[1..])
    else
      var k := FieldEnd(s);
      [s[..k]] + Tokens(s[k..])
  }

  /** Independent description of a token: `s[i..j]` is non-empty, holds no
      comma, and is bounded on each side by a comma or an end of `s`. */
  predicate IsTokenAt(s: string, i: int, j: int) {
    0 <= i < j <= |s|
    && (i == 0 || s[i - 1] == ',')
    && (j == |s| || s[j] == ',')
    && forall k :: i <= k < j ==> s[k] != ','
  }

  /** The first token, when `s` starts with one, and the rest. */
  lemma TokensCons(s: string, t: string)
    requires s != [] && s[0] != ','
    ensures Tokens(s) == [s[..FieldEnd(s)]] + Tokens(s[FieldEnd(s)..])
    ensures t in Tokens(s) <==> t == s[..FieldEnd(s)] || t in Tokens(s[FieldEnd(s)..])
  {
    var k := FieldEnd(s);
    assert Tokens(s) == [s[..k]] + Tokens(s[k..]);
  }

  /** A delimited stretch of a suffix `s[d..]` is one of `s` when it does
      not start the suffix, or when the suffix starts at a delimiter. */
  lemma ShiftToken(s: string, d: nat, i: int, j: int)
    requires d <= |s| && IsTokenAt(s[d..], i, j)
    requires i != 0 || d == 0 || s[d - 1] == ','
    ensures IsTokenAt(s, i + d, j + d) && s[i + d..j + d] == s[d..][i..j]
  {
    var r := s[d..];
    assert forall k :: i + d <= k < j + d ==> s[k] == r[k - d];
    if i != 0 {
      assert s[i + d - 1] == r[i - 1];
    }
    if j < |r| {
      assert s[j + d] == r[j];
    }
  }

  /** Conversely, a delimited stretch of `s` lying in `s[d..]` is one of the
      suffix. */
  lemma UnshiftToken(s: string, d: nat, i: int, j: int)
    requires d <= i && IsTokenAt(s, i, j)
    ensures IsTokenAt(s[d..], i - d, j - d) && s[d..][i - d..j - d] == s[i..j]
  {
    var r := s[d..];
    assert forall k :: i - d <= k < j - d ==> r[k] == s[k + d];
    if i - d != 0 {
      assert r[i - d - 1] == s[i - 1];
    }
    if j - d < |r| {
      assert r[j - d] == s[j];
    }
  }

  /** Every listed token is a delimited stretch of `s`; the lemma names where. */
  lemma {:induction false} TokensSound(s: string, t: string) returns (i: int, j: int)
    requires t in Tokens(s)
    ensures IsTokenAt(s, i, j) && s[i..j] == t
    decreases |s|, 2
  {
    if s[0] == ',' {
      i, j := SoundAfterComma(s, t);
    } else {
      i, j := SoundAtField(s, t);
    }
  }

  lemma {:induction false} SoundAfterComma(s: string, t: string) returns (i: int, j: int)
    requires s != [] && s[0] == ',' && t in Tokens(s)
    ensures IsTokenAt(s, i, j) && s[i..j] == t
    decreases |s|, 0
  {
    assert t in Tokens(s[1..]);
    var i', j' := TokensSound(s[1..], t);
    ShiftToken(s, 1, i', j');
    i, j := i' + 1, j' + 1;
  }

  lemma {:induction false} SoundAtField(s: string, t: string) returns (i: int, j: int)
    requires s != [] && s[0] != ',' && t in Tokens(s)
    ensures IsTokenAt(s, i, j) && s[i..j] == t
    decreases |s|, 1
  {
    TokensCons(s, t);
    if t == s[..FieldEnd(s)] {
      LeadingFieldIsToken(s);
      i, j := 0, FieldEnd(s);
    } else {
      i, j := SoundPastField(s, t);
    }
  }

  lemma {:induction false} SoundPastField(s: string, t: string) returns (i: int, j: int)
    requires s != [] && s[0] != ',' && t in Tokens(s[FieldEnd(s)..])
    ensures IsTokenAt(s, i, j) && s[i..j] == t
    decreases |s|, 0
  {
    var k := FieldEnd(s);
    LeadingFieldIsToken(s);
    var i', j' := TokensSound(s[k..], t);
    SuffixTokenNotAtStart(s, i', j');
    ShiftToken(s, k, i', j');
    i, j := i' + k, j' + k;
  }

  /** Every delimited stretch of `s` is listed. */
  lemma {:induction false} TokensComplete(s: string, i: int, j: int)
    requires IsTokenAt(s, i, j)
    ensures s[i..j] in Tokens(s)
    decreases |s|, 2
  {
    if s[0] == ',' {
      CompleteAfterComma(s, i, j);
    } else {
      CompleteAtField(s, i, j);
    }
  }

  lemma {:induction false} CompleteAfterComma(s: string, i: int, j: int)
    requires IsTokenAt(s, i, j) && s[0] == ','
    ensures s[i..j] in Tokens(s)
    decreases |s|, 0
  {
    assert i != 0;
    UnshiftToken(s, 1, i, j);
    TokensComplete(s[1..], i - 1, j - 1);
  }

  lemma {:induction false} CompleteAtField(s: string, i: int, j: int)
    requires IsTokenAt(s, i, j) && s[0] != ','
    ensures s[i..j] in Tokens(s)
    decreases |s|, 1
  {
    TokensCons(s, s[i..j]);
    if i == 0 {
      FirstTokenIsField(s, j);
    } else {
      CompletePastField(s, i, j);
    }
  }

  lemma {:induction false} CompletePastField(s: string, i: int, j: int)
    requires IsTokenAt(s, i, j) && s[0] != ',' && i > 0
    ensures s[i..j] in Tokens(s[FieldEnd(s)..])
    decreases |s|, 0
  {
    var k := FieldEnd(s);
    LeadingFieldNonEmpty(s);
    LaterTokenPastField(s, i, j);
    UnshiftToken(s, k, i, j);
    TokensComplete(s[k..], i - k, j - k);
  }

  /** A string that does not start with a comma has a non-empty leading
      field. */
  lemma LeadingFieldNonEmpty(s: string)
    requires s != [] && s[0] != ','
    ensures FieldEnd(s) >= 1
  {
  }

  /** A leading field is a delimited stretch. */
  lemma LeadingFieldIsToken(s: string)
    requires s != [] && s[0] != ','
    ensures IsTokenAt(s, 0, FieldEnd(s))
  {
    FieldEndSpec(s);
    assert FieldEnd(s) == 1 + FieldEnd(s[1..]);
  }

  /** After the leading field comes a comma, so no delimited stretch of the
      rest starts right there. */
  lemma SuffixTokenNotAtStart(s: string, i: int, j: int)
    requires IsTokenAt(s[FieldEnd(s)..], i, j)
    ensures i != 0
  {
    var k := FieldEnd(s);
    FieldEndSpec(s);
    assert s[k..][0] == s[k];
  }

  /** The delimited stretch at the start of `s` is its leading field. */
  lemma FirstTokenIsField(s: string, j: int)
    requires IsTokenAt(s, 0, j)
    ensures j == FieldEnd(s)
  {
    FieldEndSpec(s);
  }

  /** A delimited stretch that does not start `s` lies past its leading
      field. */
  lemma LaterTokenPastField(s: string, i: int, j: int)
    requires IsTokenAt(s, i, j) && i > 0
    ensures i > FieldEnd(s)
  {
    FieldEndSpec(s);
    assert s[i - 1] == ',';
  }

  /** A token occurs in the list exactly when it occurs in `s` between
      delimiters. */
  lemma TokensExact(s: string, t: string)
    ensures t in Tokens(s) <==> exists i, j :: IsTokenAt(s, i, j) && s[i..j] == t
  {
    if t in Tokens(s) {
      var i, j := TokensSound(s, t);
    }
    if exists i, j :: IsTokenAt(s, i, j) && s[i..j] == t {
      var i, j :| IsTokenAt(s, i, j) && s[i..j] == t;
      TokensComplete(s, i, j);
    }
  }

  /** Every token is non-empty and comma-free. */
  lemma {:induction false} TokensWellFormed(s: string)
    ensures forall t :: t in Tokens(s) ==> |t| > 0 && ',' !in t
  {
    forall t | t in Tokens(s)
      ensures |t| > 0 && ',' !in t
    {
      var i, j := TokensSound(s, t);
    }
  }

  /** The first-match loop over the tokens: true as soon as `line` equals
      ">" + token. */
  function AnyTokenMatches(line: string, tokens: seq<string>): bool {
    if tokens == [] then false
    else if line == ['>'] + tokens[0] then true
    else AnyTokenMatches(line, tokens[1..])
  }

  lemma {:induction false} AnyTokenMatchesExists(line: string, tokens: seq<string>)
    ensures AnyTokenMatches(line, tokens) <==> exists t :: t in tokens && line == ['>'] + t
  {
    if tokens != [] {
      AnyTokenMatchesExists(line, tokens[1..]);
      assert forall t :: t in tokens <==> t == tokens[0] || t in tokens[1..];
    }
  }

  /** The selection decision for `line`: a line that is not a header
      keeps the previous decision (it is sticky from one header to the
      next); a header is selected when it matches a token of `selector`. */
  function DoesHeaderMatch(selector: string, line: string, prevHeader: bool): (r: bool)
    ensures !IsHeader(line) ==> r == prevHeader
  {
    if !IsHeader(line) then prevHeader
    else AnyTokenMatches(line, Tokens(selector))
  }

  /** On a header line the decision is: the line is ">" followed by a
      non-empty comma-free stretch of the selector bounded by commas or
      its ends. */
  lemma HeaderMatchSpec(selector: string, line: string, prevHeader: bool)
    requires IsHeader(line)
    ensures DoesHeaderMatch(selector, line, prevHeader) <==>
      exists i, j :: IsTokenAt(selector, i, j) && line == ['>'] + selector[i..j]
  {
    AnyTokenMatchesExists(line, Tokens(selector));
    var name := line[1..];
    assert line == ['>'] + name;
    TokensExact(selector, name);
    if DoesHeaderMatch(selector, line, prevHeader) {
      var t :| t in Tokens(selector) && line == ['>'] + t;
      assert t == name;
    }
    if exists i, j :: IsTokenAt(selector, i, j) && line == ['>'] + selector[i..j] {
      var i, j :| IsTokenAt(selector, i, j) && line == ['>'] + selector[i..j];
      assert selector[i..j] == name;
    }
  }

  /** An empty selector selects no header. */
  lemma EmptySelectorSelectsNothing(line: string, prevHeader: bool)
    requires IsHeader(line)
    ensures !DoesHeaderMatch("", line, prevHeader)
  {
  }

  /** The selector "seq1,seq2" splits into the tokens "seq1" and "seq2".
      The literal is a parameter fixed by the `requires`, rather than written
      into the `ensures`, so that the verifier does not unfold `Tokens` and
      `FieldEnd` on it eagerly; the steps below unfold them one at a time,
      which keeps the proof cheap. The other examples follow the same
      pattern. */
  lemma ExampleTokens(sel: string)
    requires sel == "seq1,seq2"
    ensures Tokens(sel) == ["seq1", "seq2"]
  {
    FieldEndSpec(sel);
    assert sel[4] == ',';
    assert FieldEnd(sel) == 4;
    var r := sel[4..];
    assert r == ",seq2" && sel[..4] == "seq1";
    var r2 := r[1..];
    assert r2 == "seq2";
    FieldEndSpec(r2);
    assert FieldEnd(r2) == 4;
    assert r2[4..] == [] && r2[..4] == "seq2";
    assert Tokens(r2) == [r2[..4]] + Tokens(r2[4..]);
    assert Tokens(r) == Tokens(r2);
    assert Tokens(sel) == [sel[..4]] + Tokens(r);
  }

  /** The selector "seq1,seq2" selects ">seq1" and ">seq2" but not ">seq10". */
  lemma SelectorExample(sel: string, prevHeader: bool)
    requires sel == "seq1,seq2"
    ensures DoesHeaderMatch(sel, ">seq1", prevHeader)
    ensures DoesHeaderMatch(sel, ">seq2", prevHeader)
    ensures !DoesHeaderMatch(sel, ">seq10", prevHeader)
  {
    ExampleTokens(sel);
    var ts := Tokens(sel);
    assert ">seq1" == ['>'] + ts[0];
    assert ">seq2" == ['>'] + ts[1];
    assert ts[1..] == ["seq2"] && ts[1..][1..] == [];
    assert |['>'] + ts[0]| == 5 && |['>'] + ts[1]| == 5;
    assert !AnyTokenMatches(">seq10", ts[1..]);
  }
}
