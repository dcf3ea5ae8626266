/** Case normalisation of sequence lines and of the match query.
    A buffer is uppercased in place: every ASCII lower-case letter becomes
    the letter 32 code points below it, every other character is kept. */
module Normalize {

  predicate IsLower(c: char) {
    'a' <= c <= 'z'
  }

  /** The character the normaliser writes in place of `c`. */
  function UpperChar(c: char): (u: char)
    ensures IsLower(c) ==> u as int == c as int - 32 && 'A' <= u <= 'Z'
    ensures !IsLower(c) ==> u == c
    ensures !IsLower(u)
  {
    if IsLower(c) then (c as int - 32) as char else c
  }

  /** The whole line after normalisation. */
  function Upper(s: string): (r: string)
    ensures |r| == |s|
    ensures forall i :: 0 <= i < |s| ==> r[i] == UpperChar(s[i])
  {
    seq(|s|, i requires 0 <= i < |s| => UpperChar(s[i]))
  }

  /** A normalised line holds no lower-case letter. */
  lemma UpperHasNoLower(s: string)
    ensures forall i :: 0 <= i < |s| ==> !IsLower(Upper(s)[i])
  {
  }

  /** Normalising twice is normalising once. */
  lemma UpperIdempotent(s: string)
    ensures Upper(Upper(s)) == Upper(s)
  {
    var u := Upper(s);
    assert forall i :: 0 <= i < |u| ==> UpperChar(u[i]) == u[i];
  }

  /** Normalisation distributes over concatenation, so normalising two lines
      one after the other is normalising the joined text. */
  lemma UpperAppend(a: string, b: string)
    ensures Upper(a + b) == Upper(a) + Upper(b)
  {
    assert forall i :: 0 <= i < |a + b| ==>
      Upper(a + b)[i] == (Upper(a) + Upper(b))[i];
  }

  /** The line "ACGT" is already normalised. */
  lemma UpperACGT()
    ensures Upper("ACGT") == "ACGT"
  {
    assert UpperChar('A') == 'A' && UpperChar('C') == 'C' && UpperChar('G') == 'G' && UpperChar('T') == 'T';
  }

  /** Uppercases `text` in place, one position at a time. */
  method ChangeLowercase(text: array<char>)
    modifies text
    ensures text[..] == Upper(old(text[..]))
  {
    var i := 0;
    while i < text.Length
      invariant 0 <= i <= text.Length
      invariant forall k :: 0 <= k < i ==> text[k] == UpperChar(old(text[k]))
      invariant forall k :: i <= k < text.Length ==> text[k] == old(text[k])
    {
      if text[i] <= 'z' && text[i] >= 'a' {
        text[i] := (text[i] as int - 32) as char;
      }
      i := i + 1;
    }
  }
}
