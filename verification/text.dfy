/**
 * The string operations of the product search: `toLowerCase` and `includes`.
 * Lower-casing is modelled on ASCII letters only; every other character is left as it is.
 */
module Text {

  predicate IsUpper(c: char)
  {
    'A' <= c <= 'Z'
  }

  /** One character of `toLowerCase`, restricted to ASCII. */
  function LowerChar(c: char): (r: char)
    ensures !IsUpper(r)
    ensures !IsUpper(c) ==> r == c
    ensures IsUpper(c) ==> 'a' <= r <= 'z' && r as int - 'a' as int == c as int - 'A' as int
  {
    if IsUpper(c) then (c as int - 'A' as int + 'a' as int) as char else c
  }

  /** `s.toLowerCase()`: lower-cases character by character and keeps the length. */
  function Lower(s: string): (r: string)
    ensures |r| == |s|
    ensures forall i :: 0 <= i < |s| ==> r[i] == LowerChar(s[i])
    decreases |s|
  {
    if s == [] then [] else [LowerChar(s[0])] + Lower(s[1..])
  }

  /** Lower-casing twice is lower-casing once. */
  lemma LowerIdempotent(s: string)
    ensures Lower(Lower(s)) == Lower(s)
  {
  }

  /** `pat` occurs in `text` starting at position `i`. */
  ghost predicate OccursAt(text: string, pat: string, i: int)
  {
    0 <= i && i + |pat| <= |text| && text[i..i + |pat|] == pat
  }

  /** `text.includes(pat)`: tries every start position from the left. */
  function Contains(text: string, pat: string): (r: bool)
    ensures pat == [] ==> r
    decreases |text|
  {
    pat <= text || (text != [] && Contains(text[1..], pat))
  }

  /** An occurrence is either at the very start or an occurrence in the text's tail. */
  lemma OccursAtCases(text: string, pat: string, i: int)
    requires OccursAt(text, pat, i)
    ensures (i == 0 && pat <= text) || (text != [] && i > 0 && OccursAt(text[1..], pat, i - 1))
  {
    if i == 0 {
      assert text[..|pat|] == pat;
    } else {
      assert text[1..][i - 1..i - 1 + |pat|] == text[i..i + |pat|];
    }
  }

  /** `Contains` holds exactly when the pattern occurs at some position of the text. */
  lemma {:induction false} ContainsIff(text: string, pat: string)
    ensures Contains(text, pat) <==> exists i :: OccursAt(text, pat, i)
    decreases |text|
  {
    forall i | OccursAt(text, pat, i)
      ensures (i == 0 && pat <= text) || (text != [] && i > 0 && OccursAt(text[1..], pat, i - 1))
    {
      OccursAtCases(text, pat, i);
    }
    if pat <= text {
      assert text[0..|pat|] == pat;
      assert OccursAt(text, pat, 0);
    } else if text != [] {
      var tail := text[1..];
      ContainsIff(tail, pat);
      if Contains(tail, pat) {
        var i :| OccursAt(tail, pat, i);
        assert text[i + 1..i + 1 + |pat|] == tail[i..i + |pat|];
        assert OccursAt(text, pat, i + 1);
      }
    }
  }
}
