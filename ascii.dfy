/** ASCII case folding as Rust's `str::eq_ignore_ascii_case` performs it: only the
    letters `A`-`Z` are folded (to `a`-`z`); every other character is left as it is. */
module Ascii {

  predicate IsAsciiUpper(c: char) { 'A' <= c <= 'Z' }

  predicate IsAsciiLower(c: char) { 'a' <= c <= 'z' }

  /** `char::to_ascii_lowercase`. */
  function ToAsciiLower(c: char): char
  {
    if IsAsciiUpper(c) then (c as int + 32) as char else c
  }

  /** `char::to_ascii_uppercase`. */
  function ToAsciiUpper(c: char): char
  {
    if IsAsciiLower(c) then (c as int - 32) as char else c
  }

  /** Folding leaves no upper-case letter, is idempotent, changes exactly the
      upper-case letters, and is undone by `ToAsciiUpper` on them. */
  lemma ToAsciiLowerSpec(c: char)
    ensures !IsAsciiUpper(ToAsciiLower(c))
    ensures ToAsciiLower(ToAsciiLower(c)) == ToAsciiLower(c)
    ensures ToAsciiLower(c) != c <==> IsAsciiUpper(c)
    ensures IsAsciiUpper(c) ==> ToAsciiUpper(ToAsciiLower(c)) == c
  {
  }

  /** Two characters fold to the same lower-case character. */
  predicate CharEqIgnoreAsciiCase(a: char, b: char) {
    ToAsciiLower(a) == ToAsciiLower(b)
  }

  /** `str::eq_ignore_ascii_case`: equal lengths and position-wise equality after folding. */
  predicate EqIgnoreAsciiCase(a: string, b: string) {
    |a| == |b| && forall i :: 0 <= i < |a| ==> CharEqIgnoreAsciiCase(a[i], b[i])
  }

  /** The string with every ASCII upper-case letter folded. */
  function FoldLower(s: string): (r: string)
    ensures |r| == |s|
    ensures forall i :: 0 <= i < |s| ==> r[i] == ToAsciiLower(s[i])
  {
    if s == [] then [] else [ToAsciiLower(s[0])] + FoldLower(s[1..])
  }

  /** The characters that fold to the same lower-case character as `c`. */
  function CaseVariantsOfChar(c: char): (r: set<char>)
    ensures forall x :: x in r <==> CharEqIgnoreAsciiCase(x, c)
  {
    var l := ToAsciiLower(c);
    if IsAsciiLower(l) then {l, ToAsciiUpper(l)} else {l}
  }

  /** Every string that compares equal to `s` ignoring ASCII case, built letter by letter. */
  function CaseVariants(s: string): set<string>
  {
    if s == [] then {[]}
    else set c, t | c in CaseVariantsOfChar(s[0]) && t in CaseVariants(s[1..]) :: [c] + t
  }

  /** The comparison is the equality of the folded strings. */
  lemma EqIgnoreAsciiCaseIsFoldedEquality(a: string, b: string)
    ensures EqIgnoreAsciiCase(a, b) <==> FoldLower(a) == FoldLower(b)
  {
  }

  /** The comparison is an equivalence relation. */
  lemma EqIgnoreAsciiCaseIsEquivalence(a: string, b: string, c: string)
    ensures EqIgnoreAsciiCase(a, a)
    ensures EqIgnoreAsciiCase(a, b) ==> EqIgnoreAsciiCase(b, a)
    ensures EqIgnoreAsciiCase(a, b) && EqIgnoreAsciiCase(b, c) ==> EqIgnoreAsciiCase(a, c)
  {
  }

  /** `CaseVariants(s)` is exactly the set of strings equal to `s` ignoring ASCII case. */
  lemma {:induction false} CaseVariantsExact(s: string, t: string)
    ensures t in CaseVariants(s) <==> EqIgnoreAsciiCase(t, s)
    decreases |s|
  {
    if s != [] {
      if EqIgnoreAsciiCase(t, s) {
        CaseVariantsExact(s[1..], t[1..]);
        assert t[0] in CaseVariantsOfChar(s[0]);
        assert EqIgnoreAsciiCase(t[1..], s[1..]) by {
          forall i | 0 <= i < |t[1..]| ensures CharEqIgnoreAsciiCase(t[1..][i], s[1..][i]) {
            assert t[1..][i] == t[i + 1];
          }
        }
        assert t == [t[0]] + t[1..];
      }
      if t in CaseVariants(s) {
        var c, u :| c in CaseVariantsOfChar(s[0]) && u in CaseVariants(s[1..]) && t == [c] + u;
        CaseVariantsExact(s[1..], u);
        forall i | 0 <= i < |t| ensures CharEqIgnoreAsciiCase(t[i], s[i]) {
          if i > 0 {
            assert t[i] == u[i - 1];
          }
        }
      }
    }
  }
}
