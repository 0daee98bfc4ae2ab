/**
 * String helpers the bot relies on: Python's `str.lower`/`str.capitalize`,
 * the `in` substring test and an anchored, case-insensitive `re.match` of a
 * literal pattern. Case mapping covers the ASCII letters only.
 */
module Text {

  /** Lower-cases an ASCII capital letter; every other character is unchanged. */
  function LowerChar(c: char): char {
    if 'A' <= c <= 'Z' then (c as int + 32) as char else c
  }

  /** Upper-cases an ASCII small letter; every other character is unchanged. */
  function UpperChar(c: char): char {
    if 'a' <= c <= 'z' then (c as int - 32) as char else c
  }

  /** `s.lower()`: the same length, every character lower-cased in place. */
  function Lower(s: string): (r: string)
    ensures |r| == |s|
    ensures forall i :: 0 <= i < |s| ==> r[i] == LowerChar(s[i])
  {
    if s == [] then [] else [LowerChar(s[0])] + Lower(s[1..])
  }

  /**
   * `s.capitalize()`: the first character upper-cased, all the others
   * lower-cased, nothing added or dropped.
   */
  function Capitalize(s: string): (r: string)
    ensures |r| == |s|
    ensures |s| > 0 ==> r[0] == UpperChar(s[0])
    ensures forall i :: 1 <= i < |s| ==> r[i] == LowerChar(s[i])
  {
    if s == [] then [] else [UpperChar(s[0])] + Lower(s[1..])
  }

  /** Capitalizing an already capitalized string changes nothing. */
  lemma CapitalizeIdempotent(s: string)
    ensures Capitalize(Capitalize(s)) == Capitalize(s)
  {
    var c := Capitalize(s);
    var cc := Capitalize(c);
    forall i | 0 <= i < |s| ensures cc[i] == c[i] {
      if i == 0 {
        assert UpperChar(UpperChar(s[0])) == UpperChar(s[0]);
      } else {
        assert LowerChar(LowerChar(s[i])) == LowerChar(s[i]);
      }
    }
  }

  /** `t` occurs in `s` starting at index `i`. */
  predicate OccursAt(s: string, t: string, i: int) {
    0 <= i <= |s| - |t| && s[i..i + |t|] == t
  }

  /** Python's `t in s`: `t` occurs somewhere in `s` as a contiguous slice. */
  predicate Contains(s: string, t: string) {
    exists i | 0 <= i <= |s| - |t| :: OccursAt(s, t, i)
  }

  /** A string built around `t` contains `t`. */
  lemma ContainsMiddle(a: string, t: string, b: string)
    ensures Contains(a + t + b, t)
  {
    var s := a + t + b;
    assert s[|a|..|a| + |t|] == t;
    assert OccursAt(s, t, |a|);
  }

  /** No string contains a longer one. */
  lemma ShorterDoesNotContain(s: string, t: string)
    requires |s| < |t|
    ensures !Contains(s, t)
  {
  }

  /**
   * `re.match(p, s, re.IGNORECASE)` for a pattern `p` free of regular
   * expression operators: `s` begins with `p`, letter case ignored.
   */
  predicate StartsWithIgnoreCase(s: string, p: string)
    ensures StartsWithIgnoreCase(s, p) ==>
      |p| <= |s| && forall i :: 0 <= i < |p| ==> LowerChar(s[i]) == LowerChar(p[i])
    decreases p
  {
    p == [] || (s != [] && LowerChar(s[0]) == LowerChar(p[0]) && StartsWithIgnoreCase(s[1..], p[1..]))
  }

  /**
   * The match is anchored at the start: it holds exactly when the first
   * `|p|` characters of `s`, lower-cased, equal `p` lower-cased.
   */
  lemma {:induction false} StartsWithIgnoreCaseIff(s: string, p: string)
    ensures StartsWithIgnoreCase(s, p) <==> |p| <= |s| && Lower(s[..|p|]) == Lower(p)
    decreases p
  {
    if p != [] && s != [] {
      StartsWithIgnoreCaseIff(s[1..], p[1..]);
      if |p| <= |s| {
        assert s[1..][..|p| - 1] == s[..|p|][1..];
        var ls, lp := Lower(s[..|p|]), Lower(p);
        assert ls == [LowerChar(s[0])] + Lower(s[1..][..|p| - 1]);
        assert lp == [LowerChar(p[0])] + Lower(p[1..]);
        if ls == lp {
          assert ls[0] == lp[0];
          assert ls[1..] == lp[1..];
        }
      }
    }
  }
}
