/** String predicates the chat component relies on: the character set that
    ECMAScript's `String.prototype.trim` removes, `trim` itself, and
    `String.prototype.includes`. Strings are sequences of code points. */
module Text {

  /** ECMAScript WhiteSpace (TAB, VT, FF, ZWNBSP and every Space_Separator
      code point) and LineTerminator (LF, CR, LS, PS). */
  predicate IsJsSpace(c: char)
  {
    || c == '\t' || c == '\U{000B}' || c == '\U{000C}' || c == ' '
    || c == '\U{00A0}' || c == '\U{FEFF}' || c == '\U{1680}'
    || ('\U{2000}' <= c <= '\U{200A}')
    || c == '\U{202F}' || c == '\U{205F}' || c == '\U{3000}'
    || c == '\n' || c == '\r' || c == '\U{2028}' || c == '\U{2029}'
  }

  /** Every character of `s` is whitespace (vacuously true of ""). */
  predicate AllSpace(s: string)
  {
    forall i :: 0 <= i < |s| ==> IsJsSpace(s[i])
  }

  /** Every character of `s` in `[lo, hi)` is whitespace. */
  ghost predicate SpaceBetween(s: string, lo: int, hi: int)
  {
    forall i :: lo <= i < hi && 0 <= i < |s| ==> IsJsSpace(s[i])
  }

  /** Where the text of `s` starts: the number of leading whitespace
      characters. */
  function TextStart(s: string): (lo: nat)
    ensures lo <= |s| && SpaceBetween(s, 0, lo)
    ensures lo == |s| || !IsJsSpace(s[lo])
  {
    if s == [] || !IsJsSpace(s[0]) then 0 else 1 + TextStart(s[1..])
  }

  /** Where the text of `s[lo..hi]` ends: `hi` moved left past trailing
      whitespace, never before `lo`. */
  function TextEnd(s: string, lo: nat, hi: nat): (e: nat)
    requires lo <= hi <= |s|
    ensures lo <= e <= hi && SpaceBetween(s, e, hi)
    ensures e == lo || !IsJsSpace(s[e - 1])
    decreases hi
  {
    if hi > lo && IsJsSpace(s[hi - 1]) then TextEnd(s, lo, hi - 1) else hi
  }

  /** `s` occurs in `t` starting at offset `k`. */
  ghost predicate SliceAt(t: string, s: string, k: int)
  {
    0 <= k && k + |s| <= |t| && t[k..k + |s|] == s
  }

  /** `String.prototype.trim`: whitespace removed from both ends. The result
      is a contiguous piece of `s` with only whitespace around it, it neither
      starts nor ends with whitespace, and it is empty exactly when `s` is
      all whitespace. */
  function Trim(s: string): (r: string)
    ensures exists k :: SliceAt(s, r, k) && SpaceBetween(s, 0, k) && SpaceBetween(s, k + |r|, |s|)
    ensures r == [] || (!IsJsSpace(r[0]) && !IsJsSpace(r[|r| - 1]))
    ensures r == [] <==> AllSpace(s)
  {
    var lo := TextStart(s);
    var hi := TextEnd(s, lo, |s|);
    assert SliceAt(s, s[lo..hi], lo);
    BlankBetween(s, lo, hi);
    s[lo..hi]
  }

  /** Text bounded by `lo` and `hi` with only whitespace outside it is
      empty exactly when the whole string is whitespace. */
  lemma BlankBetween(s: string, lo: nat, hi: nat)
    requires lo <= hi <= |s| && SpaceBetween(s, 0, lo) && SpaceBetween(s, hi, |s|)
    requires lo == |s| || !IsJsSpace(s[lo])
    ensures lo == hi <==> AllSpace(s)
  {
  }

  /** `s[i..]` starts with `p`. */
  ghost predicate OccursAt(s: string, p: string, i: int)
  {
    0 <= i && i + |p| <= |s| && s[i..i + |p|] == p
  }

  lemma OccursShift(s: string, p: string, i: int)
    requires s != [] && 0 <= i
    ensures OccursAt(s[1..], p, i) <==> OccursAt(s, p, i + 1)
  {
  }

  /** `String.prototype.includes`: `p` occurs somewhere in `s` (the empty
      pattern occurs in every string). */
  function Includes(s: string, p: string): (b: bool)
    ensures b <==> exists i :: OccursAt(s, p, i)
    decreases |s|
  {
    if |p| > |s| then false
    else if s[..|p|] == p then assert OccursAt(s, p, 0); true
    else
      var b := Includes(s[1..], p);
      assert !OccursAt(s, p, 0);
      assert forall i :: 0 <= i ==> (OccursAt(s[1..], p, i) <==> OccursAt(s, p, i + 1)) by {
        forall i | 0 <= i ensures OccursAt(s[1..], p, i) <==> OccursAt(s, p, i + 1) {
          OccursShift(s, p, i);
        }
      }
      assert (exists i :: OccursAt(s, p, i)) ==> exists i :: OccursAt(s[1..], p, i) by {
        if exists i :: OccursAt(s, p, i) {
          var i :| OccursAt(s, p, i);
          assert i != 0;
          assert OccursAt(s[1..], p, i - 1);
        }
      }
      b
  }
}
