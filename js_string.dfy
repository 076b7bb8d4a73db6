/**
 * The part of JavaScript string semantics the chat hook relies on:
 * `String.prototype.trim`, which strips leading and trailing white space and
 * line terminators (the WhiteSpace and LineTerminator code points of
 * ECMA-262).
 */
module JsString {

  /** A code point that `trim` removes: TAB, VT, FF, SP, NBSP, ZWNBSP, every
      Unicode "Space_Separator", and the line terminators LF, CR, LS and PS. */
  predicate IsTrimmable(c: char) {
    || c == '\t' || c == '\n' || c == '\U{B}' || c == '\U{C}' || c == '\r'
    || c == ' ' || c == '\U{A0}' || c == '\U{1680}'
    || ('\U{2000}' <= c <= '\U{200A}')
    || c == '\U{2028}' || c == '\U{2029}' || c == '\U{202F}' || c == '\U{205F}'
    || c == '\U{3000}' || c == '\U{FEFF}'
  }

  predicate AllTrimmable(s: string) {
    forall i | 0 <= i < |s| :: IsTrimmable(s[i])
  }

  /** Where `trim` starts keeping code points when scanning forward from `i`:
      the first position at or after `i` that is not trimmable, or `|s|`. */
  function KeptFrom(s: string, i: nat): (r: nat)
    requires i <= |s|
    ensures i <= r <= |s|
    ensures forall k | i <= k < r :: IsTrimmable(s[k])
    ensures r < |s| ==> !IsTrimmable(s[r])
    decreases |s| - i
  {
    if i == |s| || !IsTrimmable(s[i]) then i else KeptFrom(s, i + 1)
  }

  /** Where `trim` stops keeping code points when scanning back from `j`
      towards `lo`: just after the last position before `j` that is not
      trimmable, or `lo`. */
  function KeptUntil(s: string, lo: nat, j: nat): (r: nat)
    requires lo <= j <= |s|
    ensures lo <= r <= j
    ensures forall k | r <= k < j :: IsTrimmable(s[k])
    ensures r > lo ==> !IsTrimmable(s[r - 1])
    decreases j
  {
    if j == lo || !IsTrimmable(s[j - 1]) then j else KeptUntil(s, lo, j - 1)
  }

  /** `s.trim()`: the slice of `s` left once its leading and trailing
      trimmable runs are dropped. Everything dropped is trimmable and the
      result neither starts nor ends with a trimmable code point. */
  function Trim(s: string): (r: string)
    ensures |r| <= |s|
    ensures r != [] ==> !IsTrimmable(r[0]) && !IsTrimmable(r[|r| - 1])
    ensures var k := KeptFrom(s, 0);
      && k + |r| <= |s| && r == s[k..k + |r|]
      && AllTrimmable(s[..k]) && AllTrimmable(s[k + |r|..])
  {
    var i := KeptFrom(s, 0);
    var j := KeptUntil(s, i, |s|);
    s[i..j]
  }

  /** `s.trim()` is empty exactly when every code point of `s` is trimmable,
      so `!prompt.trim()` holds of the empty prompt and of a blank one. */
  lemma TrimEmptyIffBlank(s: string)
    ensures Trim(s) == "" <==> AllTrimmable(s)
  {
    var i := KeptFrom(s, 0);
    if Trim(s) == "" {
      // nothing is kept, so the leading and trailing runs meet
      assert KeptUntil(s, i, |s|) == i;
    }
  }
}
