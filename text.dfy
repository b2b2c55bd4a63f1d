/** Option, for values the lens's scripts represent with `null` or `undefined`. */
module Wrappers {
  datatype Option<+T> = None | Some(value: T)
}

/**
 * The string primitives the lens's scripts rely on: `toLowerCase`/`toUpperCase`
 * (modelled on ASCII letters), `includes`, `trim` and the regular-expression
 * class `\s`.
 */
module Text {

  /**
   * What `trim` removes and `\s` matches: the ECMAScript white space (tab,
   * vertical tab, form feed, space, no-break space, the byte-order mark and the
   * Unicode space separators) and line terminators (line feed, carriage
   * return, line and paragraph separators). Tab, line feed, vertical tab, form
   * feed and carriage return are the consecutive code points 9 to 13.
   */
  predicate IsWhitespace(c: char) {
    if c <= '\U{A0}' then
      c == ' ' || '\t' <= c <= '\r' || c == '\U{A0}'
    else
      || '\U{2000}' <= c <= '\U{200A}' || c == '\U{2028}' || c == '\U{2029}' || c == '\U{202F}'
      || c == '\U{205F}' || c == '\U{3000}' || c == '\U{1680}' || c == '\U{FEFF}'
  }

  function LowerChar(c: char): char {
    if 'A' <= c <= 'Z' then (c as int + 32) as char else c
  }

  function UpperChar(c: char): char {
    if 'a' <= c <= 'z' then (c as int - 32) as char else c
  }

  /** `s.toLowerCase()` */
  function Lower(s: string): string {
    seq(|s|, i requires 0 <= i < |s| => LowerChar(s[i]))
  }

  /** `!s || s.trim() === ""`: the string is empty or made of white space only. */
  predicate IsBlank(s: string) {
    forall i :: 0 <= i < |s| ==> IsWhitespace(s[i])
  }

  /** `t` occurs in `s` at position `i`. */
  predicate OccursAt(s: string, t: string, i: int) {
    0 <= i && i + |t| <= |s| && s[i..i + |t|] == t
  }

  /** `s.includes(t)`, computed the way a left-to-right scan does it. */
  function Includes(s: string, t: string): (b: bool)
    ensures b <==> exists i :: OccursAt(s, t, i)
    decreases |s|
  {
    if |t| > |s| then
      false
    else if s[..|t|] == t then
      assert OccursAt(s, t, 0);
      true
    else
      var b := Includes(s[1..], t);
      if b then
        var j :| OccursAt(s[1..], t, j);
        assert s[1..][j..j + |t|] == s[j + 1..j + 1 + |t|];
        assert OccursAt(s, t, j + 1);
        true
      else
        forall i | OccursAt(s, t, i) ensures i >= 1 && OccursAt(s[1..], t, i - 1) {
          assert i != 0;
          assert s[1..][i - 1..i - 1 + |t|] == s[i..i + |t|];
        }
        false
  }

  /** A string occurs inside anything built around it: "x" + name + "y" includes name. */
  lemma {:induction false} IncludesMiddle(a: string, t: string, b: string)
    ensures Includes(a + t + b, t)
  {
    assert (a + t + b)[|a|..|a| + |t|] == t;
    assert OccursAt(a + t + b, t, |a|);
  }
}
