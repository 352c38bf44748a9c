/** Whitespace and optional values, as the other modules use them. */
module Text {

  datatype Option<+T> = None | Some(value: T)

  function Lookup<K, V>(m: map<K, V>, k: K): Option<V> {
    if k in m then Some(m[k]) else None
  }

  /** Python's str.isspace for one character. */
  predicate IsSpace(c: char) {
    || '\U{9}' <= c <= '\U{D}'
    || '\U{1C}' <= c <= '\U{20}'
    || c == '\U{85}' || c == '\U{A0}' || c == '\U{1680}'
    || '\U{2000}' <= c <= '\U{200A}'
    || c == '\U{2028}' || c == '\U{2029}' || c == '\U{202F}' || c == '\U{205F}' || c == '\U{3000}'
  }

  /** `not s.strip()`. */
  predicate Blank(s: string) {
    forall i :: 0 <= i < |s| ==> IsSpace(s[i])
  }

  /** `sub` stands in `s` at place `p`. */
  predicate Occurs(s: string, sub: string, p: int) {
    0 <= p && p + |sub| <= |s| && s[p..p + |sub|] == sub
  }

  function LStrip(s: string): (r: string)
    ensures |r| <= |s| && s[|s| - |r|..] == r && (r != "" ==> !IsSpace(r[0]))
    ensures Blank(s[..|s| - |r|]) && (r == "" <==> Blank(s))
  {
    if s == "" || !IsSpace(s[0]) then s
    else
      var r := LStrip(s[1..]);
      assert forall i :: 1 <= i < |s| - |r| ==> s[i] == s[1..][..|s| - 1 - |r|][i - 1];
      r
  }

  function RStrip(s: string): (r: string)
    ensures |r| <= |s| && s[..|r|] == r && (r != "" ==> !IsSpace(r[|r| - 1]))
    ensures Blank(s[|r|..]) && (r == "" <==> Blank(s))
  {
    if s == "" || !IsSpace(s[|s| - 1]) then s
    else
      var r := RStrip(s[..|s| - 1]);
      assert forall i :: |r| <= i < |s| - 1 ==> s[i] == s[..|s| - 1][|r|..][i - |r|];
      r
  }
}
