/** `String.prototype.trim` as ECMAScript defines it. */
module JsText {

  /** The WhiteSpace and LineTerminator code points of ECMAScript: tab, vertical tab,
      form feed, the byte-order mark, every Unicode space separator (Zs) and the four
      line terminators. These are exactly what `trim` removes. */
  predicate IsJsWhitespace(c: char) {
    var n := c as int;
    || n == 0x09 || n == 0x0A || n == 0x0B || n == 0x0C || n == 0x0D
    || n == 0x20 || n == 0xA0 || n == 0x1680
    || (0x2000 <= n <= 0x200A)
    || n == 0x2028 || n == 0x2029 || n == 0x202F || n == 0x205F
    || n == 0x3000 || n == 0xFEFF
  }

  /** Neither the first nor the last character is whitespace. */
  predicate IsTrimmed(s: string) {
    s == [] || (!IsJsWhitespace(s[0]) && !IsJsWhitespace(s[|s| - 1]))
  }

  /** `r` is `s` with the first `a` characters and everything after `a + |r|` removed,
      and every removed character is whitespace. */
  ghost predicate StripsOnlyWhitespace(s: string, r: string, a: int) {
    && 0 <= a && a + |r| <= |s|
    && r == s[a..a + |r|]
    && (forall i :: 0 <= i < a ==> IsJsWhitespace(s[i]))
    && (forall i :: a + |r| <= i < |s| ==> IsJsWhitespace(s[i]))
  }

  function TrimStart(s: string): (r: string)
    ensures |r| <= |s| && r == s[|s| - |r|..]
    ensures forall i :: 0 <= i < |s| - |r| ==> IsJsWhitespace(s[i])
    ensures r != [] ==> !IsJsWhitespace(r[0])
  {
    if s != [] && IsJsWhitespace(s[0]) then TrimStart(s[1..]) else s
  }

  function TrimEnd(s: string): (r: string)
    ensures |r| <= |s| && r == s[..|r|]
    ensures forall i :: |r| <= i < |s| ==> IsJsWhitespace(s[i])
    ensures r != [] ==> !IsJsWhitespace(r[|r| - 1])
  {
    if s != [] && IsJsWhitespace(s[|s| - 1]) then TrimEnd(s[..|s| - 1]) else s
  }

  /** The two trimming steps together remove only whitespace. */
  lemma TrimStrips(s: string, t: string, r: string)
    requires |t| <= |s| && t == s[|s| - |t|..]
    requires forall i :: 0 <= i < |s| - |t| ==> IsJsWhitespace(s[i])
    requires |r| <= |t| && r == t[..|r|]
    requires forall i :: |r| <= i < |t| ==> IsJsWhitespace(t[i])
    ensures StripsOnlyWhitespace(s, r, |s| - |t|)
  {
  }

  /** `s.trim()`: the longest factor of `s` that neither starts nor ends with whitespace
      and is surrounded only by whitespace. */
  function Trim(s: string): (r: string)
    ensures IsTrimmed(r)
    ensures StripsOnlyWhitespace(s, r, |s| - |TrimStart(s)|)
  {
    var t := TrimStart(s);
    var r := TrimEnd(t);
    TrimStrips(s, t, r);
    r
  }

  /** Trimming leaves a string without edge whitespace untouched, so it is idempotent. */
  lemma {:induction false} TrimFixesTrimmed(s: string)
    ensures IsTrimmed(s) <==> Trim(s) == s
    ensures Trim(Trim(s)) == Trim(s)
  {
    if IsTrimmed(s) && s != [] {
      assert TrimStart(s) == s;
      assert TrimEnd(s) == s;
    }
    var t := Trim(s);
    if t != [] {
      assert TrimStart(t) == t;
      assert TrimEnd(t) == t;
    }
  }

  /** Conversely, any non-empty factor without edge whitespace that is surrounded only
      by whitespace is what `trim` returns: the contract of Trim pins its result down. */
  lemma TrimUnique(s: string, r: string, a: int)
    requires r != [] && IsTrimmed(r) && StripsOnlyWhitespace(s, r, a)
    ensures Trim(s) == r
  {
  }
}
