/**
 * The JavaScript string primitives the core relies on: `String.prototype.trim`
 * (used as "is the input blank?") and `String.prototype.includes`.
 * Strings are sequences of Unicode scalar values; JavaScript's UTF-16 code
 * units are not modelled.
 */
module Text {

  /** The characters `trim` removes: ECMAScript WhiteSpace and LineTerminator. */
  predicate IsJsSpace(c: char)
  {
    var n := c as int;
    n == 0x09 || n == 0x0A || n == 0x0B || n == 0x0C || n == 0x0D || n == 0x20 ||
    n == 0xA0 || n == 0x1680 || (0x2000 <= n <= 0x200A) || n == 0x2028 ||
    n == 0x2029 || n == 0x202F || n == 0x205F || n == 0x3000 || n == 0xFEFF
  }

  /** Every character of `s` is white space (the empty string included). */
  predicate IsBlank(s: string)
  {
    forall i :: 0 <= i < |s| ==> IsJsSpace(s[i])
  }

  /** `s` with its leading white space removed: what is cut is blank, what is kept starts visibly. */
  function TrimStart(s: string): (r: string)
    ensures |r| <= |s| && r == s[|s| - |r|..]
    ensures IsBlank(s[..|s| - |r|])
    ensures r == [] || !IsJsSpace(r[0])
  {
    if s != [] && IsJsSpace(s[0]) then
      var r := TrimStart(s[1..]);
      var cut, inner := s[..|s| - |r|], s[1..][..|s| - 1 - |r|];
      assert forall i :: 1 <= i < |cut| ==> cut[i] == inner[i - 1];
      r
    else s
  }

  /** `s` with its trailing white space removed: what is cut is blank, what is kept ends visibly. */
  function TrimEnd(s: string): (r: string)
    ensures |r| <= |s| && r == s[..|r|]
    ensures IsBlank(s[|r|..])
    ensures r == [] || !IsJsSpace(r[|r| - 1])
  {
    if s != [] && IsJsSpace(s[|s| - 1]) then
      var r := TrimEnd(s[..|s| - 1]);
      var cut, inner := s[|r|..], s[..|s| - 1][|r|..];
      assert forall i :: 0 <= i < |inner| ==> cut[i] == inner[i];
      r
    else s
  }

  /** The trimmed text sits at `i` in `s`, with blank text on both sides of it. */
  predicate TrimmedAt(s: string, r: string, i: nat)
    requires i + |r| <= |s|
  {
    s[i..i + |r|] == r && IsBlank(s[..i]) && IsBlank(s[i + |r|..])
  }

  /** `s.trim()`: white space removed at both ends (see `TrimInfix` for what is removed). */
  function Trim(s: string): (r: string)
    ensures |r| <= |s|
    ensures r == [] || (!IsJsSpace(r[0]) && !IsJsSpace(r[|r| - 1]))
  {
    var t := TrimStart(s);
    var r := TrimEnd(t);
    assert r != [] ==> r[0] == t[0];
    r
  }

  /** The trimmed text is a slice of `s` with only white space cut away on either side. */
  lemma TrimInfix(s: string)
    ensures exists i: nat :: i + |Trim(s)| <= |s| && TrimmedAt(s, Trim(s), i)
  {
    var t := TrimStart(s);
    var r := TrimEnd(t);
    var i: nat := |s| - |t|;
    assert Trim(s) == r;
    assert s[i..i + |r|] == r;
    assert s[i + |r|..] == t[|r|..];
    assert TrimmedAt(s, r, i);
  }

  /** A string is blank exactly when its first character is white space and the rest is blank. */
  lemma BlankCons(s: string)
    requires s != []
    ensures IsBlank(s) <==> IsJsSpace(s[0]) && IsBlank(s[1..])
  {
    if IsJsSpace(s[0]) && IsBlank(s[1..]) {
      forall i | 0 <= i < |s| ensures IsJsSpace(s[i]) {
        if i > 0 { assert s[i] == s[1..][i - 1]; }
      }
    }
    if IsBlank(s) {
      forall i | 0 <= i < |s| - 1 ensures IsJsSpace(s[1..][i]) {
        assert s[1..][i] == s[i + 1];
      }
    }
  }

  lemma {:induction false} TrimStartEmptyIffBlank(s: string)
    ensures TrimStart(s) == [] <==> IsBlank(s)
  {
    if s != [] {
      TrimStartEmptyIffBlank(s[1..]);
      BlankCons(s);
    }
  }

  lemma {:induction false} TrimEndKeepsNonSpaceHead(s: string)
    requires s != [] && !IsJsSpace(s[0])
    ensures TrimEnd(s) != []
  {
    if IsJsSpace(s[|s| - 1]) {
      TrimEndKeepsNonSpaceHead(s[..|s| - 1]);
    }
  }

  /** `s.trim() === ""` holds exactly when `s` is made of white space only. */
  lemma TrimEmptyIffBlank(s: string)
    ensures Trim(s) == [] <==> IsBlank(s)
  {
    TrimStartEmptyIffBlank(s);
    var t := TrimStart(s);
    if t != [] {
      TrimEndKeepsNonSpaceHead(t);
    }
  }

  /** Text that starts with a visible character is not blank. */
  lemma VisibleStartNotBlank(s: string)
    requires s != [] && !IsJsSpace(s[0])
    ensures Trim(s) != []
  {
    TrimEndKeepsNonSpaceHead(s);
  }

  /** `t` occurs in `s` starting at index `i`. */
  predicate MatchAt(s: string, t: string, i: nat)
    requires i + |t| <= |s|
  {
    s[i..i + |t|] == t
  }

  /** `s.includes(t)`: the empty text is in every string, and no string holds a longer one. */
  function Contains(s: string, t: string): (b: bool)
    ensures t == [] ==> b
    ensures b ==> |t| <= |s|
  {
    assert t == [] ==> MatchAt(s, t, 0);
    exists i: nat :: i + |t| <= |s| && MatchAt(s, t, i)
  }

  lemma ContainsInfix(a: string, t: string, b: string)
    ensures Contains(a + t + b, t)
  {
    var s := a + t + b;
    assert s[|a|..|a| + |t|] == t;
    assert MatchAt(s, t, |a|);
  }
}
