/** The checks the components run before calling the store: the
    `isNaN(amount) || amount <= 0` test on a parsed number, and the
    `!name.trim()` test on a category name. */
module InputGuards {
  import opened BudgetTypes

  /** A parsed amount passes the guard: not NaN (`None`) and strictly positive. */
  predicate AcceptsAmount(parsed: Option<real>)
  {
    parsed.Some? && parsed.value > 0.0
  }

  /** The characters `String.prototype.trim` strips: ECMAScript white space
      (tab, vertical tab, form feed, the byte order mark and every space
      separator) and line terminators. */
  predicate IsTrimmable(c: char)
  {
    var n := c as int;
    || n == 0x09 || n == 0x0A || n == 0x0B || n == 0x0C || n == 0x0D
    || n == 0x20 || n == 0xA0 || n == 0x1680 || (0x2000 <= n <= 0x200A)
    || n == 0x2028 || n == 0x2029 || n == 0x202F || n == 0x205F || n == 0x3000 || n == 0xFEFF
  }

  /** Strips leading trimmable characters: the result is the longest suffix
      that does not start with one. */
  function TrimStart(s: string): (r: string)
    ensures |r| <= |s| && r == s[|s| - |r|..]
    ensures forall k :: 0 <= k < |s| - |r| ==> IsTrimmable(s[k])
    ensures r != [] ==> !IsTrimmable(r[0])
  {
    if s != [] && IsTrimmable(s[0]) then
      var r := TrimStart(s[1..]);
      assert s[1..][|s| - 1 - |r|..] == s[|s| - |r|..];
      assert forall k :: 1 <= k < |s| - |r| ==> s[k] == s[1..][k - 1];
      r
    else s
  }

  /** Strips trailing trimmable characters: the result is the longest prefix
      that does not end with one. */
  function TrimEnd(s: string): (r: string)
    ensures |r| <= |s| && r == s[..|r|]
    ensures forall k :: |r| <= k < |s| ==> IsTrimmable(s[k])
    ensures r != [] ==> !IsTrimmable(r[|r| - 1])
  {
    if s != [] && IsTrimmable(s[|s| - 1]) then
      var r := TrimEnd(s[..|s| - 1]);
      assert s[..|s| - 1][..|r|] == s[..|r|];
      assert forall k :: |r| <= k < |s| - 1 ==> s[k] == s[..|s| - 1][k];
      r
    else s
  }

  /** `r` is the slice of `s` starting at `a`, and it keeps every character of
      `s` that is not trimmable. */
  predicate TrimmedSliceAt(s: string, r: string, a: int)
  {
    && 0 <= a <= |s| - |r|
    && r == s[a..a + |r|]
    && forall k :: 0 <= k < |s| && !IsTrimmable(s[k]) ==> a <= k < a + |r|
  }

  /** Dropping trimmable characters from the front of `s` (leaving `t`) and
      then from the back of `t` (leaving `r`) leaves a slice of `s` that keeps
      every character that is not trimmable. */
  lemma TrimIsSlice(s: string, t: string, r: string)
    requires |t| <= |s| && t == s[|s| - |t|..]
    requires forall k :: 0 <= k < |s| - |t| ==> IsTrimmable(s[k])
    requires |r| <= |t| && r == t[..|r|]
    requires forall k :: |r| <= k < |t| ==> IsTrimmable(t[k])
    ensures TrimmedSliceAt(s, r, |s| - |t|)
  {
    var a := |s| - |t|;
    assert r == s[a..a + |r|];
  }

  function Trim(s: string): (r: string)
    ensures r == [] <==> forall k :: 0 <= k < |s| ==> IsTrimmable(s[k])
    ensures r != [] ==> !IsTrimmable(r[0]) && !IsTrimmable(r[|r| - 1])
    ensures |r| <= |s|
    ensures exists a :: TrimmedSliceAt(s, r, a)
  {
    var t := TrimStart(s);
    var r := TrimEnd(t);
    TrimIsSlice(s, t, r);
    // Whatever TrimEnd leaves of a non-empty t starts with t's first, non-trimmable character.
    assert r == [] ==> t == [];
    assert (forall k :: 0 <= k < |s| ==> IsTrimmable(s[k])) ==> t == [];
    r
  }

  /** `!name.trim()`: the name is empty once trimmed. */
  predicate IsBlankName(name: string)
  {
    Trim(name) == []
  }
}
