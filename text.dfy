/** The three JavaScript string built-ins the chat front-end relies on:
    `String.prototype.trim`, `String.prototype.startsWith` and
    `Array.prototype.join`, over strings as sequences of characters. */
module Text {

  /** The characters `trim` strips: the WhiteSpace and LineTerminator
      productions of ECMAScript (tab, line feed, vertical tab, form feed,
      carriage return, space, no-break space, the Zs space separators,
      line and paragraph separators, and the byte-order mark). */
  predicate IsWhiteSpace(c: char) {
    var n := c as int;
    (0x09 <= n <= 0x0D) || n == 0x20 || n == 0xA0 || n == 0x1680 ||
    (0x2000 <= n <= 0x200A) || n == 0x2028 || n == 0x2029 ||
    n == 0x202F || n == 0x205F || n == 0x3000 || n == 0xFEFF
  }

  /** Every character of `s` is white space (the empty string included). */
  predicate IsBlank(s: string) {
    forall i :: 0 <= i < |s| ==> IsWhiteSpace(s[i])
  }

  /** Drops the leading white space: the result is the suffix left after the
      longest all-white-space prefix. */
  function TrimStart(s: string): (r: string)
    ensures |r| <= |s| && r == s[|s| - |r|..]
    ensures forall i :: 0 <= i < |s| - |r| ==> IsWhiteSpace(s[i])
    ensures r == [] || !IsWhiteSpace(r[0])
    decreases |s|
  {
    if |s| > 0 && IsWhiteSpace(s[0]) then TrimStart(s[1..]) else s
  }

  /** Drops the trailing white space: the result is the prefix left before the
      longest all-white-space suffix. */
  function TrimEnd(s: string): (r: string)
    ensures |r| <= |s| && r == s[..|r|]
    ensures forall i :: |r| <= i < |s| ==> IsWhiteSpace(s[i])
    ensures r == [] || !IsWhiteSpace(r[|r| - 1])
    decreases |s|
  {
    if |s| > 0 && IsWhiteSpace(s[|s| - 1]) then TrimEnd(s[..|s| - 1]) else s
  }

  /** JavaScript's `s.trim()`: a piece of `s` that neither starts nor ends
      with white space. */
  function Trim(s: string): (r: string)
    ensures |r| <= |s|
    ensures r == [] || (!IsWhiteSpace(r[0]) && !IsWhiteSpace(r[|r| - 1]))
    ensures exists k :: 0 <= k && k + |r| <= |s| && r == s[k..k + |r|] &&
                        IsBlank(s[..k]) && IsBlank(s[k + |r|..])
  {
    var t := TrimStart(s);
    var k := |s| - |t|;
    var r := TrimEnd(t);
    var head, tail := s[..k], s[k + |r|..];
    assert IsBlank(head) by {
      forall i | 0 <= i < |head|
        ensures IsWhiteSpace(head[i])
      {
        assert head[i] == s[i];
      }
    }
    assert IsBlank(tail) by {
      forall i | 0 <= i < |tail|
        ensures IsWhiteSpace(tail[i])
      {
        assert tail[i] == t[|r| + i];
      }
    }
    assert r == s[k..k + |r|];
    r
  }

  /** `!s.trim()` holds exactly when `s` consists of white space only. */
  lemma TrimEmptyIffBlank(s: string)
    ensures Trim(s) == "" <==> IsBlank(s)
  {
    var t := TrimStart(s);
    var k := |s| - |t|;
    if Trim(s) == "" {
      // TrimEnd kept nothing, so t is all white space; as t cannot start
      // with white space, t is empty and TrimStart dropped every character.
      assert t == [];
    } else {
      var r := Trim(s);
      assert !IsWhiteSpace(r[|r| - 1]);
      assert r[|r| - 1] == t[|r| - 1] == s[k + |r| - 1];
    }
  }

  /** JavaScript's `s.startsWith(prefix)`: `prefix` matches the first
      characters of `s` one by one. */
  predicate StartsWith(s: string, prefix: string)
    ensures StartsWith(s, prefix) <==>
      |prefix| <= |s| && forall i :: 0 <= i < |prefix| ==> s[i] == prefix[i]
  {
    |prefix| <= |s| && s[..|prefix|] == prefix
  }

  /** JavaScript's `!s.trim()`: trims, then tests for the empty string. */
  method TrimmedEmpty(s: string) returns (b: bool)
    ensures b <==> IsBlank(s)
  {
    var trimmed := Trim(s);
    TrimEmptyIffBlank(s);
    b := trimmed == "";
  }

  /** `startsWith` agrees with the reference definition "s is prefix followed
      by something". */
  lemma StartsWithIffConcat(s: string, prefix: string)
    ensures StartsWith(s, prefix) <==> exists rest :: s == prefix + rest
  {
    if StartsWith(s, prefix) {
      assert s == prefix + s[|prefix|..];
    }
  }

  /** JavaScript's `names.join(sep)`: empty for no names, the name itself
      for one, and otherwise a string that begins with the first name and
      ends with the last. */
  function Join(names: seq<string>, sep: string): (r: string)
    ensures names == [] ==> r == ""
    ensures |names| == 1 ==> r == names[0]
    ensures |names| > 0 ==> |names[0]| <= |r| && r[..|names[0]|] == names[0]
    ensures |names| > 0 ==> |names[|names| - 1]| <= |r| && r[|r| - |names[|names| - 1]|..] == names[|names| - 1]
  {
    if |names| == 0 then ""
    else if |names| == 1 then names[0]
    else names[0] + sep + Join(names[1..], sep)
  }

  /** Joining two non-empty lists is joining each and putting one separator
      between them. */
  lemma {:induction false} JoinAppend(xs: seq<string>, ys: seq<string>, sep: string)
    requires |xs| > 0 && |ys| > 0
    ensures Join(xs + ys, sep) == Join(xs, sep) + sep + Join(ys, sep)
  {
    if |xs| == 1 {
      assert (xs + ys)[1..] == ys;
    } else {
      assert (xs + ys)[1..] == xs[1..] + ys;
      JoinAppend(xs[1..], ys, sep);
    }
  }

  /** Appending one name adds the separator and that name at the end. */
  lemma JoinSnoc(xs: seq<string>, y: string, sep: string)
    requires |xs| > 0
    ensures Join(xs + [y], sep) == Join(xs, sep) + sep + y
  {
    JoinAppend(xs, [y], sep);
  }
}
