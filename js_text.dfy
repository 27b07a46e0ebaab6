/**
 * The JavaScript string built-ins the transpiler relies on: `Array.prototype.join`,
 * `String.prototype.trim`, `String.prototype.replace` with a one-character pattern,
 * the interpolation of `undefined` into a template literal, and the regular
 * expression `/.*Store\b/` used to recognise store handles.
 */
module JsText {
  import opened Base

  /** `xs.join(sep)` */
  function Join(sep: string, xs: seq<string>): string
  {
    if |xs| == 0 then ""
    else if |xs| == 1 then xs[0]
    else Join(sep, xs[..|xs| - 1]) + sep + xs[|xs| - 1]
  }

  /**
   * Regrouping a concatenation. Calling it spares the solver an element-wise comparison
   * of two long texts.
   */
  lemma ConcatAssoc(a: string, b: string, c: string)
    ensures a + (b + c) == a + b + c
  {
  }

  /** A prefix of a text is a prefix of any extension of it. */
  lemma PrefixOfLonger(p: string, a: string, b: string)
    requires p <= a
    ensures p <= a + b
  {
    assert (a + b)[..|p|] == a[..|p|];
  }

  /** Joining one more element adds exactly one separator, before it. */
  lemma JoinSnoc(sep: string, xs: seq<string>, x: string)
    requires |xs| > 0
    ensures Join(sep, xs + [x]) == Join(sep, xs) + sep + x
  {
    assert (xs + [x])[..|xs|] == xs;
  }

  /** Joining splits at any non-empty concatenation point. */
  lemma {:induction false} JoinAppend(sep: string, xs: seq<string>, ys: seq<string>)
    requires |xs| > 0 && |ys| > 0
    ensures Join(sep, xs + ys) == Join(sep, xs) + sep + Join(sep, ys)
    decreases |ys|
  {
    if |ys| == 1 {
      JoinSnoc(sep, xs, ys[0]);
      assert ys == [ys[0]];
    } else {
      var ys' := ys[..|ys| - 1];
      var y := ys[|ys| - 1];
      assert ys == ys' + [y];
      assert xs + ys == (xs + ys') + [y];
      JoinAppend(sep, xs, ys');
      JoinSnoc(sep, xs + ys', y);
      JoinSnoc(sep, ys', y);
    }
  }

  /** A non-empty join starts with its first element. */
  lemma {:induction false} JoinStartsWithFirst(sep: string, xs: seq<string>)
    requires |xs| > 0
    ensures xs[0] <= Join(sep, xs)
  {
    if |xs| > 1 {
      var init := xs[..|xs| - 1];
      JoinStartsWithFirst(sep, init);
      var j := Join(sep, init);
      assert (j + sep + xs[|xs| - 1])[..|xs[0]|] == j[..|xs[0]|];
    }
  }

  /** Interpolating a possibly-undefined value into a template literal: `${v}`. */
  function Interp(v: Option<string>): (r: string)
    ensures v.None? ==> r == "undefined"
    ensures v.Some? ==> r == v.value
  {
    match v
    case None => "undefined"
    case Some(s) => s
  }

  /** The characters `String.prototype.trim` removes: WhiteSpace and LineTerminator. */
  predicate IsJsSpace(c: char)
  {
    c == ' ' || c == '\t' || c == '\n' || c == '\r' || c == '\U{000B}' || c == '\U{000C}'
    || c == '\U{00A0}' || c == '\U{1680}' || ('\U{2000}' <= c <= '\U{200A}')
    || c == '\U{2028}' || c == '\U{2029}' || c == '\U{202F}' || c == '\U{205F}'
    || c == '\U{3000}' || c == '\U{FEFF}'
  }

  predicate AllSpace(s: string)
  {
    forall i :: 0 <= i < |s| ==> IsJsSpace(s[i])
  }

  /** Drops leading white space. */
  function TrimStart(s: string): (r: string)
    ensures |r| <= |s| && r == s[|s| - |r|..]
    ensures AllSpace(s[..|s| - |r|])
    ensures r == [] || !IsJsSpace(r[0])
  {
    if |s| > 0 && IsJsSpace(s[0]) then
      var r := TrimStart(s[1..]);
      var k := |s| - |r|;
      assert s[1..][k - 1..] == s[k..];
      assert forall i :: 1 <= i < k ==> s[..k][i] == s[1..][..k - 1][i - 1];
      r
    else s
  }

  /** Drops trailing white space. */
  function TrimEnd(s: string): (r: string)
    ensures |r| <= |s| && r == s[..|r|]
    ensures AllSpace(s[|r|..])
    ensures r == [] || !IsJsSpace(r[|r| - 1])
  {
    if |s| > 0 && IsJsSpace(s[|s| - 1]) then
      var r := TrimEnd(s[..|s| - 1]);
      assert s[..|s| - 1][..|r|] == s[..|r|];
      assert forall i :: 0 <= i < |s| - 1 - |r| ==> s[|r|..][i] == s[..|s| - 1][|r|..][i];
      r
    else s
  }

  /** `s.trim()`: leading and trailing white space removed. */
  function Trim(s: string): (r: string)
    ensures |r| <= |s|
    ensures r == [] || (!IsJsSpace(r[0]) && !IsJsSpace(r[|r| - 1]))
  {
    TrimEnd(TrimStart(s))
  }

  /** What `trim` removes is white space, on both sides of an infix of the input. */
  lemma TrimInfix(s: string)
    ensures exists i :: 0 <= i <= |s| - |Trim(s)| && Trim(s) == s[i..i + |Trim(s)|]
              && AllSpace(s[..i]) && AllSpace(s[i + |Trim(s)|..])
  {
    var a := TrimStart(s);
    var r := TrimEnd(a);
    var i := |s| - |a|;
    assert a[..|r|] == s[i..i + |r|];
    assert a[|r|..] == s[i + |r|..];
    assert 0 <= i <= |s| - |r| && r == s[i..i + |r|] && AllSpace(s[..i]) && AllSpace(s[i + |r|..]);
  }

  /** `s.indexOf(c)`: the first index holding `c`, or -1. */
  function IndexOf(s: string, c: char): (r: int)
    ensures -1 <= r < |s|
    ensures r == -1 <==> c !in s
    ensures r >= 0 ==> s[r] == c && c !in s[..r]
  {
    if |s| == 0 then -1
    else if s[0] == c then 0
    else
      var r' := IndexOf(s[1..], c);
      if r' == -1 then -1
      else
        assert s[..r' + 1] == [s[0]] + s[1..][..r'];
        r' + 1
  }

  /** `s.replace(c, '')` with a one-character string pattern: only the FIRST occurrence goes. */
  function RemoveFirst(s: string, c: char): (r: string)
  {
    var i := IndexOf(s, c);
    if i < 0 then s else s[..i] + s[i + 1..]
  }

  /** Without the character the text is unchanged; otherwise exactly its first occurrence is gone. */
  lemma RemoveFirstSpec(s: string, c: char)
    ensures c !in s ==> RemoveFirst(s, c) == s
    ensures c in s ==> exists i :: 0 <= i < |s| && s[i] == c && c !in s[..i]
                        && RemoveFirst(s, c) == s[..i] + s[i + 1..]
  {
    if c in s {
      var i := IndexOf(s, c);
      assert 0 <= i < |s| && s[i] == c && c !in s[..i];
    }
  }

  /** An ASCII word character, the class `\b` is defined by (no `u` flag). */
  predicate IsWordChar(c: char)
  {
    ('a' <= c <= 'z') || ('A' <= c <= 'Z') || ('0' <= c <= '9') || c == '_'
  }

  /** `Store` occurs at index `i` and is followed by a word boundary. */
  predicate StoreAt(s: string, i: int)
  {
    0 <= i && i + 5 <= |s| && s[i..i + 5] == "Store" && (i + 5 == |s| || !IsWordChar(s[i + 5]))
  }

  /** `/.*Store\b/.test(s)`, run as a left-to-right scan. */
  predicate MatchesStorePattern(s: string)
  {
    |s| >= 5 && (StoreAt(s, 0) || MatchesStorePattern(s[1..]))
  }

  /** The scan succeeds exactly when some occurrence of `Store` ends at a word boundary. */
  lemma {:induction false} MatchesStorePatternIff(s: string)
    ensures MatchesStorePattern(s) <==> exists i :: StoreAt(s, i)
  {
    if |s| >= 5 {
      MatchesStorePatternIff(s[1..]);
      if exists i :: StoreAt(s[1..], i) {
        var i :| StoreAt(s[1..], i);
        assert s[i + 1..i + 6] == s[1..][i..i + 5];
        assert StoreAt(s, i + 1);
      }
      if exists i :: StoreAt(s, i) {
        var i :| StoreAt(s, i);
        if i > 0 {
          assert s[1..][i - 1..i + 4] == s[i..i + 5];
          assert StoreAt(s[1..], i - 1);
        }
      }
    }
  }
}
