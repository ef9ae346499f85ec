/** The pieces of Go's `strings` package (and the one regular expression) that the
    router relies on, specified over `string` = `seq<char>`. */
module GoStrings {

  /** `unicode.IsSpace`: the Latin-1 white space characters and the Unicode
      space separators. */
  predicate IsSpace(c: char) {
    c == ' ' || c == '\t' || c == '\n' || c == '\r' || c == '\U{000B}' || c == '\U{000C}'
    || c == '\U{0085}' || c == '\U{00A0}' || c == '\U{1680}'
    || ('\U{2000}' <= c <= '\U{200A}')
    || c == '\U{2028}' || c == '\U{2029}' || c == '\U{202F}' || c == '\U{205F}' || c == '\U{3000}'
  }

  /** Drops leading white space: what is left is a suffix of `s` that does not
      start with a space, and everything dropped was space. */
  function TrimLeft(s: string): (r: string)
    ensures |r| <= |s| && r == s[|s| - |r|..]
    ensures r == "" || !IsSpace(r[0])
    ensures forall i :: 0 <= i < |s| - |r| ==> IsSpace(s[i])
    decreases |s|
  {
    if |s| > 0 && IsSpace(s[0]) then TrimLeft(s[1..]) else s
  }

  /** Drops trailing white space: what is left is a prefix of `s` that does not
      end in a space, and everything dropped was space. */
  function TrimRight(s: string): (r: string)
    ensures |r| <= |s| && r == s[..|r|]
    ensures r == "" || !IsSpace(r[|r| - 1])
    ensures forall i :: |r| <= i < |s| ==> IsSpace(s[i])
    decreases |s|
  {
    if |s| > 0 && IsSpace(s[|s| - 1]) then TrimRight(s[..|s| - 1]) else s
  }

  /** `strings.TrimSpace`. */
  function TrimSpace(s: string): (r: string)
    ensures |r| <= |s|
    ensures r == "" || (!IsSpace(r[0]) && !IsSpace(r[|r| - 1]))
  {
    TrimRight(TrimLeft(s))
  }

  /** `strings.TrimSpace` removes the white space at both ends and nothing else:
      the result is a contiguous slice of the input, everything before and after
      it is white space, and it neither starts nor ends with white space. */
  lemma TrimSpaceSlice(s: string)
    ensures var k := |s| - |TrimLeft(s)|;
      && k + |TrimSpace(s)| <= |s|
      && TrimSpace(s) == s[k..k + |TrimSpace(s)|]
      && (forall i :: 0 <= i < k ==> IsSpace(s[i]))
      && (forall i :: k + |TrimSpace(s)| <= i < |s| ==> IsSpace(s[i]))
    ensures TrimSpace(s) == "" || (!IsSpace(TrimSpace(s)[0]) && !IsSpace(TrimSpace(s)[|TrimSpace(s)| - 1]))
  {
    var l := TrimLeft(s);
    var r := TrimRight(l);
    var k := |s| - |l|;
    assert l == s[k..];
    assert r == l[..|r|] == s[k..k + |r|];
    forall i | k + |r| <= i < |s| ensures IsSpace(s[i]) {
      assert s[i] == l[i - k];
    }
  }

  /** A string with no white space at either end is its own trimmed form. */
  lemma TrimSpaceKeeps(s: string)
    requires s == "" || (!IsSpace(s[0]) && !IsSpace(s[|s| - 1]))
    ensures TrimSpace(s) == s
  {
  }

  /** Trimming twice is trimming once. */
  lemma TrimSpaceIdempotent(s: string)
    ensures TrimSpace(TrimSpace(s)) == TrimSpace(s)
  {
    TrimSpaceKeeps(TrimSpace(s));
  }

  /** The regular expression `^[A-Z]+$`: one or more upper-case ASCII letters. */
  predicate IsUpperToken(m: string) {
    |m| > 0 && forall i :: 0 <= i < |m| ==> 'A' <= m[i] <= 'Z'
  }

  /** An upper-case method token is unchanged by `TrimSpace`. */
  lemma UpperTokenTrimmed(m: string)
    requires IsUpperToken(m)
    ensures TrimSpace(m) == m
  {
    assert !IsSpace(m[0]) && !IsSpace(m[|m| - 1]);
    TrimSpaceKeeps(m);
  }

  /** `strings.ContainsAny`: some character of `s` occurs in `chars`. */
  predicate ContainsAny(s: string, chars: string) {
    exists i :: 0 <= i < |s| && s[i] in chars
  }

  /** `strings.Join`: the elements with `sep` between consecutive ones. */
  function Join(elems: seq<string>, sep: string): string
    decreases |elems|
  {
    if |elems| == 0 then ""
    else if |elems| == 1 then elems[0]
    else elems[0] + sep + Join(elems[1..], sep)
  }

  /** Joining no elements gives ""; otherwise the result ends with the last one. */
  lemma {:induction false} JoinEndsWithLast(elems: seq<string>, sep: string)
    ensures |elems| == 0 ==> Join(elems, sep) == ""
    ensures |elems| > 0 ==>
      && |Join(elems, sep)| >= |elems[|elems| - 1]|
      && Join(elems, sep)[|Join(elems, sep)| - |elems[|elems| - 1]|..] == elems[|elems| - 1]
    decreases |elems|
  {
    if |elems| > 1 {
      JoinEndsWithLast(elems[1..], sep);
      var last := elems[|elems| - 1];
      assert elems[1..][|elems[1..]| - 1] == last;
      var tail := Join(elems[1..], sep);
      assert Join(elems, sep) == (elems[0] + sep) + tail;
      assert Join(elems, sep)[|Join(elems, sep)| - |last|..] == tail[|tail| - |last|..];
    }
  }
}
