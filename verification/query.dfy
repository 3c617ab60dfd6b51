/** A reader of a URL's text: the query is what follows the first `?`, up to
    a `#` that starts the fragment; it is split on `&` into `key=value`
    pieces, and a key takes the value of the first piece that names it. No
    percent or `+` decoding is done. */
module Query {
  import opened Wrappers

  /** The text after the first `?`, fragment included, if the `?` comes
      before any `#`. */
  function QueryOf(url: string): (r: Option<string>)
    ensures '?' !in url ==> r.None?
    decreases |url|
  {
    if |url| == 0 || url[0] == '#' then None
    else if url[0] == '?' then Some(url[1..])
    else QueryOf(url[1..])
  }

  lemma {:induction false} QueryOfAfterPath(path: string, rest: string)
    requires '?' !in path && '#' !in path
    ensures QueryOf(path + "?" + rest) == Some(rest)
    decreases |path|
  {
    if |path| == 0 {
      assert path + "?" + rest == ['?'] + rest;
    } else {
      assert (path + "?" + rest)[1..] == path[1..] + "?" + rest;
      QueryOfAfterPath(path[1..], rest);
    }
  }

  /** `s` up to its first `#`: the part of a query a browser sends. */
  function StripFragment(s: string): (r: string)
    ensures r <= s && '#' !in r
    ensures '#' in s ==> |r| < |s| && s[|r|] == '#'
    ensures '#' !in s ==> r == s
    decreases |s|
  {
    if |s| == 0 || s[0] == '#' then "" else [s[0]] + StripFragment(s[1..])
  }

  lemma {:induction false} StripFragmentAfter(a: string, b: string)
    requires '#' !in a
    ensures StripFragment(a + b) == a + StripFragment(b)
    decreases |a|
  {
    if |a| == 0 {
      assert a + b == b;
    } else {
      assert (a + b)[1..] == a[1..] + b;
      StripFragmentAfter(a[1..], b);
      assert [a[0]] + a[1..] == a;
    }
  }

  /** `s` cut at every `sep`; there is always at least one piece. */
  function Split(s: string, sep: char): (r: seq<string>)
    ensures |r| >= 1
    decreases |s|
  {
    if |s| == 0 then [""]
    else
      var rest := Split(s[1..], sep);
      if s[0] == sep then [""] + rest else [[s[0]] + rest[0]] + rest[1..]
  }

  lemma {:induction false} SplitWithoutSep(s: string, sep: char)
    requires sep !in s
    ensures Split(s, sep) == [s]
    decreases |s|
  {
    if |s| != 0 {
      SplitWithoutSep(s[1..], sep);
      assert [s[0]] + s[1..] == s;
    }
  }

  lemma {:induction false} SplitAtFirst(a: string, b: string, sep: char)
    requires sep !in a
    ensures Split(a + [sep] + b, sep) == [a] + Split(b, sep)
    decreases |a|
  {
    if |a| == 0 {
      assert a + [sep] + b == [sep] + b;
      assert ([sep] + b)[1..] == b;
    } else {
      assert (a + [sep] + b)[1..] == a[1..] + [sep] + b;
      SplitAtFirst(a[1..], b, sep);
      assert [a[0]] + a[1..] == a;
    }
  }

  /** The position of the first character of `s` that is one of `stops`. */
  function FirstIn(s: string, stops: set<char>): (i: nat)
    requires exists k :: 0 <= k < |s| && s[k] in stops
    ensures i < |s| && s[i] in stops
    ensures forall k :: 0 <= k < i ==> s[k] !in stops
    decreases |s|
  {
    if s[0] in stops then 0
    else
      assert exists k :: 0 <= k < |s[1..]| && s[1..][k] in stops by {
        var k :| 0 <= k < |s| && s[k] in stops;
        assert s[1..][k - 1] in stops;
      }
      1 + FirstIn(s[1..], stops)
  }

  /** The value of the first piece of the form `key=value`. */
  function Lookup(pieces: seq<string>, key: string): (r: Option<string>)
    ensures r.Some? ==> exists k :: 0 <= k < |pieces| && pieces[k] == key + "=" + r.value
    ensures (forall k :: 0 <= k < |pieces| ==> !(key + "=" <= pieces[k])) ==> r.None?
  {
    if |pieces| == 0 then None
    else if key + "=" <= pieces[0] then
      assert pieces[0] == key + "=" + pieces[0][|key| + 1..];
      Some(pieces[0][|key| + 1..])
    else
      var r := Lookup(pieces[1..], key);
      if r.Some? then
        var k :| 0 < k + 1 < |pieces| && pieces[1..][k] == key + "=" + r.value;
        assert pieces[k + 1] == key + "=" + r.value;
        r
      else r
  }

  /** A value that the reader gives back unchanged: no `&` to end it early,
      no `#` to start a fragment. */
  predicate Plain(v: string)
  {
    '&' !in v && '#' !in v
  }

  /** The value read for `key` from the text of `url`. */
  function Param(url: string, key: string): Option<string>
  {
    match QueryOf(url)
    case None => None
    case Some(q) => Lookup(Split(StripFragment(q), '&'), key)
  }

  /** A URL whose path has no `?` or `#` is read by its query alone. */
  lemma ParamAfterPath(path: string, query: string, key: string)
    requires '?' !in path && '#' !in path
    ensures Param(path + "?" + query, key) == Lookup(Split(StripFragment(query), '&'), key)
  {
    QueryOfAfterPath(path, query);
  }

  /** A leading `key=value` piece gives the key its value. */
  lemma LookupFirst(value: string, rest: seq<string>, key: string)
    ensures Lookup([key + "=" + value] + rest, key) == Some(value)
  {
  }

  /** A piece that does not start with `key=` is skipped. */
  lemma LookupSkip(piece: string, rest: seq<string>, key: string)
    requires !(key + "=" <= piece)
    ensures Lookup([piece] + rest, key) == Lookup(rest, key)
  {
  }

  lemma NoSepInConcat(a: string, b: string, sep: char)
    requires sep !in a && sep !in b
    ensures sep !in a + b
  {
  }

  /** A `key=value` piece cut by a `#`: the fragment is not read. */
  lemma ReadBeforeFragment(path: string, piece: string, key: string, value: string, tail: string)
    requires '?' !in path && '#' !in path
    requires piece == key + "=" + value && Plain(piece)
    ensures Param(path + "?" + (piece + "#" + tail), key) == Some(value)
  {
    var url := path + "?" + (piece + "#" + tail);
    ParamAfterPath(path, piece + "#" + tail, key);
    assert Param(url, key) == Lookup(Split(StripFragment(piece + "#" + tail), '&'), key);
    FragmentStripped(piece, tail);
    assert StripFragment(piece + "#" + tail) == piece;
    SplitWithoutSep(piece, '&');
    assert Split(piece, '&') == [key + "=" + value] + [];
    LookupFirst(value, [], key);
  }

  /** A `key=value` piece cut by an `&`: what follows is another parameter. */
  lemma ReadBeforeSeparator(path: string, piece: string, key: string, value: string, tail: string)
    requires '?' !in path && '#' !in path
    requires piece == key + "=" + value && Plain(piece)
    ensures Param(path + "?" + (piece + "&" + tail), key) == Some(value)
  {
    ParamAfterPath(path, piece + "&" + tail, key);
    StripFragmentAfter(piece + "&", tail);
    SplitAtFirst(piece, StripFragment(tail), '&');
    LookupFirst(value, Split(StripFragment(tail), '&'), key);
  }

  /** Everything from a `#` on is dropped. */
  lemma FragmentStripped(piece: string, tail: string)
    requires '#' !in piece
    ensures StripFragment(piece + "#" + tail) == piece
  {
    assert piece + "#" + tail == piece + ("#" + tail);
    StripFragmentAfter(piece, "#" + tail);
    assert StripFragment("#" + tail) == "";
  }
}
