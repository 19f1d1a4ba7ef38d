/**
 * Reading one parameter of a link's query string, as `useSearchParams().get(name)` does in
 * src/pages/Shop.jsx. The query is the text after the first `?` and before any `#`. It is
 * split at `&`, and empty pieces are skipped. Each piece is split at its first `=`, and a
 * piece without one is a name with an empty value. In both halves `+` reads as a space and
 * `%XX` is the character with that code. The first pair with the wanted name gives the value.
 */
module Url {
  import opened Wrappers
  import opened Text
  import Seqs

  /** The position of the first `c` in `s`, or `|s|` when there is none. */
  function IndexOf(s: string, c: char): (r: nat)
    ensures r <= |s|
    ensures forall i :: 0 <= i < r ==> s[i] != c
    ensures r < |s| ==> s[r] == c
  {
    if |s| == 0 || s[0] == c then 0 else 1 + IndexOf(s[1..], c)
  }

  /** The first `c` in `a + [c] + b`, when `a` holds none, is the one after `a`. */
  lemma IndexOfAfter(a: string, c: char, b: string)
    requires c !in a
    ensures IndexOf(a + [c] + b, c) == |a|
  {
    var s := a + [c] + b;
    assert s[|a|] == c;
    assert forall i :: 0 <= i < |a| ==> s[i] == a[i];
  }

  lemma IndexOfNone(s: string, c: char)
    requires c !in s
    ensures IndexOf(s, c) == |s|
  {
  }

  /** `location.search` without its `?`: the text between the first `?` and the first `#`. */
  function Query(url: string): (r: string)
    ensures '#' !in r
    ensures |r| <= |url|
  {
    var beforeHash := url[..IndexOf(url, '#')];
    var q := IndexOf(beforeHash, '?');
    if q == |beforeHash| then "" else beforeHash[q + 1..]
  }

  /** The query of `path?query` is `query`, when the path holds no `?` and neither holds a `#`. */
  lemma QueryOf(path: string, query: string)
    requires '?' !in path && '#' !in path && '#' !in query
    ensures Query(path + "?" + query) == query
  {
    var url := path + "?" + query;
    IndexOfNone(url, '#');
    assert url[..|url|] == url;
    assert url == path + ['?'] + query;
    IndexOfAfter(path, '?', query);
    assert url[|path| + 1..] == query;
  }

  /** The pieces put back together with `c` between them. */
  function Join(pieces: seq<string>, c: char): string
    requires |pieces| > 0
  {
    if |pieces| == 1 then pieces[0] else pieces[0] + [c] + Join(pieces[1..], c)
  }

  /** `s.split(c)`: the pieces between the occurrences of `c`, in order. */
  function Split(s: string, c: char): (r: seq<string>)
    ensures |r| > 0
    ensures forall i :: 0 <= i < |r| ==> c !in r[i]
    ensures Join(r, c) == s
    decreases |s|
  {
    var i := IndexOf(s, c);
    if i == |s| then
      [s]
    else
      var rest := Split(s[i + 1..], c);
      var r := [s[..i]] + rest;
      assert r[1..] == rest;
      assert s == s[..i] + [c] + s[i + 1..];
      r
  }

  /** Splitting at a first separator yields the part before it, then the pieces of the rest. */
  lemma SplitCons(a: string, c: char, b: string)
    requires c !in a
    ensures Split(a + [c] + b, c) == [a] + Split(b, c)
  {
    var s := a + [c] + b;
    IndexOfAfter(a, c, b);
    assert s[..|a|] == a && s[|a| + 1..] == b;
  }

  lemma SplitNone(s: string, c: char)
    requires c !in s
    ensures Split(s, c) == [s]
  {
    IndexOfNone(s, c);
  }

  /** Form decoding: `+` is a space and `%XX` the character with code XX; all else is kept. */
  function Decode(s: string): (r: string)
    ensures |r| <= |s|
    ensures '%' !in s && '+' !in s ==> r == s
  {
    if |s| == 0 then ""
    else if s[0] == '+' then " " + Decode(s[1..])
    else if s[0] == '%' && |s| >= 3 && IsHexDigit(s[1]) && IsHexDigit(s[2]) then
      [(16 * HexDigitValue(s[1]) + HexDigitValue(s[2])) as char] + Decode(s[3..])
    else
      assert '%' !in s && '+' !in s ==> '%' !in s[1..] && '+' !in s[1..];
      [s[0]] + Decode(s[1..])
  }

  /** One piece, split at its first `=` and decoded; no `=` means an empty value. */
  function ParsePair(piece: string): (string, string) {
    var i := IndexOf(piece, '=');
    if i == |piece| then (Decode(piece), "") else (Decode(piece[..i]), Decode(piece[i + 1..]))
  }

  /** A `name=value` piece whose name holds no `=` parses to the decoded name and value. */
  lemma ParsePairOf(name: string, value: string)
    requires '=' !in name
    ensures ParsePair(name + "=" + value) == (Decode(name), Decode(value))
  {
    var piece := name + "=" + value;
    assert piece == name + ['='] + value;
    IndexOfAfter(name, '=', value);
    assert piece[..|name|] == name && piece[|name| + 1..] == value;
  }

  /** The name/value pairs of the non-empty pieces, in order. */
  function PairsOf(pieces: seq<string>): (r: seq<(string, string)>)
    ensures |r| <= |pieces|
  {
    if |pieces| == 0 then []
    else if pieces[0] == "" then PairsOf(pieces[1..])
    else [ParsePair(pieces[0])] + PairsOf(pieces[1..])
  }

  /** The name/value list of a query. */
  function Pairs(query: string): seq<(string, string)> {
    PairsOf(Split(query, '&'))
  }

  /** A non-empty first piece gives the first pair, and the rest of the query the others. */
  lemma PairsCons(piece: string, rest: string)
    requires '&' !in piece && piece != ""
    ensures Pairs(piece + "&" + rest) == [ParsePair(piece)] + Pairs(rest)
  {
    assert piece + "&" + rest == piece + ['&'] + rest;
    SplitCons(piece, '&', rest);
    assert ([piece] + Split(rest, '&'))[1..] == Split(rest, '&');
  }

  lemma PairsOne(piece: string)
    requires '&' !in piece && piece != ""
    ensures Pairs(piece) == [ParsePair(piece)]
  {
    SplitNone(piece, '&');
  }

  /** `get(name)`: the value of the first pair named `name`, or none. */
  function Lookup(pairs: seq<(string, string)>, name: string): (r: Option<string>)
    ensures r.None? <==> forall i :: 0 <= i < |pairs| ==> pairs[i].0 != name
    ensures r.Some? ==> exists i :: 0 <= i < |pairs| && pairs[i] == (name, r.value) &&
                                    forall j :: 0 <= j < i ==> pairs[j].0 != name
  {
    if |pairs| == 0 then None
    else if pairs[0].0 == name then
      assert pairs[0] == (name, pairs[0].1);
      Some(pairs[0].1)
    else
      var r := Lookup(pairs[1..], name);
      assert forall i :: 0 < i < |pairs| ==> pairs[i] == pairs[1..][i - 1];
      if r.Some? then
        var i :| 0 <= i < |pairs[1..]| && pairs[1..][i] == (name, r.value) &&
                 forall j :: 0 <= j < i ==> pairs[1..][j].0 != name;
        assert pairs[i + 1] == (name, r.value);
        r
      else
        r
  }

  /** `new URLSearchParams(location.search).get(name)` for the link `url`. */
  function SearchParam(url: string, name: string): Option<string> {
    Lookup(Pairs(Query(url)), name)
  }

  /** Names and values that `&`, `=`, `?` and `#` cannot cut short. */
  predicate Plain(s: string) {
    '&' !in s && '=' !in s && '?' !in s && '#' !in s
  }

  /** A parameter at the end of the query is read to the end, decoded. */
  lemma ParamAlone(path: string, name: string, v: string)
    requires '?' !in path && '#' !in path && name != "" && Plain(name) && '&' !in v && '#' !in v
    ensures SearchParam(path + "?" + name + "=" + v, Decode(name)) == Some(Decode(v))
  {
    var piece := name + "=" + v;
    assert path + "?" + name + "=" + v == path + "?" + piece;
    NoneInConcat(name, v, '&');
    NoneInConcat(name, v, '#');
    QueryOf(path, piece);
    PairsOne(piece);
    ParsePairOf(name, v);
  }

  /** A parameter followed by others is read up to the next `&` only, decoded. */
  lemma ParamBeforeOthers(path: string, name: string, v: string, rest: string)
    requires '?' !in path && '#' !in path && name != "" && Plain(name) && '&' !in v && '#' !in v && '#' !in rest
    ensures SearchParam(path + "?" + name + "=" + v + "&" + rest, Decode(name)) == Some(Decode(v))
  {
    var piece := name + "=" + v;
    var query := piece + "&" + rest;
    assert path + "?" + name + "=" + v + "&" + rest == path + "?" + query;
    NoneInConcat(name, v, '&');
    NoneInConcat(name, v, '#');
    assert '#' !in query by {
      assert query == piece + ['&'] + rest;
    }
    QueryOf(path, query);
    PairsCons(piece, rest);
    ParsePairOf(name, v);
  }

  /** A parameter is found after a pair with another name. */
  lemma ParamAfterOther(path: string, other: string, name: string, v: string)
    requires '?' !in path && '#' !in path && '&' !in other && '#' !in other && other != ""
    requires ParsePair(other).0 != Decode(name)
    requires name != "" && Plain(name) && '&' !in v && '#' !in v
    ensures SearchParam(path + "?" + other + "&" + name + "=" + v, Decode(name)) == Some(Decode(v))
  {
    var query := other + "&" + (name + "=" + v);
    AfterOtherShape(path, other, name, v);
    NoneInConcat(name, v, '#');
    assert '#' !in query by {
      assert query == other + ['&'] + (name + "=" + v);
    }
    QueryOf(path, query);
    var pairs := Pairs(query);
    assert pairs == [ParsePair(other), (Decode(name), Decode(v))] by {
      PairsAfterOther(other, name, v);
    }
    assert Lookup(pairs, Decode(name)) == Some(Decode(v)) by {
      assert pairs[1..] == [(Decode(name), Decode(v))];
    }
  }

  lemma AfterOtherShape(path: string, other: string, name: string, v: string)
    ensures path + "?" + other + "&" + name + "=" + v == path + "?" + (other + "&" + (name + "=" + v))
  {
    var piece := name + "=" + v;
    calc {
      path + "?" + other + "&" + name + "=" + v;
      { Seqs.ConcatAssoc(path + "?" + other + "&" + name, "=", v); }
      path + "?" + other + "&" + name + ("=" + v);
      { Seqs.ConcatAssoc(path + "?" + other + "&", name, "=" + v); }
      path + "?" + other + "&" + piece;
      { Seqs.ConcatAssoc(path + "?" + other, "&", piece); }
      path + "?" + other + ("&" + piece);
      { Seqs.ConcatAssoc(path + "?", other, "&" + piece); }
      path + "?" + (other + ("&" + piece));
      { Seqs.ConcatAssoc(other, "&", piece); }
      path + "?" + (other + "&" + piece);
    }
  }

  lemma PairsAfterOther(other: string, name: string, v: string)
    requires '&' !in other && other != "" && name != "" && Plain(name) && '&' !in v
    ensures Pairs(other + "&" + (name + "=" + v)) == [ParsePair(other), (Decode(name), Decode(v))]
  {
    var piece := name + "=" + v;
    NoneInConcat(name, v, '&');
    PairsCons(other, piece);
    PairsOne(piece);
    ParsePairOf(name, v);
  }

  lemma NoneInConcat(name: string, v: string, c: char)
    requires c !in name && c != '=' && c !in v
    ensures c !in name + "=" + v
  {
  }

  lemma DecodeSpace()
    ensures Decode("a%20b") == "a b"
  {
    var s := "a%20b";
    assert s[1..] == "%20b" && "%20b"[3..] == "b";
    assert HexDigitValue('2') == 2 && HexDigitValue('0') == 0;
  }

  /** The first of two pairs with the same name wins. */
  lemma FirstOfRepeatedParam(name: string, v: string, w: string)
    requires name != "" && Plain(name) && '&' !in v
    ensures Lookup(Pairs(name + "=" + v + "&" + name + "=" + w), Decode(name)) == Some(Decode(v))
  {
    var first := name + "=" + v;
    NoneInConcat(name, v, '&');
    assert name + "=" + v + "&" + name + "=" + w == first + "&" + (name + "=" + w);
    PairsCons(first, name + "=" + w);
    ParsePairOf(name, v);
  }
}
