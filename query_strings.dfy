/** How a request URL reaches a server and is read there, as raw text. Everything from the
    first '#' on is a fragment, which the transport does not send. What is sent is cut at its
    first '?' into the path and the query. The query is cut at every '&', empty pieces are
    ignored, and each remaining piece is a name and a value separated by its first '='. Names
    and values are compared as they stand in the URL, before any percent or '+' decoding a
    server may apply. This reader is the reference against which the URLs the client builds
    are checked. */
module QueryStrings {
  import opened DotNetText

  /** `s` cut at its first `c`: what comes before it and what comes after it. When there is
      no `c`, the whole of `s` comes before it and nothing after. */
  function SplitFirst(s: string, c: char): (parts: (string, string))
    ensures c !in parts.0
    ensures if c in s then parts.0 + [c] + parts.1 == s else parts == (s, [])
  {
    if s == [] then ([], [])
    else if s[0] == c then ([], s[1..])
    else
      var rest := SplitFirst(s[1..], c);
      assert c in s <==> c in s[1..];
      assert [s[0]] + s[1..] == s;
      ([s[0]] + rest.0, rest.1)
  }

  /** Cutting at the first `c` finds the `c` that follows a `c`-free prefix. */
  lemma {:induction false} SplitFirstAfter(a: string, c: char, b: string)
    requires c !in a
    ensures SplitFirst(a + [c] + b, c) == (a, b)
  {
    if a == [] {
      assert a + [c] + b == [c] + b;
    } else {
      assert (a + [c] + b)[1..] == a[1..] + [c] + b;
      SplitFirstAfter(a[1..], c, b);
      assert [a[0]] + a[1..] == a;
    }
  }

  /** The name/value pairs of the pieces, in order, skipping empty pieces. */
  function ParsePieces(pieces: seq<string>): seq<(string, string)> {
    if pieces == [] then []
    else (if pieces[0] == [] then [] else [SplitFirst(pieces[0], '=')]) + ParsePieces(pieces[1..])
  }

  /** The name/value pairs a query string carries, in order. */
  function ParseQuery(query: string): seq<(string, string)> {
    ParsePieces(Split(query, {'&'}))
  }

  lemma {:induction false} ParsePiecesAppend(p: seq<string>, q: seq<string>)
    ensures ParsePieces(p + q) == ParsePieces(p) + ParsePieces(q)
  {
    if p == [] {
      assert p + q == q;
    } else {
      assert (p + q)[0] == p[0];
      assert (p + q)[1..] == p[1..] + q;
      ParsePiecesAppend(p[1..], q);
    }
  }

  /** An '&' separates the pairs on its left from those on its right. */
  lemma ParseQueryAppend(a: string, b: string)
    ensures ParseQuery(a + "&" + b) == ParseQuery(a) + ParseQuery(b)
  {
    SplitAppend(a, '&', b, {'&'});
    ParsePiecesAppend(Split(a, {'&'}), Split(b, {'&'}));
  }

  /** A query without '&' that states a name is one pair: the name, and the value after its '='. */
  lemma ParseQueryPair(name: string, value: string)
    requires '&' !in name && '=' !in name && '&' !in value
    ensures ParseQuery(name + "=" + value) == [(name, value)]
  {
    var piece := name + "=" + value;
    assert NoneOf(piece, {'&'}) by {
      forall i | 0 <= i < |piece| ensures piece[i] != '&' {
        assert piece[i] in piece;
      }
    }
    SplitNoSeparator(piece, {'&'});
    assert piece != [] by { assert |piece| == |name| + 1 + |value|; }
    assert ParsePieces([piece]) == [SplitFirst(piece, '=')] + ParsePieces([]);
    SplitFirstAfter(name, '=', value);
  }

  /** The part of a URL the transport sends: everything before the first '#'. */
  function Sent(url: string): string {
    SplitFirst(url, '#').0
  }

  /** The path the server sees: what is sent, up to its first '?'. */
  function RequestPath(url: string): string {
    SplitFirst(Sent(url), '?').0
  }

  /** The name/value pairs the server sees: those of what is sent after its first '?'. */
  function RequestQuery(url: string): seq<(string, string)> {
    ParseQuery(SplitFirst(Sent(url), '?').1)
  }

  /** A URL without '#' is sent whole, and a '?' after a '?'-free path starts its query. */
  lemma RequestParts(path: string, query: string)
    requires '?' !in path && '#' !in path && '#' !in query
    ensures RequestPath(path + "?" + query) == path
    ensures RequestQuery(path + "?" + query) == ParseQuery(query)
  {
    var url := path + "?" + query;
    assert '#' !in url;
    SplitFirstAfter(path, '?', query);
  }

  /** The empty query carries no pairs. */
  lemma ParseQueryEmpty()
    ensures ParseQuery([]) == []
  {
    assert Split([], {'&'}) == [[]];
    assert ParsePieces([[]]) == [] + ParsePieces([]);
  }
}
