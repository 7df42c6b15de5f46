/** How the checkout page reads a navigation target: the router's `:eventId` parameter of
    `/checkout/:eventId` and `URLSearchParams.get` on the query. Percent-escapes and `+` are
    not decoded, and the browser's URL parser, which runs on the target first, is not
    modelled: the reading is exact only for text that neither needs escaping nor is changed
    by that parser. */
module Url {
  import opened Types
  import opened JsText

  /** The first of the characters that end a path: the query's `?` or the fragment's `#`. */
  const PathEnd: set<char> := {'?', '#'}

  /** A path with its trailing `/` characters dropped: the route's pattern accepts any
      number of them after the last segment. */
  function TrimTrailingSlashes(path: string): (r: string)
    ensures r <= path
    ensures r == [] || r[|r| - 1] != '/'
    ensures forall j | |r| <= j < |path| :: path[j] == '/'
    decreases |path|
  {
    if path != [] && path[|path| - 1] == '/' then TrimTrailingSlashes(path[..|path| - 1])
    else path
  }

  /** What `/checkout/:eventId` matches in a target: the one path segment after
      `/checkout/`, when it is non-empty and followed by no further segment. Like the
      router, the match ignores trailing `/` characters and the case of the ASCII letters
      in `/checkout/`, and hands over the segment as written. */
  function CheckoutRouteParam(target: string): (id: Option<string>)
    ensures id.Some? ==> id.value != [] && '/' !in id.value && '?' !in id.value && '#' !in id.value
    ensures id.Some? ==> |target| >= 10 + |id.value| && ToLower(target[..10]) == "/checkout/"
    ensures id.Some? ==> target[10..10 + |id.value|] == id.value
  {
    var path := TrimTrailingSlashes(target[..Find(target, PathEnd)]);
    if |path| > 10 && ToLower(path[..10]) == "/checkout/" && '/' !in path[10..] then
      assert path[..10] == target[..10];
      assert path[10..] == target[10..|path|];
      Some(path[10..])
    else None
  }

  /** Trailing `/` characters after a path that does not end in one are dropped, and
      nothing else is. */
  lemma {:induction false} TrimSlashesAfter(path: string, slashes: string)
    requires path == [] || path[|path| - 1] != '/'
    requires forall j | 0 <= j < |slashes| :: slashes[j] == '/'
    ensures TrimTrailingSlashes(path + slashes) == path
    decreases |slashes|
  {
    if slashes == [] {
      assert path + slashes == path;
    } else {
      var shorter := slashes[..|slashes| - 1];
      assert (path + slashes)[..|path + slashes| - 1] == path + shorter;
      TrimSlashesAfter(path, shorter);
    }
  }

  /** The path of a target is the text before the query or fragment that follows it. */
  lemma PathBeforeRest(path: string, rest: string)
    requires forall j | 0 <= j < |path| :: path[j] !in PathEnd
    requires rest == [] || rest[0] in PathEnd
    ensures (path + rest)[..Find(path + rest, PathEnd)] == path
  {
    FindAfterPlainPrefix(path, rest, PathEnd);
    assert Find(rest, PathEnd) == 0;
    assert (path + rest)[..|path|] == path;
  }

  /** `/checkout/<id>` followed by `/` characters, written in any case, holds no `?` or
      `#` and trims back to `/checkout/<id>`. */
  lemma RoutePath(prefix: string, id: string, slashes: string)
    requires ToLower(prefix) == "/checkout/"
    requires id != [] && '/' !in id && '?' !in id && '#' !in id
    requires forall j | 0 <= j < |slashes| :: slashes[j] == '/'
    ensures forall j | 0 <= j < |prefix + id + slashes| :: (prefix + id + slashes)[j] !in PathEnd
    ensures TrimTrailingSlashes(prefix + id + slashes) == prefix + id
  {
    var path := prefix + id;
    var full := path + slashes;
    forall j | 0 <= j < |full| ensures full[j] !in PathEnd {
      if j < |prefix| {
        assert LowerChar(prefix[j]) == "/checkout/"[j];
      } else if j < |path| {
        assert full[j] == id[j - |prefix|];
      } else {
        assert full[j] == slashes[j - |path|];
      }
    }
    assert path[|path| - 1] == id[|id| - 1];
    TrimSlashesAfter(path, slashes);
  }

  /** The route matches every target of the form `/checkout/<id>` followed by any number
      of `/` and then a query, a fragment or nothing, whatever the case of the letters in
      `/checkout/`, and hands over `<id>` as written, when `<id>` is one non-empty segment. */
  lemma RouteMatches(prefix: string, id: string, slashes: string, rest: string)
    requires ToLower(prefix) == "/checkout/"
    requires id != [] && '/' !in id && '?' !in id && '#' !in id
    requires forall j | 0 <= j < |slashes| :: slashes[j] == '/'
    requires rest == [] || rest[0] in PathEnd
    ensures CheckoutRouteParam(prefix + id + slashes + rest) == Some(id)
  {
    var path := prefix + id;
    RoutePath(prefix, id, slashes);
    PathBeforeRest(path + slashes, rest);
    assert path[..10] == prefix;
    assert path[10..] == id;
  }

  /** The route's fixed part is already in lower case. */
  lemma CheckoutIsLowerCase()
    ensures ToLower("/checkout/") == "/checkout/"
  {
  }

  /** The route matches `/checkout/<id>` followed by a query, a fragment or nothing. */
  lemma RouteMatchesLowerCase(id: string, rest: string)
    requires id != [] && '/' !in id && '?' !in id && '#' !in id
    requires rest == [] || rest[0] in PathEnd
    ensures CheckoutRouteParam("/checkout/" + id + rest) == Some(id)
  {
    CheckoutIsLowerCase();
    RouteMatches("/checkout/", id, [], rest);
    assert "/checkout/" + id + [] == "/checkout/" + id;
  }

  /** The query of a target: the text after a `?` that comes before any `#`, up to the
      `#`; empty when there is none. */
  function QueryOf(target: string): (q: string)
    ensures |q| <= |target|
    ensures '#' !in q
  {
    var k := Find(target, PathEnd);
    if k < |target| && target[k] == '?' then
      var body := target[k + 1..];
      body[..Find(body, {'#'})]
    else []
  }

  /** The name of a `name=value` pair: the text before its first `=`. */
  function KeyOf(pair: string): (key: string)
    ensures key <= pair && '=' !in key
  {
    pair[..Find(pair, {'='})]
  }

  /** The value of a pair: the text after its first `=`, or empty without one. */
  function ValueOf(pair: string): (value: string)
    ensures |value| <= |pair| && value == pair[|pair| - |value|..]
    ensures pair != [] ==> |value| < |pair|
  {
    var e := Find(pair, {'='});
    if e < |pair| then pair[e + 1..] else []
  }

  /** `URLSearchParams.get(name)` without decoding: the value of the first non-empty
      `&`-separated pair whose name is `name`. */
  function SearchParam(query: string, name: string): (v: Option<string>)
    ensures v.Some? ==> |v.value| < |query|
    decreases |query|
  {
    if query == [] then None
    else
      var k := Find(query, {'&'});
      var pair := query[..k];
      if pair != [] && KeyOf(pair) == name then Some(ValueOf(pair))
      else if k < |query| then SearchParam(query[k + 1..], name)
      else None
  }

  /** The ASCII tab or newline characters, which the browser's URL parser deletes from a
      target wherever they occur before the router sees it. */
  predicate IsTabOrNewline(c: char) {
    c == '\t' || c == '\n' || c == '\r'
  }

  /** Text that stands for itself in a query value: no pair separator, fragment mark,
      escape or encoded space, and nothing the URL parser deletes. */
  predicate PlainQueryText(t: string) {
    forall j | 0 <= j < |t| ::
      t[j] != '&' && t[j] != '#' && t[j] != '%' && t[j] != '+' && !IsTabOrNewline(t[j])
  }

  /** Text that stands for itself as one path segment: no separator (the URL parser reads
      `\` as `/`), no query or fragment mark, no escape, nothing the URL parser deletes,
      and not the segment `.` or `..`, which the URL parser resolves away. */
  predicate PlainSegment(t: string) {
    && t != [] && t != "." && t != ".."
    && forall j | 0 <= j < |t| ::
         t[j] != '/' && t[j] != '\\' && t[j] != '?' && t[j] != '#' && t[j] != '%' && !IsTabOrNewline(t[j])
  }

  /** Text the browser's URL parser would rewrite is not plain: the segments `.` and `..`,
      a segment with `\`, and a value with a tab. */
  lemma ParserRewritesAreNotPlain()
    ensures !PlainSegment(".") && !PlainSegment("..") && !PlainSegment("a\\b")
    ensures !PlainQueryText("VIP\tA")
  {
    assert "a\\b"[1] == '\\';
    assert "VIP\tA"[3] == '\t';
  }

  /** `name=value` splits back into its name and value. */
  lemma PairSplits(name: string, value: string)
    requires '=' !in name
    ensures KeyOf(name + "=" + value) == name && ValueOf(name + "=" + value) == value
  {
    var pair := name + "=" + value;
    assert pair == name + ("=" + value);
    FindAfterPlainPrefix(name, "=" + value, {'='});
    assert pair[..|name|] == name;
    assert pair[|name| + 1..] == value;
  }

  /** A query reading looks at its first pair, and past it only when the name differs. */
  lemma SearchStep(pair: string, rest: string, name: string)
    requires pair != [] && '&' !in pair
    ensures SearchParam(pair + "&" + rest, name) ==
              if KeyOf(pair) == name then Some(ValueOf(pair)) else SearchParam(rest, name)
  {
    var query := pair + "&" + rest;
    assert query == pair + ("&" + rest);
    FindAfterPlainPrefix(pair, "&" + rest, {'&'});
    assert query[..|pair|] == pair;
    assert query[|pair| + 1..] == rest;
  }

  /** A query of one pair. */
  lemma SearchLastPair(pair: string, name: string)
    requires pair != [] && '&' !in pair
    ensures SearchParam(pair, name) == if KeyOf(pair) == name then Some(ValueOf(pair)) else None
  {
    FindAfterPlainPrefix(pair, [], {'&'});
    assert pair + [] == pair;
    assert pair[..|pair|] == pair;
  }
}
