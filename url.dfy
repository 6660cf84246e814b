/** URL construction from an endpoint: `Api.url(from:)` (Sources/SCApi/Api.swift:57-85). */
module UrlBuilder {

  import opened Wrappers
  import opened Errors
  import opened Endpoints

  /** `URLQueryItem`: a name and an optional value. */
  datatype QueryItem = QueryItem(name: string, value: Option<string>)

  /** The fields of `URLComponents` that `url(from:)` sets. A fresh
      `URLComponents()` has no scheme, no host, the empty path and no query items. */
  datatype Components = Components(
    scheme: Option<string>,
    host: Option<string>,
    path: string,
    queryItems: Option<seq<QueryItem>>)

  const EmptyComponents: Components := Components(None, None, "", None)

  /** A URL, identified with the components it was made from. */
  datatype Url = Url(components: Components)

  /** Foundation's `URLComponents.url`, reduced to its verdict: whether the
      components form a URL at all. It is a parameter, since the model cannot
      see its implementation. */
  type UrlValidity = Components -> bool

  /** `components(separatedBy: "/")`: the text between the slashes, first to last.
      Every segment is slash-free; there are at least two segments exactly when
      the text holds a slash; the first segment is the text up to the first
      slash, or all of it. */
  function Split(s: string): (r: seq<string>)
    ensures |r| >= 1
    ensures ('/' in s) <==> |r| >= 2
    ensures forall i :: 0 <= i < |r| ==> '/' !in r[i]
    ensures r[0] <= s && (|r[0]| == |s| || s[|r[0]|] == '/')
    decreases |s|
  {
    if |s| == 0 then [""]
    else
      var rest := Split(s[1..]);
      if s[0] == '/' then [""] + rest
      else [[s[0]] + rest[0]] + rest[1..]
  }

  /** Joining segments with "/" between them, the inverse of Split. */
  function Join(segments: seq<string>): string
    requires |segments| >= 1
  {
    if |segments| == 1 then segments[0]
    else segments[0] + "/" + Join(segments[1..])
  }

  lemma {:induction false} JoinConsChar(c: char, x: string, tail: seq<string>)
    ensures Join([[c] + x] + tail) == [c] + Join([x] + tail)
  {
  }

  /** Joining the segments of a text gives the text back. */
  lemma {:induction false} JoinSplit(s: string)
    ensures Join(Split(s)) == s
    decreases |s|
  {
    if |s| > 0 {
      var rest := Split(s[1..]);
      JoinSplit(s[1..]);
      if s[0] == '/' {
        assert ([""] + rest)[1..] == rest;
      } else {
        assert rest == [rest[0]] + rest[1..];
        JoinConsChar(s[0], rest[0], rest[1..]);
      }
    }
  }

  /** A slash-free text before a slash becomes the first segment. */
  lemma {:induction false} SplitConcat(a: string, b: string)
    requires '/' !in a
    ensures Split(a + "/" + b) == [a] + Split(b)
    decreases |a|
  {
    var s := a + "/" + b;
    if |a| == 0 {
      assert s[1..] == b;
    } else {
      assert s[1..] == a[1..] + "/" + b;
      SplitConcat(a[1..], b);
      assert [s[0]] + a[1..] == a;
    }
  }

  /** Splitting the join of slash-free segments gives the segments back. */
  lemma {:induction false} SplitJoin(segments: seq<string>)
    requires |segments| >= 1
    requires forall i :: 0 <= i < |segments| ==> '/' !in segments[i]
    ensures Split(Join(segments)) == segments
    decreases |segments|
  {
    if |segments| == 1 {
      var r := Split(segments[0]);
      JoinSplit(segments[0]);
    } else {
      SplitConcat(segments[0], Join(segments[1..]));
      SplitJoin(segments[1..]);
    }
  }

  /** Two slash-free prefixes of a text that each end at a slash or at the end
      of the text are the same prefix. */
  lemma SegmentUnique(s: string, x: string, y: string)
    requires x <= s && '/' !in x && (|x| == |s| || s[|x|] == '/')
    requires y <= s && '/' !in y && (|y| == |s| || s[|y|] == '/')
    ensures x == y
  {
  }

  /** `URLQueryItem(name: key, value: value)` for one dictionary entry. */
  function ItemOf(p: QueryParam): QueryItem {
    QueryItem(p.0, Some(p.1))
  }

  /** The query items `url(from:)` leaves behind: none at all when there are no
      parameters or the dictionary is empty (the list is only created inside the
      loop), and otherwise one item per entry, in iteration order. */
  function QueryItemsFor(params: Option<seq<QueryParam>>): (q: Option<seq<QueryItem>>)
    ensures q.None? <==> params.None? || |params.value| == 0
    ensures q.Some? ==> |q.value| == |params.value|
    ensures q.Some? ==> forall i :: 0 <= i < |q.value| ==>
      q.value[i].name == params.value[i].0 && q.value[i].value == Some(params.value[i].1)
  {
    if params.None? || |params.value| == 0 then None
    else Some(seq(|params.value|, i requires 0 <= i < |params.value| => ItemOf(params.value[i])))
  }

  /** The components `url(from:)` assembles before asking for the URL. */
  function ComponentsFor(e: Endpoint): (c: Components)
    ensures c.scheme == Some(e.scheme)
    ensures '/' !in e.host ==> c.host == Some(e.host) && c.path == e.version + e.path
    ensures c.queryItems == QueryItemsFor(e.queryParams)
  {
    if '/' in e.host then
      var segments := Split(e.host);
      Components(Some(e.scheme), Some(segments[0]), "/" + segments[1] + e.version + e.path,
                 QueryItemsFor(e.queryParams))
    else
      Components(Some(e.scheme), Some(e.host), e.version + e.path, QueryItemsFor(e.queryParams))
  }

  /** When the host holds a slash, the network host is the text before the first
      slash, and the path is "/", then the text between the first and the second
      slash (or the end), then version and path. */
  lemma HostWithSlash(e: Endpoint, a: string, b: string, b1: string)
    requires e.host == a + "/" + b && '/' !in a
    requires '/' !in b1 && (b1 == b || b1 + "/" <= b)
    ensures ComponentsFor(e).host == Some(a)
    ensures ComponentsFor(e).path == "/" + b1 + e.version + e.path
  {
    SplitConcat(a, b);
    var segments := Split(e.host);
    assert segments[1] == Split(b)[0];
    if b1 != b {
      assert b1 <= b && b[|b1|] == (b1 + "/")[|b1|];
    }
    SegmentUnique(b, b1, Split(b)[0]);
  }

  /** Whatever follows the second slash of the host is dropped: two endpoints
      that agree up to it resolve to the same components. */
  lemma LaterSegmentsIgnored(e1: Endpoint, e2: Endpoint, a: string, b: string, c1: string, c2: string)
    requires '/' !in a && '/' !in b
    requires e1.host == a + "/" + b + "/" + c1 && e2.host == a + "/" + b + "/" + c2
    requires e1.(host := e2.host) == e2
    ensures ComponentsFor(e1) == ComponentsFor(e2)
  {
    assert e1.host == a + "/" + (b + "/" + c1);
    assert e2.host == a + "/" + (b + "/" + c2);
    HostWithSlash(e1, a, b + "/" + c1, b);
    HostWithSlash(e2, a, b + "/" + c2, b);
  }

  /** `url(from:)` as a value: the URL of the assembled components, or
      `invalidURL` when they form none; it fails with no other error. */
  function UrlFrom(e: Endpoint, formsUrl: UrlValidity): (r: Result<Url, Failure>)
    ensures r.Success? <==> formsUrl(ComponentsFor(e))
    ensures r.Success? ==> r.value.components == ComponentsFor(e)
    ensures r.Failure? ==> r.error == Local(InvalidURL)
  {
    var c := ComponentsFor(e);
    if formsUrl(c) then Success(Url(c)) else Failure(Local(InvalidURL))
  }

  /** `url(from:)` as the source runs it: set the scheme, then host and path,
      then create and extend the query-item list entry by entry. */
  method ResolveUrl(e: Endpoint, formsUrl: UrlValidity) returns (r: Result<Url, Failure>)
    ensures r == UrlFrom(e, formsUrl)
  {
    var components := EmptyComponents;
    components := components.(scheme := Some(e.scheme));
    if '/' in e.host {
      var host := Split(e.host);
      components := components.(host := Some(host[0]));
      components := components.(path := "/" + host[1] + e.version + e.path);
    } else {
      components := components.(host := Some(e.host));
      components := components.(path := e.version + e.path);
    }
    if e.queryParams.Some? {
      var queryParams := e.queryParams.value;
      for i := 0 to |queryParams|
        invariant components == ComponentsFor(e).(queryItems := QueryItemsFor(Some(queryParams[..i])))
      {
        ghost var done := QueryItemsFor(Some(queryParams[..i]));
        assert queryParams[..i + 1] == queryParams[..i] + [queryParams[i]];
        assert QueryItemsFor(Some(queryParams[..i + 1])).value
            == (if i == 0 then [] else done.value) + [ItemOf(queryParams[i])];
        if components.queryItems.None? {
          components := components.(queryItems := Some([]));
        }
        components := components.(queryItems := Some(components.queryItems.value + [ItemOf(queryParams[i])]));
      }
      assert queryParams[..|queryParams|] == queryParams;
    }
    if formsUrl(components) {
      r := Success(Url(components));
    } else {
      r := Failure(Local(InvalidURL));
    }
  }
}
