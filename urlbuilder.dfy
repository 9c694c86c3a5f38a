/** urlbuilder/urlbuilder.go: a mutable builder whose setters overwrite the
    scheme, host and fragment and append path segments and query values, and
    whose Build assembles the URL by fixed concatenation rules. The library
    escapers (url.PathEscape, url.QueryEscape, url.Values.Encode) are
    uninterpreted functions passed to Build. */
module UrlBuilder {

  /** A path segment and whether Build path-escapes it. */
  datatype Segment = Segment(text: string, shouldEscape: bool)

  /** The three library functions Build calls. */
  datatype Escapers = Escapers(
    pathEscape: string -> string,
    queryEscape: string -> string,
    encode: map<string, seq<string>> -> string)

  /** strings.HasPrefix(s, "/") */
  predicate HasSlashPrefix(s: string)
  {
    |s| > 0 && s[0] == '/'
  }

  /** Schemes whose URL is just `scheme:host`. */
  predicate IsOpaqueScheme(scheme: string)
  {
    scheme == "tel" || scheme == "mailto"
  }

  /** url.Values.Add: appends `value` to the list held for `key`. */
  function AddValue(query: map<string, seq<string>>, key: string, value: string): map<string, seq<string>>
  {
    query[key := (if key in query then query[key] else []) + [value]]
  }

  /** The text one segment contributes: a '/' separator unless the raw
      value already starts with '/', then the value, escaped or verbatim. */
  function SegmentText(seg: Segment, esc: Escapers): string
  {
    (if HasSlashPrefix(seg.text) then "" else "/")
    + (if seg.shouldEscape then esc.pathEscape(seg.text) else seg.text)
  }

  /** The texts of the segments, in order. */
  function Segments(path: seq<Segment>, esc: Escapers): string
    decreases |path|
  {
    if path == [] then "" else Segments(path[..|path| - 1], esc) + SegmentText(path[|path| - 1], esc)
  }

  /** One more segment extends the path part (and anything before it) by
      that segment's text. */
  lemma SegmentsStep(prefix: string, path: seq<Segment>, i: int, esc: Escapers)
    requires 0 <= i < |path|
    ensures prefix + Segments(path[..i + 1], esc) == prefix + Segments(path[..i], esc) + SegmentText(path[i], esc)
  {
    assert path[..i + 1][..i] == path[..i];
  }

  /** `scheme:` if there is a scheme, then `//host` if there is a host. */
  function Authority(scheme: string, host: string): string
  {
    (if scheme != "" then scheme + ":" else "") + (if host != "" then "//" + host else "")
  }

  function QueryPart(query: map<string, seq<string>>, esc: Escapers): string
  {
    if |query| > 0 then "?" + esc.encode(query) else ""
  }

  function FragmentPart(fragment: string, esc: Escapers): string
  {
    if fragment != "" then "#" + esc.queryEscape(fragment) else ""
  }

  /** The URL Build produces from the builder's fields. */
  function BuildURL(scheme: string, host: string, path: seq<Segment>, query: map<string, seq<string>>,
                    fragment: string, esc: Escapers): string
  {
    if IsOpaqueScheme(scheme) then scheme + ":" + host
    else Authority(scheme, host) + Segments(path, esc) + QueryPart(query, esc) + FragmentPart(fragment, esc)
  }

  class URLBuilder {
    var scheme: string
    var host: string
    var path: seq<Segment>
    var query: map<string, seq<string>>
    var fragment: string

    /** New: every part empty. */
    constructor ()
      ensures scheme == "" && host == "" && path == [] && query == map[] && fragment == ""
    {
      scheme := "";
      host := "";
      path := [];
      query := map[];
      fragment := "";
    }

    /** Overwrites the scheme and returns the same builder. */
    method Scheme(s: string) returns (r: URLBuilder)
      modifies this
      ensures r == this && scheme == s
      ensures host == old(host) && path == old(path) && query == old(query) && fragment == old(fragment)
    {
      scheme := s;
      r := this;
    }

    /** Overwrites the host and returns the same builder. */
    method Host(h: string) returns (r: URLBuilder)
      modifies this
      ensures r == this && host == h
      ensures scheme == old(scheme) && path == old(path) && query == old(query) && fragment == old(fragment)
    {
      host := h;
      r := this;
    }

    /** Appends a segment that Build will path-escape. */
    method Path(segment: string) returns (r: URLBuilder)
      modifies this
      ensures r == this && path == old(path) + [Segment(segment, true)]
      ensures scheme == old(scheme) && host == old(host) && query == old(query) && fragment == old(fragment)
    {
      path := path + [Segment(segment, true)];
      r := this;
    }

    /** Appends `value` to the values of `key`. */
    method Query(key: string, value: string) returns (r: URLBuilder)
      modifies this
      ensures r == this && query == AddValue(old(query), key, value)
      ensures scheme == old(scheme) && host == old(host) && path == old(path) && fragment == old(fragment)
    {
      query := AddValue(query, key, value);
      r := this;
    }

    /** Overwrites the fragment and returns the same builder. */
    method Fragment(f: string) returns (r: URLBuilder)
      modifies this
      ensures r == this && fragment == f
      ensures scheme == old(scheme) && host == old(host) && path == old(path) && query == old(query)
    {
      fragment := f;
      r := this;
    }

    /** Build: writes the parts into a buffer, one segment per iteration.
        It reads the builder and changes nothing, so building twice gives
        the same URL. */
    method Build(esc: Escapers) returns (url: string)
      ensures url == BuildURL(scheme, host, path, query, fragment, esc)
    {
      if scheme == "tel" || scheme == "mailto" {
        return scheme + ":" + host;
      }
      var buf := "";
      if scheme != "" {
        buf := buf + scheme + ":";
      }
      if host != "" {
        buf := buf + "//" + host;
      }
      assert buf == Authority(scheme, host);
      for i := 0 to |path|
        invariant buf == Authority(scheme, host) + Segments(path[..i], esc)
      {
        ghost var before := buf;
        var segment := path[i];
        if !HasSlashPrefix(segment.text) {
          buf := buf + "/";
        }
        if segment.shouldEscape {
          buf := buf + esc.pathEscape(segment.text);
        } else {
          buf := buf + segment.text;
        }
        assert buf == before + SegmentText(segment, esc);
        SegmentsStep(Authority(scheme, host), path, i, esc);
      }
      assert path[..|path|] == path;
      ghost var beforeQuery := buf;
      if |query| > 0 {
        buf := buf + "?" + esc.encode(query);
      }
      assert buf == beforeQuery + QueryPart(query, esc);
      ghost var beforeFragment := buf;
      if fragment != "" {
        buf := buf + "#" + esc.queryEscape(fragment);
      }
      assert buf == beforeFragment + FragmentPart(fragment, esc);
      url := buf;
    }
  }

  /** Package-level Scheme: a new builder with the scheme set. */
  method Scheme(s: string) returns (ub: URLBuilder)
    ensures fresh(ub)
    ensures ub.scheme == s && ub.host == "" && ub.path == [] && ub.query == map[] && ub.fragment == ""
  {
    ub := new URLBuilder();
    ub := ub.Scheme(s);
  }

  /** Package-level Host: a new protocol-relative builder with the host set. */
  method Host(h: string) returns (ub: URLBuilder)
    ensures fresh(ub)
    ensures ub.scheme == "" && ub.host == h && ub.path == [] && ub.query == map[] && ub.fragment == ""
  {
    ub := new URLBuilder();
    ub := ub.Host(h);
  }

  /** Package-level Path: a new builder whose one segment is written
      verbatim, without escaping. */
  method Path(segment: string) returns (ub: URLBuilder)
    ensures fresh(ub)
    ensures ub.scheme == "" && ub.host == "" && ub.path == [Segment(segment, false)]
    ensures ub.query == map[] && ub.fragment == ""
  {
    ub := new URLBuilder();
    ub.path := [Segment(segment, false)];
  }

  /** Query keeps every earlier value, puts `value` last for `key`, leaves
      other keys alone, and leaves the query non-empty. */
  lemma AddValueSpec(query: map<string, seq<string>>, key: string, value: string)
    ensures var q := AddValue(query, key, value);
      && key in q && |q| > 0
      && q[key] == (if key in query then query[key] else []) + [value]
      && q[key][|q[key]| - 1] == value
      && (forall k :: k in query ==> k in q)
      && (forall k :: k in q && k != key ==> k in query && q[k] == query[k])
  {
    var q := AddValue(query, key, value);
    assert |q| > 0 by {
      assert key in q.Keys;
    }
  }

  /** For tel and mailto the URL is `scheme:host`, whatever the path, query
      and fragment. */
  lemma OpaqueSchemeIgnoresRest(scheme: string, host: string,
                                 path1: seq<Segment>, query1: map<string, seq<string>>, fragment1: string,
                                 path2: seq<Segment>, query2: map<string, seq<string>>, fragment2: string,
                                 esc: Escapers)
    requires IsOpaqueScheme(scheme)
    ensures BuildURL(scheme, host, path1, query1, fragment1, esc) == scheme + ":" + host
    ensures BuildURL(scheme, host, path1, query1, fragment1, esc) == BuildURL(scheme, host, path2, query2, fragment2, esc)
  {
  }

  /** The segment texts of a concatenated path are the concatenated texts:
      Path calls contribute in call order. */
  lemma {:induction false} SegmentsAppend(a: seq<Segment>, b: seq<Segment>, esc: Escapers)
    ensures Segments(a + b, esc) == Segments(a, esc) + Segments(b, esc)
    decreases |b|
  {
    if b == [] {
      assert a + b == a;
    } else {
      var b' := b[..|b| - 1];
      assert (a + b)[..|a + b| - 1] == a + b';
      assert (a + b)[|a + b| - 1] == b[|b| - 1];
      SegmentsAppend(a, b', esc);
    }
  }

  /** A segment gets a '/' separator exactly when its raw value does not
      start with '/'; an unescaped segment's text therefore always starts
      with '/' and ends with the raw value. */
  lemma SegmentSeparator(seg: Segment, esc: Escapers)
    ensures !HasSlashPrefix(seg.text) ==> SegmentText(seg, esc)[0] == '/'
    ensures !HasSlashPrefix(seg.text) ==> SegmentText(seg, esc)[1..] == (if seg.shouldEscape then esc.pathEscape(seg.text) else seg.text)
    ensures HasSlashPrefix(seg.text) ==> SegmentText(seg, esc) == (if seg.shouldEscape then esc.pathEscape(seg.text) else seg.text)
    ensures !seg.shouldEscape ==> HasSlashPrefix(SegmentText(seg, esc))
  {
  }

  /** A segment is separated when Build is sure to open it with '/': it is
      written verbatim, or its raw value does not start with '/'. */
  predicate Separated(seg: Segment)
  {
    !seg.shouldEscape || !HasSlashPrefix(seg.text)
  }

  /** When every segment is separated, the path part is empty exactly when
      there are no segments and otherwise starts with '/', so it never runs
      into the host. */
  lemma {:induction false} SegmentsStartWithSlash(path: seq<Segment>, esc: Escapers)
    requires forall i :: 0 <= i < |path| ==> Separated(path[i])
    ensures path == [] <==> Segments(path, esc) == ""
    ensures path != [] ==> HasSlashPrefix(Segments(path, esc))
    decreases |path|
  {
    if path != [] {
      var init := path[..|path| - 1];
      var last := path[|path| - 1];
      assert forall i :: 0 <= i < |init| ==> init[i] == path[i];
      SegmentsStartWithSlash(init, esc);
      SegmentSeparator(last, esc);
      assert |SegmentText(last, esc)| > 0;
      if init != [] {
        assert Segments(path, esc)[0] == Segments(init, esc)[0];
      }
    }
  }

  /** None of the escapers ever output `c`. */
  ghost predicate EscapersAvoid(c: char, esc: Escapers)
  {
    && (forall s :: c !in esc.pathEscape(s))
    && (forall s :: c !in esc.queryEscape(s))
    && (forall q :: c !in esc.encode(q))
  }

  /** No segment written verbatim contains `c` (escaped segments are
      covered by the escapers). */
  predicate SegmentsAvoid(c: char, path: seq<Segment>)
  {
    forall i :: 0 <= i < |path| && !path[i].shouldEscape ==> c !in path[i].text
  }

  /** A character absent from the escapers' output and the verbatim
      segments is absent from the path part. */
  lemma {:induction false} SegmentsExclude(c: char, path: seq<Segment>, esc: Escapers)
    requires c != '/' && EscapersAvoid(c, esc) && SegmentsAvoid(c, path)
    ensures c !in Segments(path, esc)
    decreases |path|
  {
    if path != [] {
      var init := path[..|path| - 1];
      var last := path[|path| - 1];
      assert SegmentsAvoid(c, init) by {
        assert forall i :: 0 <= i < |init| ==> init[i] == path[i];
      }
      SegmentsExclude(c, init, esc);
      assert !last.shouldEscape ==> c !in last.text;
      assert c !in SegmentText(last, esc);
    }
  }

  /** Away from tel and mailto, and when '?' occurs in no verbatim part and
      no escaper output, the URL contains '?' exactly when some query value
      was added. */
  lemma QueryMarkIffQuery(scheme: string, host: string, path: seq<Segment>, query: map<string, seq<string>>,
                          fragment: string, esc: Escapers)
    requires !IsOpaqueScheme(scheme)
    requires '?' !in scheme && '?' !in host && SegmentsAvoid('?', path) && EscapersAvoid('?', esc)
    ensures '?' in BuildURL(scheme, host, path, query, fragment, esc) <==> |query| > 0
  {
    var url := BuildURL(scheme, host, path, query, fragment, esc);
    var a := Authority(scheme, host);
    var p := Segments(path, esc);
    var qp := QueryPart(query, esc);
    var fp := FragmentPart(fragment, esc);
    assert url == a + p + qp + fp;
    SegmentsExclude('?', path, esc);
    assert '?' !in a;
    assert '?' !in fp;
    if |query| > 0 {
      assert url[|a + p|] == '?';
    } else {
      assert qp == "";
    }
  }

  /** Away from tel and mailto, and when '#' occurs in no verbatim part and
      no escaper output, the URL contains '#' exactly when the fragment is
      non-empty. */
  lemma FragmentMarkIffFragment(scheme: string, host: string, path: seq<Segment>, query: map<string, seq<string>>,
                                fragment: string, esc: Escapers)
    requires !IsOpaqueScheme(scheme)
    requires '#' !in scheme && '#' !in host && SegmentsAvoid('#', path) && EscapersAvoid('#', esc)
    ensures '#' in BuildURL(scheme, host, path, query, fragment, esc) <==> fragment != ""
  {
    var url := BuildURL(scheme, host, path, query, fragment, esc);
    var a := Authority(scheme, host);
    var p := Segments(path, esc);
    var qp := QueryPart(query, esc);
    var fp := FragmentPart(fragment, esc);
    assert url == a + p + qp + fp;
    SegmentsExclude('#', path, esc);
    assert '#' !in a;
    assert '#' !in qp;
    if fragment != "" {
      assert url[|a + p + qp|] == '#';
    } else {
      assert fp == "";
    }
  }

  /** The path part of a two-segment path. */
  lemma TwoSegments(a: Segment, b: Segment, esc: Escapers)
    ensures Segments([a, b], esc) == SegmentText(a, esc) + SegmentText(b, esc)
  {
    assert [a, b][..1] == [a];
    assert [a][..0] == [];
    assert Segments([a], esc) == "" + SegmentText(a, esc) == SegmentText(a, esc);
  }

  /** Away from tel and mailto, the URL is the concatenation of its four
      parts, in order. */
  lemma URLParts(scheme: string, host: string, path: seq<Segment>, query: map<string, seq<string>>,
                 fragment: string, esc: Escapers, a: string, segs: string, qp: string, fp: string)
    requires !IsOpaqueScheme(scheme)
    requires a == Authority(scheme, host) && segs == Segments(path, esc)
    requires qp == QueryPart(query, esc) && fp == FragmentPart(fragment, esc)
    ensures BuildURL(scheme, host, path, query, fragment, esc) == a + segs + qp + fp
  {
  }

  /** The path part of the relative-path example. */
  lemma RelativePathSegments(esc: Escapers, path: seq<Segment>)
    requires esc.pathEscape("response") == "response"
    requires path == [Segment("chat", false), Segment("response", true)]
    ensures Segments(path, esc) == "/chat/response"
  {
    TwoSegments(Segment("chat", false), Segment("response", true), esc);
    assert SegmentText(Segment("chat", false), esc) == "/chat";
    assert SegmentText(Segment("response", true), esc) == "/response";
  }

  /** The query part of the relative-path example. */
  lemma RelativePathQuery(esc: Escapers, q: map<string, seq<string>>)
    requires esc.encode(map["input" := ["hello!"]]) == "input=hello%21"
    requires q == map["input" := ["hello!"]]
    ensures QueryPart(q, esc) == "?input=hello%21"
  {
    assert q.Keys == {"input"};
  }

  /** The URL of the relative-path example, computed from the rules. */
  lemma RelativePathURL(esc: Escapers, scheme: string, host: string, path: seq<Segment>,
                        q: map<string, seq<string>>, fragment: string)
    requires esc.pathEscape("response") == "response"
    requires esc.encode(map["input" := ["hello!"]]) == "input=hello%21"
    requires scheme == "" && host == "" && fragment == ""
    requires path == [Segment("chat", false), Segment("response", true)]
    requires q == map["input" := ["hello!"]]
    ensures BuildURL(scheme, host, path, q, fragment, esc) == "/chat/response?input=hello%21"
  {
    RelativePathSegments(esc, path);
    RelativePathQuery(esc, q);
    URLParts(scheme, host, path, q, fragment, esc, "", "/chat/response", "?input=hello%21", "");
    assert "" + "/chat/response" + "?input=hello%21" + "" == "/chat/response?input=hello%21";
  }

  /** Path("chat").Path("response").Query("input", "hello!") builds
      "/chat/response?input=hello%21", for escapers that leave "response"
      alone and encode that query as url.Values.Encode does. */
  method RelativePathExample(esc: Escapers) returns (url: string)
    requires esc.pathEscape("response") == "response"
    requires esc.encode(map["input" := ["hello!"]]) == "input=hello%21"
    ensures url == "/chat/response?input=hello%21"
  {
    var ub := Path("chat");
    ub := ub.Path("response");
    ub := ub.Query("input", "hello!");
    assert [] + ["hello!"] == ["hello!"];
    assert ub.query == map["input" := ["hello!"]];
    assert ub.path == [Segment("chat", false), Segment("response", true)];
    url := ub.Build(esc);
    RelativePathURL(esc, ub.scheme, ub.host, ub.path, ub.query, ub.fragment);
  }

  /** The path part of the escaped-path example. */
  lemma EscapedPathSegments(esc: Escapers, path: seq<Segment>)
    requires esc.pathEscape("a/b") == "a%2Fb" && esc.pathEscape("c d") == "c%20d"
    requires path == [Segment("a/b", true), Segment("c d", true)]
    ensures Segments(path, esc) == "/a%2Fb/c%20d"
  {
    TwoSegments(Segment("a/b", true), Segment("c d", true), esc);
    assert SegmentText(Segment("a/b", true), esc) == "/a%2Fb";
    assert SegmentText(Segment("c d", true), esc) == "/c%20d";
  }

  /** The URL of the escaped-path example, computed from the rules. */
  lemma EscapedPathURL(esc: Escapers, path: seq<Segment>)
    requires esc.pathEscape("a/b") == "a%2Fb" && esc.pathEscape("c d") == "c%20d"
    requires path == [Segment("a/b", true), Segment("c d", true)]
    ensures BuildURL("https", "example.com", path, map[], "", esc) == "https://example.com/a%2Fb/c%20d"
  {
    EscapedPathSegments(esc, path);
    URLParts("https", "example.com", path, map[], "", esc, "https://example.com", "/a%2Fb/c%20d", "", "");
  }

  /** Scheme("https").Host("example.com").Path("a/b").Path("c d") builds
      "https://example.com/a%2Fb/c%20d" for an escaper that encodes those
      two segments as url.PathEscape does. */
  method EscapedPathExample(esc: Escapers) returns (url: string)
    requires esc.pathEscape("a/b") == "a%2Fb" && esc.pathEscape("c d") == "c%20d"
    ensures url == "https://example.com/a%2Fb/c%20d"
  {
    var ub := Scheme("https");
    ub := ub.Host("example.com");
    ub := ub.Path("a/b");
    ub := ub.Path("c d");
    assert ub.path == [Segment("a/b", true), Segment("c d", true)];
    url := ub.Build(esc);
    EscapedPathURL(esc, ub.path);
  }

  /** Path("/index") builds "/index": no separator is added before a
      verbatim segment that already starts with '/'. */
  method SlashIndexExample(esc: Escapers) returns (url: string)
    ensures url == "/index"
  {
    var ub := Path("/index");
    url := ub.Build(esc);
    assert Segments(ub.path, esc) == "/index";
  }

  /** Host("example.com") builds the protocol-relative "//example.com". */
  method ProtocolRelativeExample(esc: Escapers) returns (url: string)
    ensures url == "//example.com"
  {
    var ub := Host("example.com");
    url := ub.Build(esc);
  }

  /** Scheme("mailto").Host("test@example.com") builds
      "mailto:test@example.com", even with a path and fragment added. */
  method MailToExample(esc: Escapers) returns (url: string)
    ensures url == "mailto:test@example.com"
  {
    var ub := Scheme("mailto");
    ub := ub.Host("test@example.com");
    ub := ub.Path("ignored");
    ub := ub.Fragment("ignored");
    url := ub.Build(esc);
  }
}
