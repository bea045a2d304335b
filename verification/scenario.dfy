/**
 * Streaming the top posts of a subreddit against a server that holds twelve
 * posts in pages of five: a `TopPosts` lister, the three pages the server
 * answers with, and what twelve-plus-one calls of `Next` do with them.
 */
module TopPostsScenario {
  import opened Wrappers
  import opened Numbers
  import opened Json
  import opened Codecs
  import opened Things
  import opened ThingLaws
  import opened Traces
  import opened Streaming
  import opened StreamLaws

  // ------------------------------------------------------------ the lister

  const ApiUrl: string := "https://oauth.reddit.com"

  /** A query parameter tagged `omitempty`: left out when its value is empty. */
  function Param(key: string, value: string): (r: seq<(string, string)>)
    ensures r == [] <==> value == ""
  {
    if value == "" then [] else [(key, value)]
  }

  /** An `int` parameter tagged `omitempty`: left out when it is 0. */
  function IntParam(key: string, n: Int64): (r: seq<(string, string)>)
    ensures r == [] <==> n == 0
  {
    if n == 0 then [] else [(key, FormatInt(n))]
  }

  /**
   * `query.Values` of a `TopPosts`: the listing options and the duration `t`,
   * each left out when empty, in the key order `Values.Encode` sorts into.
   */
  function Query(o: ListingOptions, duration: string): seq<(string, string)> {
    Param("after", o.after) + Param("before", o.before) + IntParam("count", o.count) +
    IntParam("limit", o.limit) + Param("show", o.show) + Param("t", duration)
  }

  /** `Values.Encode` for values that need no escaping: `key=value` pairs joined by `&`. */
  function Encode(q: seq<(string, string)>): string {
    if q == [] then ""
    else if |q| == 1 then q[0].0 + "=" + q[0].1
    else q[0].0 + "=" + q[0].1 + "&" + Encode(q[1..])
  }

  /** The URL of a subreddit's top posts, up to its query string. */
  function TopPath(subReddit: string): string {
    ApiUrl + "/r/" + subReddit + "/top.json?"
  }

  /** `TopPosts.URL` for a fixed subreddit and duration, as a function of the options. */
  function TopPostsUrl(subReddit: string, duration: string): UrlBuilder {
    o => Success(TopPath(subReddit) + Encode(Query(o, duration)))
  }

  /** No parameter is sent with an empty value. */
  lemma QueryOmitsEmpty(o: ListingOptions, duration: string)
    ensures forall p :: p in Query(o, duration) ==> p.1 != ""
  {
  }

  /** The paging parameters are sent exactly when they are set. */
  lemma QueryCarriesPaging(o: ListingOptions, duration: string)
    ensures ("after", o.after) in Query(o, duration) <==> o.after != ""
    ensures ("count", FormatInt(o.count)) in Query(o, duration) <==> o.count != 0
  {
  }

  /** The page size and the duration are sent exactly when they are set. */
  lemma QueryCarriesShape(o: ListingOptions, duration: string)
    ensures ("limit", FormatInt(o.limit)) in Query(o, duration) <==> o.limit != 0
    ensures ("t", duration) in Query(o, duration) <==> duration != ""
  {
  }

  // ------------------------------------------------------------- the pages

  /** The author of the `i`-th post: `author%d`. */
  function Author(i: nat): string {
    "author" + FormatNat(i)
  }

  /** `{"kind": "t3", "data": {"author": "author<i>"}}`. */
  function PostBody(i: nat): Value {
    JObject([("kind", JString("t3")), ("data", JObject([("author", JString(Author(i)))]))])
  }

  /** The post that body decodes to: a link with only its author set. */
  function Post(i: nat): Thing {
    Thing("", "", "t3", LinkData(EmptyLink.(author := Author(i))))
  }

  /** `count` consecutive items from `start`, each built by `f`. */
  function Span<T>(f: nat -> T, start: nat, count: nat): (r: seq<T>)
    ensures |r| == count && forall j :: 0 <= j < count ==> r[j] == f(start + j)
  {
    if count == 0 then [] else Span(f, start, count - 1) + [f(start + count - 1)]
  }

  /** `before` names the first post of a page, except on the first page. */
  function BeforeToken(start: nat): string {
    if start == 0 then "" else FormatNat(start)
  }

  /** `after` names the last post of a full page; a short page is the last one. */
  function AfterToken(start: nat, count: nat): string {
    if count == 5 then FormatNat(start + count - 1) else ""
  }

  /** The body the server sends for the `count` posts from `start`. */
  function PageBody(start: nat, count: nat): Value {
    JObject([("kind", JString("Listing")),
             ("data", JObject([("before", JString(BeforeToken(start))),
                               ("after", JString(AfterToken(start, count))),
                               ("children", JArray(Span(PostBody, start, count)))]))])
  }

  /** The page that body decodes to. */
  function Page(start: nat, count: nat): ListingThing {
    Thing("", "", "Listing", ListingData(Listing(BeforeToken(start), AfterToken(start, count), "", Span(Post, start, count))))
  }

  /** An envelope holding only `kind` and `data`. */
  lemma KindAndData(kind: string, d: Value)
    ensures DecodeEnvelope(JObject([("kind", JString(kind)), ("data", d)])) == Success(Envelope("", "", kind, Some(d)))
  {
    var ms := [("kind", JString(kind)), ("data", d)];
    var e1 := EmptyEnvelope.(kind := kind);
    var e2 := e1.(data := Some(d));
    assert Members(ms[2..], Partial(e2, None), EnvelopeField, ()) == Success(Partial(e2, None));
    assert Members(ms[1..], Partial(e1, None), EnvelopeField, ()) == Success(Partial(e2, None));
    assert Members(ms, Partial(EmptyEnvelope, None), EnvelopeField, ()) == Success(Partial(e2, None));
  }

  /** Each post body decodes to its post, whatever float parser is in use. */
  lemma PostDecodes(i: nat, parseFloat: FloatParser)
    ensures DecodeThing(PostBody(i), parseFloat) == Success(Post(i))
  {
    var d := JObject([("author", JString(Author(i)))]);
    KindAndData("t3", d);
    assert LookupKind("t3") == Some(KLink);
    var l := EmptyLink.(author := Author(i));
    assert Members(d.members[1..], Partial(l, None), LinkField, parseFloat) == Success(Partial(l, None));
    assert Members(d.members, Partial(EmptyLink, None), LinkField, parseFloat) == Success(Partial(l, None));
    assert DecodePayload(KLink, d, parseFloat) == Success(LinkData(l));
  }

  /** The children of a page body decode to the page's posts. */
  lemma PostsDecode(start: nat, count: nat, parseFloat: FloatParser)
    ensures ThingsInto(JArray(Span(PostBody, start, count)), parseFloat) == Set(Span(Post, start, count))
  {
    var arr := JArray(Span(PostBody, start, count));
    forall j | 0 <= j < count
      ensures DecodeThing(arr.items[j], parseFloat) == Success(Post(start + j))
    {
      PostDecodes(start + j, parseFloat);
    }
    ThingsIntoArray(arr, parseFloat);
    assert ThingsInto(arr, parseFloat).value == Span(Post, start, count);
  }

  /** Each page body decodes to its page. */
  lemma PageDecodes(start: nat, count: nat, parseFloat: FloatParser)
    ensures DecodeThing(PageBody(start, count), parseFloat) == Success(Page(start, count))
  {
    var d := PageBody(start, count).members[1].1;
    KindAndData("Listing", d);
    assert LookupKind("Listing") == Some(KListing);
    PageDataDecodes(start, count, parseFloat);
  }

  lemma PageDataDecodes(start: nat, count: nat, parseFloat: FloatParser)
    ensures DecodePayload(KListing, PageBody(start, count).members[1].1, parseFloat) == Success(Page(start, count).data)
  {
    PageMembersDecode(start, count, parseFloat);
  }

  /** The members of a page's `data`, stored one after another, give its listing. */
  lemma PageMembersDecode(start: nat, count: nat, parseFloat: FloatParser)
    ensures var d := PageBody(start, count).members[1].1;
            d.JObject? && ListingMembers(d, 0, Partial(EmptyListing, None), parseFloat) == Success(Partial(Page(start, count).data.listing, None))
  {
    var d := PageBody(start, count).members[1].1;
    var l1 := EmptyListing.(before := BeforeToken(start));
    var l2 := l1.(after := AfterToken(start, count));
    var l3 := l2.(children := Span(Post, start, count));
    PostsDecode(start, count, parseFloat);
    ListingStep(d, 0, Partial(EmptyListing, None), parseFloat, l1);
    ListingStep(d, 1, Partial(l1, None), parseFloat, l2);
    ListingStep(d, 2, Partial(l2, None), parseFloat, l3);
    assert ListingMembers(d, 3, Partial(l3, None), parseFloat) == Success(Partial(l3, None));
  }

  // ------------------------------------------------------------ the server

  const Lister: UrlBuilder := TopPostsUrl("programming", "day")

  /** The three requests the stream is expected to make, as query parameters. */
  const FirstQuery: seq<(string, string)> := [("limit", "5"), ("t", "day")]
  const SecondQuery: seq<(string, string)> := [("after", "4"), ("count", "5"), ("limit", "5"), ("t", "day")]
  const ThirdQuery: seq<(string, string)> := [("after", "9"), ("count", "10"), ("limit", "5"), ("t", "day")]

  const FirstUrl: string := TopPath("programming") + Encode(FirstQuery)
  const SecondUrl: string := TopPath("programming") + Encode(SecondQuery)
  const ThirdUrl: string := TopPath("programming") + Encode(ThirdQuery)

  /** Spelled out, the three URLs are `https://oauth.reddit.com/r/programming/top.json?` followed by these. */
  lemma TopPathSpelled()
    ensures TopPath("programming") == "https://oauth.reddit.com/r/programming/top.json?"
  {
  }

  lemma FirstQuerySpelled()
    ensures Encode(FirstQuery) == "limit=5&t=day"
  {
    assert Encode(FirstQuery[1..]) == "t=day";
  }

  lemma SecondQuerySpelled()
    ensures Encode(SecondQuery) == "after=4&count=5&limit=5&t=day"
  {
    EncodeTail(SecondQuery[1..], "count=5&limit=5&t=day");
    assert Encode(SecondQuery) == "after=4" + "&" + "count=5&limit=5&t=day";
  }

  lemma ThirdQuerySpelled()
    ensures Encode(ThirdQuery) == "after=9&count=10&limit=5&t=day"
  {
    EncodeTail(ThirdQuery[1..], "count=10&limit=5&t=day");
    assert Encode(ThirdQuery) == "after=9" + "&" + "count=10&limit=5&t=day";
  }

  /** The bodies the server holds: twelve posts in pages of five. */
  function Body(url: string): Option<Value> {
    if url == FirstUrl then Some(PageBody(0, 5))
    else if url == SecondUrl then Some(PageBody(5, 5))
    else if url == ThirdUrl then Some(PageBody(10, 2))
    else None
  }

  /** `Config.Get` against that server: the decoded page, or an error for any other URL. */
  function Server(url: string): Result<ListingThing, string> {
    if url == FirstUrl then Success(Page(0, 5))
    else if url == SecondUrl then Success(Page(5, 5))
    else if url == ThirdUrl then Success(Page(10, 2))
    else Failure("unexpected request")
  }

  /** What the server delivers is what decoding its bodies gives. */
  lemma ServerDecodesBodies(url: string, parseFloat: FloatParser)
    ensures Server(url).Success? <==> Body(url).Some?
    ensures Server(url).Success? ==> DecodeThing(Body(url).value, parseFloat) == Success(Server(url).value)
  {
    if url == FirstUrl {
      PageDecodes(0, 5, parseFloat);
    } else if url == SecondUrl {
      PageDecodes(5, 5, parseFloat);
    } else if url == ThirdUrl {
      PageDecodes(10, 2, parseFloat);
    }
  }

  // --------------------------------------------------------------- the run

  /** `TopPosts{ListingOptions: ListingOptions{Limit: 5}}`. */
  const Options: ListingOptions := ListingOptions("", "", 0, 5, "")

  const Start: Cursor := Cursor(NewStream, Options)

  /** `count=…&limit=5&t=day`, the tail every later page URL shares. */
  lemma EncodeTail(q: seq<(string, string)>, expected: string)
    requires |q| == 3 && q[1] == ("limit", "5") && q[2] == ("t", "day") && q[0].0 == "count"
    requires expected == "count=" + q[0].1 + "&limit=5&t=day"
    ensures Encode(q) == expected
  {
    assert Encode(q[2..]) == "t=day";
    assert Encode(q[1..]) == "limit=5&t=day";
  }

  lemma FirstUrlBuilt()
    ensures Lister(Options) == Success(FirstUrl)
  {
    assert FormatInt(5) == "5";
    assert Query(Options, "day") == FirstQuery;
  }

  lemma SecondUrlBuilt()
    ensures Lister(Options.(after := "4", count := 5)) == Success(SecondUrl)
  {
    assert FormatInt(5) == "5";
    assert Query(Options.(after := "4", count := 5), "day") == SecondQuery;
  }

  lemma ThirdUrlBuilt()
    ensures Lister(Options.(after := "9", count := 10)) == Success(ThirdUrl)
  {
    assert FormatInt(5) == "5" && FormatInt(10) == "10";
    assert Query(Options.(after := "9", count := 10), "day") == ThirdQuery;
  }

  /** The page a fetched call leaves the stream on. */
  function OnPage(start: nat, count: nat, opts: ListingOptions): Cursor {
    Cursor(Stream(Page(start, count).data.listing, 0, None), opts)
  }

  /** A call that fetches a non-empty page reads its first post. */
  lemma FetchingCall(c: Cursor, urlOf: UrlBuilder, fetch: Fetcher, url: string, start: nat, count: nat)
    requires NeedsFetch(c.stream) && 0 < count
    requires urlOf(c.opts.(after := c.stream.listing.after)) == Success(url)
    requires fetch(url) == Success(Page(start, count))
    ensures var o := c.opts.(after := c.stream.listing.after);
            Calls(c, urlOf, fetch, 1) ==
            Trace(OnPage(start, count, o.(count := WrapInt64(o.count + count))),
                  [Call(true, Post(start), [BuildUrl(o), Get(url)])])
  {
    var page := Page(start, count).data.listing;
    FetchCall(c, urlOf, fetch, url, page);
    assert Current(Stream(page, 0, None)) == Post(start);
  }

  /** `count` items from `start`, cut at `from`..`to`, are the items from `start + from`. */
  lemma SpanSlice<T>(f: nat -> T, start: nat, count: nat, from: nat, to: nat)
    requires from <= to <= count
    ensures Span(f, start, count)[from..to] == Span(f, start + from, to - from)
  {
  }

  /** What the call that fetches the page starting at post `start` shows. */
  function Fetched(start: nat, o: ListingOptions, url: string): Call {
    Call(true, Post(start), [BuildUrl(o), Get(url)])
  }

  /** The options after the first fetch, and the pages the stream stands on after each. */
  const C1: Cursor := OnPage(0, 5, Options.(count := 5))
  const C6: Cursor := OnPage(5, 5, Options.(after := "4", count := 10))
  const C11: Cursor := OnPage(10, 2, Options.(after := "9", count := 12))

  function At(c: Cursor, index: int): Cursor {
    c.(stream := c.stream.(index := index))
  }

  lemma FirstPage()
    ensures Calls(Start, Lister, Server, 1) == Trace(C1, [Fetched(0, Options, FirstUrl)])
  {
    FirstUrlBuilt();
    assert Options.(after := NewStream.listing.after) == Options;
    FetchingCall(Start, Lister, Server, FirstUrl, 0, 5);
  }

  lemma FirstPageRead()
    ensures Calls(C1, Lister, Server, 4) == Trace(At(C1, 4), Reads(Span(Post, 1, 4)))
  {
    CachedRun(C1, Lister, Server, 4);
    SpanSlice(Post, 0, 5, 1, 5);
  }

  lemma SecondPage()
    ensures Calls(At(C1, 4), Lister, Server, 1) == Trace(C6, [Fetched(5, Options.(after := "4", count := 5), SecondUrl)])
  {
    SecondUrlBuilt();
    assert FormatNat(4) == "4";
    assert At(C1, 4).stream.listing.after == "4";
    FetchingCall(At(C1, 4), Lister, Server, SecondUrl, 5, 5);
  }

  lemma SecondPageRead()
    ensures Calls(C6, Lister, Server, 4) == Trace(At(C6, 4), Reads(Span(Post, 6, 4)))
  {
    CachedRun(C6, Lister, Server, 4);
    SpanSlice(Post, 5, 5, 1, 5);
  }

  lemma ThirdPage()
    ensures Calls(At(C6, 4), Lister, Server, 1) == Trace(C11, [Fetched(10, Options.(after := "9", count := 10), ThirdUrl)])
  {
    ThirdUrlBuilt();
    assert FormatNat(9) == "9";
    assert At(C6, 4).stream.listing.after == "9";
    FetchingCall(At(C6, 4), Lister, Server, ThirdUrl, 10, 2);
  }

  lemma ThirdPageRead()
    ensures Calls(C11, Lister, Server, 1) == Trace(At(C11, 1), Reads(Span(Post, 11, 1)))
  {
    CachedRun(C11, Lister, Server, 1);
    SpanSlice(Post, 10, 2, 1, 2);
  }

  lemma StreamEnds()
    ensures Calls(At(C11, 1), Lister, Server, 1) == Trace(At(C11, 2), [Dead])
    ensures AtEnd(At(C11, 2).stream)
  {
    assert Next(At(C11, 1).stream, At(C11, 1).opts, Lister, Server) == Advance(At(C11, 2).stream, At(C11, 2).opts, false, []);
  }

  /** Everything the thirteen calls show, in order. */
  const Expected: seq<Call> :=
    [Fetched(0, Options, FirstUrl)] + Reads(Span(Post, 1, 4)) +
    [Fetched(5, Options.(after := "4", count := 5), SecondUrl)] + Reads(Span(Post, 6, 4)) +
    [Fetched(10, Options.(after := "9", count := 10), ThirdUrl)] + Reads(Span(Post, 11, 1)) +
    [Dead]

  /**
   * Thirteen calls on a new stream: three pages fetched, in order, from the
   * options the stream itself wrote; twelve posts read; then false.
   */
  lemma {:induction false} ThirteenCalls()
    ensures Calls(Start, Lister, Server, 13) == Trace(At(C11, 2), Expected)
  {
    var s := Lister;
    var f := Server;
    var o1 := [Fetched(0, Options, FirstUrl)];
    var o2 := Reads(Span(Post, 1, 4));
    var o3 := [Fetched(5, Options.(after := "4", count := 5), SecondUrl)];
    var o4 := Reads(Span(Post, 6, 4));
    var o5 := [Fetched(10, Options.(after := "9", count := 10), ThirdUrl)];
    var o6 := Reads(Span(Post, 11, 1));
    FirstPage();
    FirstPageRead();
    CallsThen(Start, s, f, 1, 4, 5, Trace(C1, o1), Trace(At(C1, 4), o2));
    SecondPage();
    CallsThen(Start, s, f, 5, 1, 6, Trace(At(C1, 4), o1 + o2), Trace(C6, o3));
    SecondPageRead();
    CallsThen(Start, s, f, 6, 4, 10, Trace(C6, o1 + o2 + o3), Trace(At(C6, 4), o4));
    ThirdPage();
    CallsThen(Start, s, f, 10, 1, 11, Trace(At(C6, 4), o1 + o2 + o3 + o4), Trace(C11, o5));
    ThirdPageRead();
    CallsThen(Start, s, f, 11, 1, 12, Trace(C11, o1 + o2 + o3 + o4 + o5), Trace(At(C11, 1), o6));
    StreamEnds();
    CallsThen(Start, s, f, 12, 1, 13, Trace(At(C11, 1), o1 + o2 + o3 + o4 + o5 + o6), Trace(At(C11, 2), [Dead]));
  }

  /** Reading a cached page requests nothing. */
  lemma {:induction false} ReadsRequestNothing(ts: seq<Thing>)
    ensures Requests(Reads(ts)) == []
  {
    if ts != [] {
      ReadsRequestNothing(ts[1..]);
    }
  }

  /** The requests of two runs, one after the other. */
  lemma {:induction false} RequestsAppend(a: seq<Call>, b: seq<Call>)
    ensures Requests(a + b) == Requests(a) + Requests(b)
  {
    if a != [] {
      RequestsAppend(a[1..], b);
      assert (a + b)[1..] == a[1..] + b;
    } else {
      assert a + b == b;
    }
  }

  /**
   * The stream reads `author0` … `author11` in order with no error, requests
   * exactly the three page URLs, leaves `after` and `count` at the last
   * page's values, and then returns false on every further call.
   */
  lemma StreamsTwelvePosts(n: nat)
    ensures var r := Calls(Start, Lister, Server, 13);
            && (forall i :: 0 <= i < 12 ==> r.outputs[i].more && r.outputs[i].thing == Post(i))
            && (forall i :: 0 <= i < 12 ==> r.outputs[i].thing.data.link.author == Author(i))
            && r.outputs[12] == Dead && r.last.stream.err.None?
            && Requests(r.outputs) == [FirstUrl, SecondUrl, ThirdUrl]
            && r.last.opts == Options.(after := "9", count := 12)
            && Calls(r.last, Lister, Server, n) == Trace(r.last, Repeat(Dead, n))
  {
    var r := Calls(Start, Lister, Server, 13);
    ThirteenCalls();
    assert r.outputs == Expected && r.last == At(C11, 2);
    EveryPostInOrder();
    ExpectedRequests();
    StreamEnds();
    EndRun(r.last, Lister, Server, n);
  }

  lemma EveryPostInOrder()
    ensures forall i :: 0 <= i < 12 ==> Expected[i].more && Expected[i].thing == Post(i)
  {
    var o2 := Reads(Span(Post, 1, 4));
    var o4 := Reads(Span(Post, 6, 4));
    var o6 := Reads(Span(Post, 11, 1));
    var front := [Fetched(0, Options, FirstUrl)] + o2;
    var middle := front + [Fetched(5, Options.(after := "4", count := 5), SecondUrl)] + o4;
    var back := middle + [Fetched(10, Options.(after := "9", count := 10), ThirdUrl)] + o6;
    assert Expected == back + [Dead];
    forall i | 0 <= i < 12
      ensures Expected[i].more && Expected[i].thing == Post(i)
    {
      if i < 5 {
        assert Expected[i] == front[i];
        if 0 < i {
          assert front[i] == o2[i - 1];
        }
      } else if i < 10 {
        assert Expected[i] == middle[i];
        if 5 < i {
          assert middle[i] == o4[i - 6];
        }
      } else {
        assert Expected[i] == back[i];
        if 10 < i {
          assert back[i] == o6[i - 11];
        }
      }
    }
  }

  lemma FetchedRequests(start: nat, o: ListingOptions, url: string)
    ensures Requests([Fetched(start, o, url)]) == [url]
  {
    var effects := [BuildUrl(o), Get(url)];
    assert Gets(effects[1..][1..]) == [];
    assert Gets(effects[1..]) == [url];
    assert Gets(effects) == [url];
    assert [Fetched(start, o, url)][1..] == [];
  }

  lemma ExpectedRequests()
    ensures Requests(Expected) == [FirstUrl, SecondUrl, ThirdUrl]
  {
    var o1 := [Fetched(0, Options, FirstUrl)];
    var o2 := Reads(Span(Post, 1, 4));
    var o3 := [Fetched(5, Options.(after := "4", count := 5), SecondUrl)];
    var o4 := Reads(Span(Post, 6, 4));
    var o5 := [Fetched(10, Options.(after := "9", count := 10), ThirdUrl)];
    var o6 := Reads(Span(Post, 11, 1));
    ReadsRequestNothing(Span(Post, 1, 4));
    ReadsRequestNothing(Span(Post, 6, 4));
    ReadsRequestNothing(Span(Post, 11, 1));
    FetchedRequests(0, Options, FirstUrl);
    FetchedRequests(5, Options.(after := "4", count := 5), SecondUrl);
    FetchedRequests(10, Options.(after := "9", count := 10), ThirdUrl);
    assert Requests([Dead]) == [];
    RequestsAppend(o1, o2);
    RequestsAppend(o1 + o2, o3);
    RequestsAppend(o1 + o2 + o3, o4);
    RequestsAppend(o1 + o2 + o3 + o4, o5);
    RequestsAppend(o1 + o2 + o3 + o4 + o5, o6);
    RequestsAppend(o1 + o2 + o3 + o4 + o5 + o6, [Dead]);
  }
}
