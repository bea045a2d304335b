/**
 * The paths of `Stream.Next` one at a time, and what they add up to over
 * several calls: errors are terminal, a cached page is read without any
 * request, the end of the listing is a fixed point, and a fetch writes the
 * page's `after` token into the options before it builds the URL.
 */
module StreamLaws {
  import opened Wrappers
  import opened Numbers
  import opened Things
  import opened Traces
  import opened Streaming

  /** The position after `Next`'s first step: one further if it was on an entity. */
  function Stepped(s: Stream): Stream {
    if IndexValid(s) then s.(index := s.index + 1) else s
  }

  /** The page is exhausted and there is no further page to ask for. */
  predicate AtEnd(s: Stream) {
    s.err.None? && !IndexValid(s) && s.listing.after == "" && s.index != -1
  }

  /** `Next` will build a URL: no error, nothing cached, and a page still to ask for. */
  predicate NeedsFetch(s: Stream) {
    s.err.None? && !IndexValid(Stepped(s)) && (s.listing.after != "" || Stepped(s).index == -1)
  }

  /**
   * The shape every reachable stream has: the index is -1 only before
   * anything has been read, and never lies beyond the end of the page.
   */
  predicate Positioned(s: Stream) {
    -1 <= s.index <= |s.listing.children| && (s.index == -1 ==> s.listing.children == [])
  }

  // ----------------------------------------------------------- single calls

  /** A new stream is positioned before an empty page, and its first call always fetches. */
  lemma NewStreamFetches(opts: ListingOptions, urlOf: UrlBuilder, fetch: Fetcher)
    ensures Positioned(NewStream) && NeedsFetch(NewStream) && Current(NewStream) == ZeroThing
    ensures Next(NewStream, opts, urlOf, fetch).effects[0] == BuildUrl(opts.(after := ""))
  {
  }

  lemma NextKeepsPositioned(s: Stream, opts: ListingOptions, urlOf: UrlBuilder, fetch: Fetcher)
    requires Positioned(s)
    ensures Positioned(Next(s, opts, urlOf, fetch).stream)
  {
  }

  /** What every call of `Next` keeps, whichever path it takes. */
  lemma NextShape(s: Stream, opts: ListingOptions, urlOf: UrlBuilder, fetch: Fetcher)
    ensures var r := Next(s, opts, urlOf, fetch);
            // the error, once set, is never cleared
            && (s.err.Some? ==> r.stream.err == s.err)
            // the position only moves forward within a page
            && (r.stream.listing == s.listing ==> r.stream.index == s.index || r.stream.index == s.index + 1 || r.stream.index == 0)
            // nothing but `after` and `count` of the options ever changes
            && r.opts == opts.(after := r.opts.after, count := r.opts.count)
            // options change only in a call that builds a URL, from the page's `after`
            && (r.opts != opts ==> |r.effects| > 0 && r.effects[0] == BuildUrl(opts.(after := s.listing.after)))
            && |r.effects| <= 2
            && (|r.effects| > 0 ==> r.effects[0] == BuildUrl(opts.(after := s.listing.after)) && r.opts.after == s.listing.after)
            // a request is made only for the URL built from those options
            && (|r.effects| == 2 ==> r.effects[1].Get? && urlOf(r.effects[0].from) == Success(r.effects[1].url))
  {
  }

  /** With an error set, a call changes nothing and touches nothing. */
  lemma ErrorIsTerminal(s: Stream, opts: ListingOptions, urlOf: UrlBuilder, fetch: Fetcher)
    requires s.err.Some?
    ensures Next(s, opts, urlOf, fetch) == Advance(s, opts, false, [])
    ensures Current(s) == ZeroThing
  {
  }

  /** While the page has a next entity, a call moves to it without any request. */
  lemma CachedStep(s: Stream, opts: ListingOptions, urlOf: UrlBuilder, fetch: Fetcher)
    requires s.err.None? && 0 <= s.index && s.index + 1 < |s.listing.children|
    ensures Next(s, opts, urlOf, fetch) == Advance(s.(index := s.index + 1), opts, true, [])
    ensures Current(Next(s, opts, urlOf, fetch).stream) == s.listing.children[s.index + 1]
  {
  }

  /** At the end, a call returns false and leaves everything as it was; so does every later one. */
  lemma EndIsFixedPoint(s: Stream, opts: ListingOptions, urlOf: UrlBuilder, fetch: Fetcher)
    requires AtEnd(s)
    ensures Next(s, opts, urlOf, fetch) == Advance(s, opts, false, [])
  {
  }

  /** A call that returns false without an error and without a request has reached the end. */
  lemma QuietFalseIsEnd(s: Stream, opts: ListingOptions, urlOf: UrlBuilder, fetch: Fetcher)
    requires s.err.None?
    requires !Next(s, opts, urlOf, fetch).more && Next(s, opts, urlOf, fetch).stream.err.None?
    requires Next(s, opts, urlOf, fetch).effects == []
    ensures AtEnd(Next(s, opts, urlOf, fetch).stream)
    ensures Next(s, opts, urlOf, fetch).stream == Stepped(s)
  {
  }

  /** The requests of a call: exactly when `NeedsFetch`, a URL from the page's `after`, then a GET of it. */
  lemma FetchHappensIff(s: Stream, opts: ListingOptions, urlOf: UrlBuilder, fetch: Fetcher)
    ensures Next(s, opts, urlOf, fetch).effects != [] <==> NeedsFetch(s)
    ensures NeedsFetch(s) ==>
              && Next(s, opts, urlOf, fetch).effects[0] == BuildUrl(opts.(after := s.listing.after))
              && Next(s, opts, urlOf, fetch).opts.after == s.listing.after
              && (|Next(s, opts, urlOf, fetch).effects| == 2 <==> urlOf(opts.(after := s.listing.after)).Success?)
  {
  }

  /** A URL the lister cannot build is the terminal error; the page is kept. */
  lemma UrlFailureIsTerminal(s: Stream, opts: ListingOptions, urlOf: UrlBuilder, fetch: Fetcher)
    requires NeedsFetch(s)
    requires urlOf(opts.(after := s.listing.after)).Failure?
    ensures Next(s, opts, urlOf, fetch) ==
            Advance(Stepped(s).(err := Some(UrlFailed(urlOf(opts.(after := s.listing.after)).error))),
                    opts.(after := s.listing.after), false, [BuildUrl(opts.(after := s.listing.after))])
  {
  }

  /** A failed request is the terminal error; the page is kept but the index is reset to 0. */
  lemma FetchFailureIsTerminal(s: Stream, opts: ListingOptions, urlOf: UrlBuilder, fetch: Fetcher, url: string)
    requires NeedsFetch(s)
    requires urlOf(opts.(after := s.listing.after)) == Success(url) && fetch(url).Failure?
    ensures Next(s, opts, urlOf, fetch) ==
            Advance(Stream(s.listing, 0, Some(FetchFailed(fetch(url).error))),
                    opts.(after := s.listing.after), false, [BuildUrl(opts.(after := s.listing.after)), Get(url)])
  {
  }

  /**
   * A fetched page replaces the cached one, the index restarts at 0, the
   * page's length is added to `count` (with Go's wrap-around), and the call
   * returns true iff the page is non-empty.
   */
  lemma FetchReplacesPage(s: Stream, opts: ListingOptions, urlOf: UrlBuilder, fetch: Fetcher, url: string, page: Listing)
    requires NeedsFetch(s)
    requires urlOf(opts.(after := s.listing.after)) == Success(url)
    requires fetch(url).Success? && fetch(url).value.data == ListingData(page)
    ensures Next(s, opts, urlOf, fetch) ==
            Advance(Stream(page, 0, None),
                    opts.(after := s.listing.after, count := WrapInt64(opts.count + |page.children|)),
                    |page.children| > 0,
                    [BuildUrl(opts.(after := s.listing.after)), Get(url)])
    ensures |page.children| > 0 ==> Current(Next(s, opts, urlOf, fetch).stream) == page.children[0]
  {
  }

  /**
   * An empty page that still names a next page ends the call with false but
   * no error, and the following call fetches again from that page's token.
   */
  lemma EmptyPageFetchesAgain(s: Stream, opts: ListingOptions, urlOf: UrlBuilder, fetch: Fetcher, url: string, page: Listing)
    requires NeedsFetch(s)
    requires urlOf(opts.(after := s.listing.after)) == Success(url)
    requires fetch(url).Success? && fetch(url).value.data == ListingData(page)
    requires page.children == [] && page.after != ""
    ensures !Next(s, opts, urlOf, fetch).more && Next(s, opts, urlOf, fetch).stream.err.None?
    ensures NeedsFetch(Next(s, opts, urlOf, fetch).stream)
    ensures var a := Next(s, opts, urlOf, fetch);
            Next(a.stream, a.opts, urlOf, fetch).effects[0] == BuildUrl(a.opts.(after := page.after))
  {
    FetchReplacesPage(s, opts, urlOf, fetch, url, page);
  }

  /** `Thing()` after a call: the entity the call moved to if it returned true, else the zero `Thing`. */
  lemma CurrentAfterNext(s: Stream, opts: ListingOptions, urlOf: UrlBuilder, fetch: Fetcher)
    ensures var a := Next(s, opts, urlOf, fetch);
            && (a.more ==> Current(a.stream) == a.stream.listing.children[a.stream.index])
            && (!a.more ==> Current(a.stream) == ZeroThing)
  {
  }

  // ---------------------------------------------------------- several calls

  /** A single call: `Next`, then `Thing()` on the stream it leaves. */
  lemma OneCall(c: Cursor, urlOf: UrlBuilder, fetch: Fetcher)
    ensures var a := Next(c.stream, c.opts, urlOf, fetch);
            Calls(c, urlOf, fetch, 1) == Trace(Cursor(a.stream, a.opts), [Call(a.more, Current(a.stream), a.effects)])
  {
    assert Iterate(Step(urlOf, fetch), c, 0).outputs == [];
  }

  /** `m + n` calls are `m` calls followed by `n` more from where those left off. */
  lemma CallsThen(c: Cursor, urlOf: UrlBuilder, fetch: Fetcher, m: nat, n: nat, total: nat,
                  first: Trace<Cursor, Call>, second: Trace<Cursor, Call>)
    requires total == m + n
    requires Calls(c, urlOf, fetch, m) == first
    requires Calls(first.last, urlOf, fetch, n) == second
    ensures Calls(c, urlOf, fetch, total) == Trace(second.last, first.outputs + second.outputs)
  {
    IterateThen(Step(urlOf, fetch), c, m, n, total, first, second);
  }

  /** A call that returns false shows the zero `Thing`, over any number of calls. */
  lemma FalseReadsNothing(c: Cursor, urlOf: UrlBuilder, fetch: Fetcher, n: nat)
    ensures forall i :: 0 <= i < n && !Calls(c, urlOf, fetch, n).outputs[i].more ==>
              Calls(c, urlOf, fetch, n).outputs[i].thing == ZeroThing
  {
    EveryOutput(Step(urlOf, fetch), c, n, (o: Call) => o.more || o.thing == ZeroThing);
  }

  /** The URLs a sequence of calls requested, in order. */
  function Requests(calls: seq<Call>): (r: seq<string>)
    ensures calls == [] ==> r == []
  {
    if calls == [] then [] else Gets(calls[0].effects) + Requests(calls[1..])
  }

  function Gets(effects: seq<Effect>): seq<string> {
    if effects == [] then []
    else (if effects[0].Get? then [effects[0].url] else []) + Gets(effects[1..])
  }

  /** The call a stream with an error answers with, for good. */
  const Dead: Call := Call(false, ZeroThing, [])

  /** After an error every call returns false, reads nothing, touches nothing and changes nothing. */
  lemma {:induction false} ErrorRun(c: Cursor, urlOf: UrlBuilder, fetch: Fetcher, n: nat)
    requires c.stream.err.Some?
    ensures Calls(c, urlOf, fetch, n) == Trace(c, Repeat(Dead, n))
  {
    ErrorIsTerminal(c.stream, c.opts, urlOf, fetch);
    FixedPointRepeats(Step(urlOf, fetch), c, Dead, n);
  }

  /** At the end every call returns false, reads nothing, touches nothing and changes nothing. */
  lemma {:induction false} EndRun(c: Cursor, urlOf: UrlBuilder, fetch: Fetcher, n: nat)
    requires AtEnd(c.stream)
    ensures Calls(c, urlOf, fetch, n) == Trace(c, Repeat(Dead, n))
  {
    EndIsFixedPoint(c.stream, c.opts, urlOf, fetch);
    FixedPointRepeats(Step(urlOf, fetch), c, Dead, n);
  }

  /** What reading the entities `ts` from a cached page shows: true and each entity in turn, no requests. */
  function Reads(ts: seq<Thing>): (r: seq<Call>)
    ensures |r| == |ts| && forall i :: 0 <= i < |ts| ==> r[i] == Call(true, ts[i], [])
  {
    if ts == [] then [] else [Call(true, ts[0], [])] + Reads(ts[1..])
  }

  /**
   * While the current page has `j` more entities, the next `j` calls return
   * true and read those entities in order, without any request.
   */
  lemma CachedRun(c: Cursor, urlOf: UrlBuilder, fetch: Fetcher, j: nat)
    requires c.stream.err.None? && 0 <= c.stream.index && c.stream.index + j < |c.stream.listing.children|
    ensures Calls(c, urlOf, fetch, j) ==
            Trace(c.(stream := c.stream.(index := c.stream.index + j)),
                  Reads(c.stream.listing.children[c.stream.index + 1..c.stream.index + j + 1]))
  {
    CachedPath(c, urlOf, fetch, j);
  }

  lemma CachedPath(c: Cursor, urlOf: UrlBuilder, fetch: Fetcher, j: nat)
    requires c.stream.err.None? && 0 <= c.stream.index && c.stream.index + j < |c.stream.listing.children|
    ensures var states := Positions(c, j);
            Iterate(Step(urlOf, fetch), c, j) ==
            Trace(states[j], Reads(c.stream.listing.children[c.stream.index + 1..c.stream.index + j + 1]))
  {
    var x := c.stream.index;
    var ts := c.stream.listing.children;
    var states := Positions(c, j);
    var outs := Reads(ts[x + 1..x + j + 1]);
    CachedSteps(c, urlOf, fetch, j);
    FollowsPath(Step(urlOf, fetch), c, j, states, outs);
  }

  /** Each of those calls, one at a time. */
  lemma CachedSteps(c: Cursor, urlOf: UrlBuilder, fetch: Fetcher, j: nat)
    requires c.stream.err.None? && 0 <= c.stream.index && c.stream.index + j < |c.stream.listing.children|
    ensures var states := Positions(c, j);
            var outs := Reads(c.stream.listing.children[c.stream.index + 1..c.stream.index + j + 1]);
            forall k :: 0 <= k < j ==> Step(urlOf, fetch)(states[k]) == (states[k + 1], outs[k])
  {
    forall k | 0 <= k < j
      ensures Step(urlOf, fetch)(Positions(c, j)[k]) ==
              (Positions(c, j)[k + 1], Reads(c.stream.listing.children[c.stream.index + 1..c.stream.index + j + 1])[k])
    {
      CachedStepAt(c, urlOf, fetch, j, k);
    }
  }

  lemma CachedStepAt(c: Cursor, urlOf: UrlBuilder, fetch: Fetcher, j: nat, k: nat)
    requires c.stream.err.None? && 0 <= c.stream.index && c.stream.index + j < |c.stream.listing.children|
    requires k < j
    ensures Step(urlOf, fetch)(Positions(c, j)[k]) ==
            (Positions(c, j)[k + 1], Reads(c.stream.listing.children[c.stream.index + 1..c.stream.index + j + 1])[k])
  {
    var x := c.stream.index;
    var ck := Positions(c, j)[k];
    assert ck == c.(stream := c.stream.(index := x + k));
    CachedObserve(ck, urlOf, fetch);
  }

  /** The cursor at each of the next `j` positions of its page, starting where it is. */
  function Positions(c: Cursor, j: nat): (r: seq<Cursor>)
    ensures |r| == j + 1
    ensures forall k :: 0 <= k <= j ==> r[k] == c.(stream := c.stream.(index := c.stream.index + k))
  {
    if j == 0 then [c] else Positions(c, j - 1) + [c.(stream := c.stream.(index := c.stream.index + j))]
  }

  lemma CachedObserve(c: Cursor, urlOf: UrlBuilder, fetch: Fetcher)
    requires c.stream.err.None? && 0 <= c.stream.index && c.stream.index + 1 < |c.stream.listing.children|
    ensures Step(urlOf, fetch)(c) ==
            (c.(stream := c.stream.(index := c.stream.index + 1)),
             Call(true, c.stream.listing.children[c.stream.index + 1], []))
  {
    CachedStep(c.stream, c.opts, urlOf, fetch);
  }

  /** One call that fetches a page. */
  lemma FetchCall(c: Cursor, urlOf: UrlBuilder, fetch: Fetcher, url: string, page: Listing)
    requires NeedsFetch(c.stream)
    requires urlOf(c.opts.(after := c.stream.listing.after)) == Success(url)
    requires fetch(url).Success? && fetch(url).value.data == ListingData(page)
    ensures var o := c.opts.(after := c.stream.listing.after);
            Calls(c, urlOf, fetch, 1) ==
            Trace(Cursor(Stream(page, 0, None), o.(count := WrapInt64(o.count + |page.children|))),
                  [Call(|page.children| > 0, Current(Stream(page, 0, None)), [BuildUrl(o), Get(url)])])
  {
    FetchReplacesPage(c.stream, c.opts, urlOf, fetch, url, page);
    OneCall(c, urlOf, fetch);
  }
}
