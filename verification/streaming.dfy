/**
 * The listing stream: a forward-only cursor over the entities of a paged
 * listing. It holds the current page, a position in it and a sticky error,
 * and it shares a mutable `ListingOptions` with the lister that builds the
 * page URLs: each fetch writes the current page's `after` token into the
 * options before the URL is built, and adds the new page's length to
 * `count`.
 */
module Streaming {
  import opened Wrappers
  import opened Numbers
  import opened Things
  import opened Traces

  /** `ListingOptions`: the paging parameters the lister turns into a URL. */
  datatype ListingOptions = ListingOptions(after: string, before: string, count: Int64, limit: Int64, show: string)

  /**
   * `Lister.URL()` as a function of the options `List()` exposes; whatever
   * else the lister holds (subreddit, sort) is fixed for the stream's life.
   */
  type UrlBuilder = ListingOptions -> Result<string, string>

  /**
   * `Next` asserts that a fetched `Thing` holds a `*Listing` and would panic
   * on any other payload; the fetcher is therefore typed to deliver only those.
   */
  type ListingThing = t: Thing | t.data.ListingData? witness Thing("", "", "Listing", ListingData(EmptyListing))

  /**
   * `Config.Get` into a `Thing`: an HTTP request whose body is decoded. As a
   * function of the URL it gives the same answer every time that URL is asked for.
   */
  type Fetcher = string -> Result<ListingThing, string>

  datatype StreamError = UrlFailed(message: string) | FetchFailed(message: string)

  /** `Stream` without its borrowed config, client and lister. */
  datatype Stream = Stream(listing: Listing, index: int, err: Option<StreamError>)

  /** What a call did to the outside world, in order. */
  datatype Effect = BuildUrl(from: ListingOptions) | Get(url: string)

  /** The state after one call to `Next`, the options as left in the lister, and the result. */
  datatype Advance = Advance(stream: Stream, opts: ListingOptions, more: bool, effects: seq<Effect>)

  /** `Config.Stream`: nothing read yet. */
  const NewStream: Stream := Stream(EmptyListing, -1, None)

  /** `indexValid`. */
  predicate IndexValid(s: Stream) {
    0 <= s.index < |s.listing.children|
  }

  /** `Stream.Thing()`: the current entity, or the zero `Thing` after an error or past the end. */
  function Current(s: Stream): (t: Thing)
    ensures s.err.None? && IndexValid(s) ==> t == s.listing.children[s.index]
    ensures s.err.Some? || !IndexValid(s) ==> t == ZeroThing
  {
    if s.err.None? && IndexValid(s) then s.listing.children[s.index] else ZeroThing
  }

  /** `Stream.Next()`. */
  function Next(s: Stream, opts: ListingOptions, urlOf: UrlBuilder, fetch: Fetcher): (r: Advance)
    ensures r.more <==> r.stream.err.None? && IndexValid(r.stream)
  {
    if s.err.Some? then Advance(s, opts, false, [])
    else
      var s1 := if IndexValid(s) then s.(index := s.index + 1) else s;
      if IndexValid(s1) then Advance(s1, opts, true, [])
      else if s1.listing.after == "" && s1.index != -1 then Advance(s1, opts, false, [])
      else
        var o1 := opts.(after := s1.listing.after);
        match urlOf(o1)
        case Failure(e) => Advance(s1.(err := Some(UrlFailed(e))), o1, false, [BuildUrl(o1)])
        case Success(url) =>
          match fetch(url)
          case Failure(e) => Advance(s1.(index := 0, err := Some(FetchFailed(e))), o1, false, [BuildUrl(o1), Get(url)])
          case Success(t) =>
            var l := t.data.listing;
            var s2 := Stream(l, 0, None);
            Advance(s2, o1.(count := WrapInt64(o1.count + |l.children|)), IndexValid(s2), [BuildUrl(o1), Get(url)])
  }

  /** Where a caller stands between calls: the stream and the lister's options. */
  datatype Cursor = Cursor(stream: Stream, opts: ListingOptions)

  /** What one call of `Next` followed by `Thing()` shows the caller. */
  datatype Call = Call(more: bool, thing: Thing, effects: seq<Effect>)

  function Observe(c: Cursor, urlOf: UrlBuilder, fetch: Fetcher): (r: (Cursor, Call))
    ensures r.1.more ==> IndexValid(r.0.stream) && r.1.thing == r.0.stream.listing.children[r.0.stream.index]
    ensures !r.1.more ==> r.1.thing == ZeroThing
  {
    var a := Next(c.stream, c.opts, urlOf, fetch);
    (Cursor(a.stream, a.opts), Call(a.more, Current(a.stream), a.effects))
  }

  /** One call, as a step function for `Iterate`. */
  function Step(urlOf: UrlBuilder, fetch: Fetcher): Cursor -> (Cursor, Call) {
    c => Observe(c, urlOf, fetch)
  }

  /** `n` successive calls of `Next`, each followed by `Thing()`. */
  function Calls(c: Cursor, urlOf: UrlBuilder, fetch: Fetcher, n: nat): (r: Trace<Cursor, Call>)
    ensures |r.outputs| == n
  {
    Iterate(Step(urlOf, fetch), c, n)
  }
}
