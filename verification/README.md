# reddit-go: entity decoding and listing streams

A Dafny model of the two pure-logic parts of the `reddit-go` client library.

**The entity decoder (`types.go`).** Every object the reddit API returns comes in an envelope `{id, name, kind, data}`. `Thing.UnmarshalJSON` looks `kind` up in a fixed table and decodes `data` into the payload type the table names. `Listing.children` and `Comment.replies` hold further envelopes, so decoding is recursive. Two field types bring their own codec:

- `Edited` is the literal `false` or a timestamp number.
- `HeaderSize` is an empty (or null) array or a two-element integer array.

**The listing stream (`read.go`).** A `Stream` is a forward-only cursor over a paged listing. It holds the current page, an index into it and a sticky error. It shares a mutable `ListingOptions` with the lister that builds page URLs. `Next` has four paths:

- read the next cached entity;
- report the end of the listing;
- fetch the next page, writing the page's `after` token into the options before the URL is built and adding the new page's length to `count`;
- latch an error for good.

Modules, one per file:

| file | module | contents |
|---|---|---|
| wrappers.dfy | `Wrappers` | `Option`, `Result` |
| numbers.dfy | `Numbers` | Go's 64-bit `int`, its wrap-around, `%d` and `strconv.ParseInt` |
| json.dfy | `Json` | JSON values and the rules `encoding/json` follows when it stores a value into a Go field |
| codecs.dfy | `Codecs` | `Edited` and `HeaderSize` |
| things.dfy | `Things` | `Thing`, its payloads, the kind table, the decoder and the encoder |
| thing_laws.dfy | `ThingLaws` | kind table, error propagation and round trips |
| payload_laws.dfy | `PayloadLaws` | each payload type member by member: which members it accepts, what each field holds, which error is reported |
| traces.dfy | `Traces` | runs of a step function, independent of the stream |
| streaming.dfy | `Streaming` | `Stream`, `ListingOptions`, `Next`, `Thing()` |
| stream_laws.dfy | `StreamLaws` | each path of `Next`, and runs of several calls |
| scenario.dfy | `TopPostsScenario` | the top-posts stream over three pages of 5, 5 and 2 posts |

JSON is modelled at the value level, after the text has been parsed:

- Object members are visited in order.
- A `null` leaves a string or integer field as it was.
- A value of the wrong JSON type is remembered and decoding goes on; the first such error is reported at the end.
- An error returned by a type's own `UnmarshalJSON` stops decoding at once.

A decoder returns `Failure` instead of writing into its receiver. So "on failure the receiver is unchanged" holds by construction, and the success value is the only thing assigned.

`Next` is a pure function of the stream, the options, a URL builder and a fetcher. It returns the new stream, the new options, the boolean result and the effects it had in order: `BuildUrl(options)` and `Get(url)`. `Calls(c, urlOf, fetch, n)` is `n` successive calls of `Next`, each followed by `Thing()`.

## Model

| member | source | states |
|---|---|---|
| Things.LookupKind | types.go:32-46 | the table maps a kind string to a payload type exactly when that type's name is the string; each of the six names maps to its own type |
| ThingLaws.KindTableExact | types.go:32-46 | exactly `Listing`, `t1` … `t5` decode; `more` (the kind of `More`, types.go:275-277) has no entry |
| Things.DecodeEnvelope | types.go:19-30 | `null` gives the empty envelope and any other non-object a type mismatch naming `thingJSON`; an object decodes iff every `id`, `name` and `kind` member is a string or `null`, and each field is then the last string under its key (else ""), with `data` the last `data` member kept undecoded (absent when there is none) |
| Things.DecodeThing | types.go:26-53 | a known kind whose `data` decodes gives exactly the entity with the envelope's id, name and kind and that payload; on success the payload type is the one the kind selects; an envelope error, an unknown kind (`unsupported kind`, whatever `data` holds) and an absent `data` are each the result's error |
| Things.DecodePayload | types.go:48-50 | the payload decoded has the requested type; `null` gives that type's zero value; a non-object is a type mismatch |
| Json.FinishMembers | types.go:48-50 | `json.Unmarshal` of an object into a fresh struct, step by step from the value the earlier members left: it succeeds iff every member sets its field, and then holds what the members leave; otherwise the error is the first abort's (a type's own decoder failing) or, when nothing aborts, the first mismatch's |
| Json.FirstAbortReported | types.go:48-50 | a member that aborts decides the error, whatever mismatches come before it |
| PayloadLaws.ListingDecodes | types.go:58-63 | a listing object decodes iff `before`, `after` and `modhash` are strings or `null` and `children` is `null` or an array of entities that all decode; each field is then the last member under its key that sets it |
| PayloadLaws.ListingChildAborts | types.go:62 | the first `children` array holding a failing entity stops the decode with that array's first failing element's error |
| PayloadLaws.CommentDecodes | types.go:111-137 | a comment object decodes iff `author` is a string or `null`, every `edited` is `false` or a parsable number, and `replies` is `null` or an array of entities that all decode; the fields are then the last members that set them |
| PayloadLaws.CommentEditedAborts | types.go:87-99 | in a comment, the first member that aborts, when it is an `edited` its decoder rejects, gives the error naming that token |
| PayloadLaws.CommentReplyAborts | types.go:111-137 | in a comment, the first member that aborts, when it is a `replies` array, gives its first failing element's error |
| PayloadLaws.AccountDecodes | types.go:255-270 | an account object decodes iff every `link_karma` is a 64-bit integer or `null` and every `name` a string or `null`; each field is then the last member that sets it |
| PayloadLaws.LinkDecodes | types.go:142-173 | a link object decodes iff `author` is a string or `null`, `score` a 64-bit integer or `null` and `edited` `false` or a parsable number; each field is then the last member that sets it |
| PayloadLaws.LinkEditedAborts | types.go:87-99 | in a link, the first `edited` its decoder rejects stops the decode with the error naming that token, even after a mistyped `score` or `author` |
| PayloadLaws.MessageDecodes | types.go:233-250 | a message object decodes iff `author` and `subject` are strings or `null`; each is then the last string under its key |
| PayloadLaws.SubRedditDecodes | types.go:205-228 | a subreddit object decodes iff `display_name` is a string or `null` and `header_size` is `null` or a header size the codec accepts; `display_name` is then the last string under that key |
| PayloadLaws.SubRedditHeaderAborts | types.go:180-193 | the first `header_size` the codec rejects stops the decode with the codec's error |
| ThingLaws.PayloadErrorPropagates | types.go:48-50 | a payload decode error is the error of the whole entity |
| ThingLaws.ThingsIntoArray | types.go:62 | a `[]Thing` field succeeds iff every element decodes; it then holds the elements' decodings in order, and otherwise fails with the first failing element's error |
| ThingLaws.FailingChildFailsListing | types.go:58-63 | a `children` member holding an entity that fails makes the page's decode fail, whatever members come before it |
| ThingLaws.FailingChildFailsThing | types.go:48-50 | a listing entity with a failing child fails as a whole |
| ThingLaws.ThingRoundTrip | types.go:26-53 | every well-formed entity (kind matching payload, integral timestamps) decodes back from the JSON `Things.EncodeThing` writes for it, recursively |
| ThingLaws.ListingRoundTrip | types.go:58-63 | a listing page decodes back from its encoding, children included |
| ThingLaws.CommentRoundTrip | types.go:111-137 | a comment decodes back from its encoding, replies included |
| ThingLaws.LinkRoundTrip | types.go:142-173 | a link's author, score and edit time decode back from its encoding |
| ThingLaws.MessageRoundTrip | types.go:233-250 | a message's author and subject decode back from its encoding |
| ThingLaws.AccountRoundTrip | types.go:255-270 | an account's name and link karma, any 64-bit integer, decode back from its encoding |
| ThingLaws.SubRedditRoundTrip | types.go:205-228 | a subreddit's name and header size, nil or not, decode back from its encoding |
| Codecs.DecodeEdited | types.go:87-99 | succeeds iff the token is `false` or a number `ParseFloat` accepts; `false` gives not-edited at time 0, a number gives edited at its value, and anything else fails with the token |
| Codecs.EditedFalseRoundTrip | types.go:89-92 | a not-edited value encodes as `false`, which decodes back to not-edited, and the other way round |
| Codecs.EncodeEdited | types.go:101-106 | the encoder as written succeeds exactly for a not-edited value, writing the literal `false`; an edited value has no JSON rendering |
| Codecs.EditedMarshalFails | types.go:101-106 | the encoder as written fails on an edited timestamp, where an integer rendering gives `1500000000` |
| Codecs.EditedRoundTrip | types.go:87-106 | with the integer rendering, every integral timestamp in `float64`'s exact range decodes back to itself |
| Codecs.UnmarshalHeaderSize | types.go:180-193 | null or `[]` leaves the receiver as it was; two integers replace both dimensions; any other length of integers fails with that length; a non-integer element or a non-array fails |
| Codecs.EncodeHeaderSize | types.go:195-200 | `null` exactly for the nil pointer, else a two-element array |
| Codecs.HeaderSizeRoundTrip | types.go:180-200 | every pair, `[0, 0]` included, decodes back to itself whatever the receiver held |
| Codecs.HeaderSizeFieldRoundTrip | types.go:195-200 | through the `*HeaderSize` field, nil and non-nil values both round-trip |
| Numbers.FormatParseRoundTrip | types.go:199 | every 64-bit integer printed with `%d` is read back by the integer parser `encoding/json` uses |
| Json.CollectSucceeds | types.go:62 | decoding array elements one by one succeeds iff each does, giving their values in order |
| Json.CollectFirstError | types.go:62 | a failed array decode reports the first failing element's error |
| Json.IntItems | types.go:181-184 | a `[]int` decode succeeds iff every element is an integer or null, element by element |
| Streaming.Next | read.go:46-77 | the result is true exactly when the new state has no error and a valid index |
| StreamLaws.NextKeepsPositioned | read.go:39-77 | every call keeps the index within −1 … the page's length, and −1 only while the page is empty |
| StreamLaws.NextShape | read.go:49-77 | an error is never cleared; within a page the index moves by at most one or restarts at 0; only `after` and `count` of the options change, and only in a call that builds a URL from the page's `after`; a request is made only for the URL that was built |
| Numbers.WrapInt64 | read.go:75 | `count +=` wraps as Go's 64-bit `int`: a sum in range is kept, any other differs from the result by a multiple of 2^64 |
| StreamLaws.NewStreamFetches | read.go:92-94 | a new stream has index −1, no error and an empty page; its first call builds a URL from options with `after` empty |
| StreamLaws.ErrorIsTerminal | read.go:50-52 | with an error set, `Next` returns false and changes nothing: no URL, no request, no option update |
| StreamLaws.CachedStep | read.go:53-59 | with a next entity on the page, `Next` moves to it and returns true without a URL or a request |
| StreamLaws.EndIsFixedPoint | read.go:60-62 | with the page exhausted, `after` empty and index not −1, `Next` returns false with no error and changes nothing |
| StreamLaws.QuietFalseIsEnd | read.go:60-62 | a call that returns false without an error and without any request has reached that end state |
| StreamLaws.FetchHappensIff | read.go:60-68 | a call builds a URL exactly when nothing is cached and a page is still to ask for; the options then carry the page's `after`; a request follows iff the URL was built |
| StreamLaws.UrlFailureIsTerminal | read.go:63-68 | a URL error becomes the stream's error, `after` is already written, the page is kept, and the call returns false |
| StreamLaws.FetchFailureIsTerminal | read.go:69-73 | a request error becomes the stream's error, the page is kept, the index is reset to 0, and the call returns false |
| StreamLaws.FetchReplacesPage | read.go:69-76 | a fetched page replaces the cached one at index 0 and `count` grows by its length (with Go's wrap-around); the call returns true iff the page is non-empty, and `Thing()` is then its first entity |
| StreamLaws.EmptyPageFetchesAgain | read.go:60-76 | an empty page that names a next page makes `Next` return false with no error, and the next call fetches again from that page's `after` |
| StreamLaws.CurrentAfterNext | read.go:79-87 | after a call, `Thing()` is the entity moved to if the call returned true, else the zero `Thing` |
| StreamLaws.ErrorRun | read.go:50-52 | after an error, any number of calls return false, show the zero `Thing`, request nothing and leave the state as it was |
| StreamLaws.EndRun | read.go:60-62 | at the end, any number of calls return false and change nothing |
| StreamLaws.CachedRun | read.go:53-59 | the next `j` calls within a page return true and show its next `j` entities in order, without any request |
| StreamLaws.FalseReadsNothing | read.go:79-87 | over any number of calls, every call that returns false is followed by the zero `Thing` |
| TopPostsScenario.ServerDecodesBodies | requests_test.go:216-238 | the three page bodies (posts `author0` … `author11`, `after` `4`, `9`, then empty) decode to the pages the stream is served |
| TopPostsScenario.QueryCarriesPaging | read.go:112-118 | `after` and `count` are sent exactly when they are set |
| TopPostsScenario.QueryOmitsEmpty | read.go:112-118 | every tag is `omitempty`, so no parameter is sent with an empty value |
| TopPostsScenario.QueryCarriesShape | read.go:133-137 | `limit` and `t` are sent exactly when they are set |
| TopPostsScenario.ThirteenCalls | requests_test.go:240-281 | thirteen calls on a new top-posts stream: three pages are fetched from the URLs the test expects, the second with `after=4&count=5` and the third with `after=9&count=10`; twelve posts are read; then false |
| TopPostsScenario.StreamsTwelvePosts | requests_test.go:271-281 | the stream reads `author0` … `author11` in order, has no error, requests exactly the three page URLs, leaves `after=9` and `count=12`, and returns false on every later call |

## Left out

- `auth.go`: reading and writing the config file and the OAuth token request are I/O.
- `Config.Get` (read.go:13-29) is the `Fetcher` parameter: an HTTP GET whose body is decoded into a `Thing`, or an error. The decoding itself is modelled by `Things.DecodeThing`, and the scenario's server is proved consistent with it by `TopPostsScenario.ServerDecodesBodies`.
- `TopPosts.URL` (read.go:140-146) is the `UrlBuilder` parameter in general. The scenario gives it a concrete form, `TopPostsScenario.TopPostsUrl`. That form does not percent-escape values, which is exact for the digits and words the scenario sends.
- The type assertion `t.Data.(*Listing)` at read.go:74 panics on a non-listing page. The fetcher's result type, `ListingThing`, admits only listings, so the panic is out of the model's reach rather than modelled.
- `strconv.ParseFloat` is an abstract parameter. Numbers become reals, with no rounding to `float64`.
- `ThingLaws.ThingRoundTrip`: holds for `Things.EncodeThing`, which writes only the kept fields and an edited timestamp as an integer. It is not a round trip through the program's `json.Marshal`, which fails on an edited comment or link (see Findings).
- `ThingLaws.ListingRoundTrip`: the same encoder, so the same limit as `ThingLaws.ThingRoundTrip`.
- `ThingLaws.CommentRoundTrip`: the same encoder; an edited comment round-trips only through the integer rendering.
- `ThingLaws.LinkRoundTrip`: the same encoder; an edited link round-trips only through the integer rendering.
- `StreamLaws.EmptyPageFetchesAgain`: the `Fetcher` is a function of the URL, so the same URL always gets the same answer. A server whose answer changes between requests is not modelled, so a server that sends an empty page and then, for the same URL, a full one is out of reach. The lemma states only that the next call builds its URL from the empty page's token.
- `Codecs.EditedRoundTrip` is stated only for integral timestamps in `float64`'s exact range, and only for a parser that reads such integers exactly. It is also stated for the corrected encoder, not the one as written (see Findings).
- The `float64` `Created` fields, `Votable` and most plain fields of the payload structs are left out. They are copied field by field like the representative ones kept (`author`, `score`, `edited`, `replies`, `link_karma`, `name`, `subject`, `display_name`, `header_size`). Because they are not modelled, a member of the wrong JSON type under one of those keys is ignored by the model where Go rejects it: `{"kind":"t3","data":{"num_comments":"many"}}` fails in Go (`NumComments int`, types.go:158) and decodes in the model to a link with empty fields.
- `encoding/json`'s case-insensitive key match is left out: keys match exactly. JSON text syntax errors are left out: decoding starts from a parsed value.
- Nil and empty slices are the same sequence.
- `PayloadLaws.SubRedditDecodes`: the final `header_size` is not stated as the last member under that key, because it is not one. An empty array keeps a pair that is already set but turns a nil pointer into `[0, 0]`. Only `Json.FinishMembers` describes it, as the value the members leave.
- `Stream.Error()` is the stream's `err` field. `Config.Stream` is the constant `NewStream`.
- Concurrency: a stream is used from one goroutine.

## Findings

| source | as written | input that shows it | evidently intended | confidence | as-written member | corrected member |
|---|---|---|---|---|---|---|
| types.go:103 | `Edited.MarshalJSON` formats the `float64` timestamp with `%d`. For a float, Go prints `%!d(float64=…)`, which is not JSON, so `json.Marshal` fails on every edited entity it reaches through a pointer, as the method has a pointer receiver | `Edited{Unix: 1500000000, Edited: true}` | the timestamp written as an integer, `1500000000`, which `UnmarshalJSON` reads back | high, not executed | Codecs.EncodeEdited, Codecs.EditedMarshalFails | Codecs.EncodeEditedAsInteger, Codecs.EditedRoundTrip |
