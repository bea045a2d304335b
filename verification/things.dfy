/**
 * The API's entity envelope `{id, name, kind, data}` and its decoder: `kind`
 * picks, from a fixed table, which payload type `data` is decoded into, and a
 * `Listing` payload holds further envelopes, so decoding is recursive.
 */
module Things {
  import opened Wrappers
  import opened Numbers
  import opened Json
  import opened Codecs

  // ------------------------------------------------------------ data model

  /** An API entity. `data` is `NoPayload` only in the zero `Thing`. */
  datatype Thing = Thing(id: string, name: string, kind: string, data: Payload)

  datatype Payload =
    | NoPayload
    | ListingData(listing: Listing)
    | CommentData(comment: Comment)
    | AccountData(account: Account)
    | LinkData(link: Link)
    | MessageData(message: Message)
    | SubRedditData(subreddit: SubReddit)

  /** A page of entities; `after` is the token of the next page, "" if none. */
  datatype Listing = Listing(before: string, after: string, modhash: string, children: seq<Thing>)

  // Representative fields of the content payloads.
  datatype Comment = Comment(author: string, edited: Edited, replies: seq<Thing>)
  datatype Link = Link(author: string, score: Int64, edited: Edited)
  datatype Account = Account(linkKarma: Int64, name: string)
  datatype Message = Message(author: string, subject: string)
  datatype SubReddit = SubReddit(displayName: string, headerSize: Option<HeaderSize>)

  const ZeroThing: Thing := Thing("", "", "", NoPayload)
  const EmptyListing: Listing := Listing("", "", "", [])
  const EmptyComment: Comment := Comment("", NotEdited, [])
  const EmptyLink: Link := Link("", 0, NotEdited)
  const EmptyAccount: Account := Account(0, "")
  const EmptyMessage: Message := Message("", "")
  const EmptySubReddit: SubReddit := SubReddit("", None)

  // ------------------------------------------------------------ kind table

  /** The payload types the decoder knows; `More` has no entry. */
  datatype PayloadKind = KListing | KComment | KAccount | KLink | KMessage | KSubReddit

  /** The `kind` string the API uses for each payload type. */
  function KindName(k: PayloadKind): string {
    match k
    case KListing => "Listing"
    case KComment => "t1"
    case KAccount => "t2"
    case KLink => "t3"
    case KMessage => "t4"
    case KSubReddit => "t5"
  }

  /** The dispatch table of `Thing.UnmarshalJSON`. */
  function LookupKind(kind: string): (r: Option<PayloadKind>)
    ensures r.Some? ==> KindName(r.value) == kind
    ensures forall k :: KindName(k) == kind ==> r == Some(k)
  {
    if kind == "Listing" then Some(KListing)
    else if kind == "t1" then Some(KComment)
    else if kind == "t2" then Some(KAccount)
    else if kind == "t3" then Some(KLink)
    else if kind == "t4" then Some(KMessage)
    else if kind == "t5" then Some(KSubReddit)
    else None
  }

  function KindOf(p: Payload): Option<PayloadKind> {
    match p
    case NoPayload => None
    case ListingData(_) => Some(KListing)
    case CommentData(_) => Some(KComment)
    case AccountData(_) => Some(KAccount)
    case LinkData(_) => Some(KLink)
    case MessageData(_) => Some(KMessage)
    case SubRedditData(_) => Some(KSubReddit)
  }

  /** The freshly allocated payload `data` is decoded into. */
  function ZeroPayload(k: PayloadKind): (p: Payload)
    ensures KindOf(p) == Some(k)
  {
    match k
    case KListing => ListingData(EmptyListing)
    case KComment => CommentData(EmptyComment)
    case KAccount => AccountData(EmptyAccount)
    case KLink => LinkData(EmptyLink)
    case KMessage => MessageData(EmptyMessage)
    case KSubReddit => SubRedditData(EmptySubReddit)
  }

  /** Go's name for the payload type, as a type mismatch reports it. */
  function TypeNameOf(k: PayloadKind): string {
    match k
    case KListing => "Listing"
    case KComment => "Comment"
    case KAccount => "Account"
    case KLink => "Link"
    case KMessage => "Message"
    case KSubReddit => "SubReddit"
  }

  // -------------------------------------------------------------- envelope

  /** `thingJSON`: the envelope with `data` kept undecoded; `None` if absent. */
  datatype Envelope = Envelope(id: string, name: string, kind: string, data: Option<Value>)

  const EmptyEnvelope: Envelope := Envelope("", "", "", None)

  /** Storing one member of the envelope object; the context is unused. */
  function EnvelopeField(env: Envelope, key: string, v: Value, u: ()): Step<Envelope> {
    if key == "id" then StringInto(v, env.id).Map(s => env.(id := s))
    else if key == "name" then StringInto(v, env.name).Map(s => env.(name := s))
    else if key == "kind" then StringInto(v, env.kind).Map(s => env.(kind := s))
    else if key == "data" then Set(env.(data := Some(v)))
    else Set(env)
  }

  /** A member the envelope accepts: `id`, `name` and `kind` must be strings or `null`. */
  predicate EnvelopeFits(key: string, v: Value, u: ()) {
    key == "id" || key == "name" || key == "kind" ==> v.JString? || v.JNull?
  }

  /** `data` is kept as it stands, `null` included. */
  function Present<C>(v: Value, context: C): Option<Option<Value>> {
    Some(Some(v))
  }

  /** An object decodes as an envelope iff every member fits. */
  lemma EnvelopeFoldFits(ms: seq<(string, Value)>)
    ensures Finish(Members(ms, Partial(EmptyEnvelope, None), EnvelopeField, ())).Success? <==>
            forall j :: 0 <= j < |ms| ==> EnvelopeFits(ms[j].0, ms[j].1, ())
  {
    forall t, k, w ensures EnvelopeField(t, k, w, ()).Set? <==> EnvelopeFits(k, w, ()) {
    }
    FinishMembersFit(ms, EmptyEnvelope, EnvelopeField, (), EnvelopeFits);
  }

  lemma EnvelopeIdSlot(ms: seq<(string, Value)>)
    requires forall n :: 0 <= n < |ms| ==> StepAt(ms, n, EmptyEnvelope, EnvelopeField, ()).Set?
    ensures After(ms, |ms|, EmptyEnvelope, EnvelopeField, ()).id == LastOr(ms, "id", StringOf, (), "")
  {
    forall t, w | EnvelopeField(t, "id", w, ()).Set?
      ensures EnvelopeField(t, "id", w, ()).value.id == (if StringOf(w, ()).Some? then StringOf(w, ()).value else t.id) {
    }
    forall t, k, w | k != "id" && EnvelopeField(t, k, w, ()).Set?
      ensures EnvelopeField(t, k, w, ()).value.id == t.id {
    }
    AfterSlot(ms, EmptyEnvelope, EnvelopeField, (), "id", (e: Envelope) => e.id, StringOf);
  }

  lemma EnvelopeNameSlot(ms: seq<(string, Value)>)
    requires forall n :: 0 <= n < |ms| ==> StepAt(ms, n, EmptyEnvelope, EnvelopeField, ()).Set?
    ensures After(ms, |ms|, EmptyEnvelope, EnvelopeField, ()).name == LastOr(ms, "name", StringOf, (), "")
  {
    forall t, w | EnvelopeField(t, "name", w, ()).Set?
      ensures EnvelopeField(t, "name", w, ()).value.name == (if StringOf(w, ()).Some? then StringOf(w, ()).value else t.name) {
    }
    forall t, k, w | k != "name" && EnvelopeField(t, k, w, ()).Set?
      ensures EnvelopeField(t, k, w, ()).value.name == t.name {
    }
    AfterSlot(ms, EmptyEnvelope, EnvelopeField, (), "name", (e: Envelope) => e.name, StringOf);
  }

  lemma EnvelopeKindSlot(ms: seq<(string, Value)>)
    requires forall n :: 0 <= n < |ms| ==> StepAt(ms, n, EmptyEnvelope, EnvelopeField, ()).Set?
    ensures After(ms, |ms|, EmptyEnvelope, EnvelopeField, ()).kind == LastOr(ms, "kind", StringOf, (), "")
  {
    forall t, w | EnvelopeField(t, "kind", w, ()).Set?
      ensures EnvelopeField(t, "kind", w, ()).value.kind == (if StringOf(w, ()).Some? then StringOf(w, ()).value else t.kind) {
    }
    forall t, k, w | k != "kind" && EnvelopeField(t, k, w, ()).Set?
      ensures EnvelopeField(t, k, w, ()).value.kind == t.kind {
    }
    AfterSlot(ms, EmptyEnvelope, EnvelopeField, (), "kind", (e: Envelope) => e.kind, StringOf);
  }

  lemma EnvelopeDataSlot(ms: seq<(string, Value)>)
    requires forall n :: 0 <= n < |ms| ==> StepAt(ms, n, EmptyEnvelope, EnvelopeField, ()).Set?
    ensures After(ms, |ms|, EmptyEnvelope, EnvelopeField, ()).data == LastOr(ms, "data", Present, (), None)
  {
    forall t, w | EnvelopeField(t, "data", w, ()).Set?
      ensures EnvelopeField(t, "data", w, ()).value.data == Present(w, ()).value {
    }
    forall t, k, w | k != "data" && EnvelopeField(t, k, w, ()).Set?
      ensures EnvelopeField(t, k, w, ()).value.data == t.data {
    }
    AfterSlot(ms, EmptyEnvelope, EnvelopeField, (), "data", (e: Envelope) => e.data, Present);
  }

  /** The envelope's fields are the last members under their keys. */
  lemma EnvelopeFoldValue(ms: seq<(string, Value)>)
    ensures Finish(Members(ms, Partial(EmptyEnvelope, None), EnvelopeField, ())).Success? ==>
              Finish(Members(ms, Partial(EmptyEnvelope, None), EnvelopeField, ())).value ==
              Envelope(LastOr(ms, "id", StringOf, (), ""), LastOr(ms, "name", StringOf, (), ""),
                       LastOr(ms, "kind", StringOf, (), ""), LastOr(ms, "data", Present, (), None))
  {
    FinishMembers(ms, EmptyEnvelope, EnvelopeField, ());
    if Finish(Members(ms, Partial(EmptyEnvelope, None), EnvelopeField, ())).Success? {
      EnvelopeIdSlot(ms);
      EnvelopeNameSlot(ms);
      EnvelopeKindSlot(ms);
      EnvelopeDataSlot(ms);
    }
  }

  /** The first `json.Unmarshal` of `Thing.UnmarshalJSON`. */
  function DecodeEnvelope(v: Value): (r: Result<Envelope, DecodeError>)
    // `data` is kept undecoded: it is the value of one of the object's members
    ensures r.Success? && r.value.data.Some? ==>
              v.JObject? && exists j :: 0 <= j < |v.members| && v.members[j].1 == r.value.data.value
    // with no `data` member there is nothing to decode later
    ensures v.JObject? && r.Success? && (forall j :: 0 <= j < |v.members| ==> v.members[j].0 != "data") ==> r.value.data.None?
    // an object decodes iff `id`, `name` and `kind` are strings or null wherever they occur
    ensures v.JObject? ==> (r.Success? <==> forall j :: 0 <= j < |v.members| ==> EnvelopeFits(v.members[j].0, v.members[j].1, ()))
    // and then each field is the last member under its key that sets it
    ensures v.JObject? && r.Success? ==>
              r.value == Envelope(LastOr(v.members, "id", StringOf, (), ""), LastOr(v.members, "name", StringOf, (), ""),
                                  LastOr(v.members, "kind", StringOf, (), ""), LastOr(v.members, "data", Present, (), None))
    // `null` leaves the envelope empty; any other non-object is a type mismatch
    ensures v.JNull? ==> r == Success(EmptyEnvelope)
    ensures !(v.JNull? || v.JObject?) ==> r == Failure(TypeMismatch(TypeName(v), "thingJSON"))
  {
    match v
    case JNull => Success(EmptyEnvelope)
    case JObject(ms) =>
      EnvelopeFoldFits(ms);
      EnvelopeFoldValue(ms);
      LastOrSource(ms, "data", Present, (), None);
      Finish(Members(ms, Partial(EmptyEnvelope, None), EnvelopeField, ()))
    case _ => Failure(TypeMismatch(TypeName(v), "thingJSON"))
  }

  // --------------------------------------------------------------- decoder

  /**
   * `Thing.UnmarshalJSON`. The envelope must decode, its kind must be in the
   * table, and `data` must decode into that kind's payload; only then are the
   * four fields produced, so a failure leaves the receiver as it was.
   */
  function DecodeThing(v: Value, parseFloat: FloatParser): (r: Result<Thing, DecodeError>)
    ensures r.Success? ==>
              && DecodeEnvelope(v).Success?
              && r.value.id == DecodeEnvelope(v).value.id
              && r.value.name == DecodeEnvelope(v).value.name
              && r.value.kind == DecodeEnvelope(v).value.kind
    ensures r.Success? ==> KindOf(r.value.data).Some? && KindOf(r.value.data) == LookupKind(r.value.kind)
    ensures DecodeEnvelope(v).Failure? ==> r == Failure(DecodeEnvelope(v).error)
    ensures DecodeEnvelope(v).Success? && LookupKind(DecodeEnvelope(v).value.kind).None? ==>
              r == Failure(UnsupportedKind(DecodeEnvelope(v).value.kind))
    ensures (DecodeEnvelope(v).Success? && LookupKind(DecodeEnvelope(v).value.kind).Some? &&
             DecodeEnvelope(v).value.data.None?) ==> r == Failure(UnexpectedEnd)
    // a known kind whose `data` decodes gives the entity with that payload
    ensures (DecodeEnvelope(v).Success? && LookupKind(DecodeEnvelope(v).value.kind).Some? &&
             DecodeEnvelope(v).value.data.Some? &&
             DecodePayload(LookupKind(DecodeEnvelope(v).value.kind).value, DecodeEnvelope(v).value.data.value, parseFloat).Success?) ==>
              r == Success(Thing(DecodeEnvelope(v).value.id, DecodeEnvelope(v).value.name, DecodeEnvelope(v).value.kind,
                                 DecodePayload(LookupKind(DecodeEnvelope(v).value.kind).value,
                                               DecodeEnvelope(v).value.data.value, parseFloat).value))
    decreases v, 5, 0
  {
    var env :- DecodeEnvelope(v);
    match LookupKind(env.kind)
    case None => Failure(UnsupportedKind(env.kind))
    case Some(k) =>
      match env.data
      case None => Failure(UnexpectedEnd)
      case Some(d) =>
        var p :- DecodePayload(k, d, parseFloat);
        Success(Thing(env.id, env.name, env.kind, p))
  }

  /** The second `json.Unmarshal`: `data` into the payload chosen by kind. */
  function DecodePayload(k: PayloadKind, d: Value, parseFloat: FloatParser): (r: Result<Payload, DecodeError>)
    ensures r.Success? ==> KindOf(r.value) == Some(k)
    ensures d.JNull? ==> r == Success(ZeroPayload(k))
    ensures !(d.JNull? || d.JObject?) ==> r == Failure(TypeMismatch(TypeName(d), TypeNameOf(k)))
    decreases d, 4, 0
  {
    match d
    case JNull => Success(ZeroPayload(k))
    case JObject(ms) =>
      (match k
       case KListing =>
         var l :- Finish(ListingMembers(d, 0, Partial(EmptyListing, None), parseFloat));
         Success(ListingData(l))
       case KComment =>
         var c :- Finish(CommentMembers(d, 0, Partial(EmptyComment, None), parseFloat));
         Success(CommentData(c))
       case KAccount =>
         var a :- Finish(Members(ms, Partial(EmptyAccount, None), AccountField, parseFloat));
         Success(AccountData(a))
       case KLink =>
         var l :- Finish(Members(ms, Partial(EmptyLink, None), LinkField, parseFloat));
         Success(LinkData(l))
       case KMessage =>
         var m :- Finish(Members(ms, Partial(EmptyMessage, None), MessageField, parseFloat));
         Success(MessageData(m))
       case KSubReddit =>
         var s :- Finish(Members(ms, Partial(EmptySubReddit, None), SubRedditField, parseFloat));
         Success(SubRedditData(s)))
    case _ => Failure(TypeMismatch(TypeName(d), TypeNameOf(k)))
  }

  function ListingMembers(obj: Value, i: nat, acc: Partial<Listing>, parseFloat: FloatParser): Result<Partial<Listing>, DecodeError>
    requires obj.JObject? && i <= |obj.members|
    decreases obj, 3, |obj.members| - i
  {
    if i == |obj.members| then Success(acc)
    else
      var next :- Absorb(acc, ListingField(acc.value, obj.members[i].0, obj.members[i].1, parseFloat));
      ListingMembers(obj, i + 1, next, parseFloat)
  }

  function ListingField(l: Listing, key: string, v: Value, parseFloat: FloatParser): Step<Listing>
    decreases v, 2, 0
  {
    if key == "before" then StringInto(v, l.before).Map(s => l.(before := s))
    else if key == "after" then StringInto(v, l.after).Map(s => l.(after := s))
    else if key == "modhash" then StringInto(v, l.modhash).Map(s => l.(modhash := s))
    else if key == "children" then ThingsInto(v, parseFloat).Map(c => l.(children := c))
    else Set(l)
  }

  function CommentMembers(obj: Value, i: nat, acc: Partial<Comment>, parseFloat: FloatParser): Result<Partial<Comment>, DecodeError>
    requires obj.JObject? && i <= |obj.members|
    decreases obj, 3, |obj.members| - i
  {
    if i == |obj.members| then Success(acc)
    else
      var next :- Absorb(acc, CommentField(acc.value, obj.members[i].0, obj.members[i].1, parseFloat));
      CommentMembers(obj, i + 1, next, parseFloat)
  }

  function CommentField(c: Comment, key: string, v: Value, parseFloat: FloatParser): Step<Comment>
    decreases v, 2, 0
  {
    if key == "author" then StringInto(v, c.author).Map(s => c.(author := s))
    else if key == "edited" then EditedField(v, parseFloat).Map(e => c.(edited := e))
    else if key == "replies" then ThingsInto(v, parseFloat).Map(ts => c.(replies := ts))
    else Set(c)
  }

  /**
   * Storing into a `[]Thing` field: `null` gives the nil slice, and the
   * elements of an array go through `Thing.UnmarshalJSON` in order, the first
   * error stopping the decode.
   */
  function ThingsInto(v: Value, parseFloat: FloatParser): Step<seq<Thing>>
    decreases v, 1, 0
  {
    match v
    case JNull => Set([])
    case JArray(items) =>
      (match Collect(seq(|items|, j requires 0 <= j < |items| => DecodeThing(items[j], parseFloat)))
       case Success(ts) => Set(ts)
       case Failure(e) => Abort(e))
    case _ => Mismatch(TypeMismatch(TypeName(v), "[]Thing"))
  }

  /** Storing into an `Edited` field: its own decoder runs, and its error stops decoding. */
  function EditedField(v: Value, parseFloat: FloatParser): Step<Edited> {
    match DecodeEdited(v, parseFloat)
    case Success(e) => Set(e)
    case Failure(err) => Abort(err)
  }

  function LinkField(l: Link, key: string, v: Value, parseFloat: FloatParser): Step<Link> {
    if key == "author" then StringInto(v, l.author).Map(s => l.(author := s))
    else if key == "score" then IntInto(v, l.score).Map(n => l.(score := n))
    else if key == "edited" then EditedField(v, parseFloat).Map(e => l.(edited := e))
    else Set(l)
  }

  // The field functions share one signature; only `LinkField` reads the parser.

  function AccountField(a: Account, key: string, v: Value, parseFloat: FloatParser): Step<Account> {
    if key == "link_karma" then IntInto(v, a.linkKarma).Map(n => a.(linkKarma := n))
    else if key == "name" then StringInto(v, a.name).Map(s => a.(name := s))
    else Set(a)
  }

  function MessageField(m: Message, key: string, v: Value, parseFloat: FloatParser): Step<Message> {
    if key == "author" then StringInto(v, m.author).Map(s => m.(author := s))
    else if key == "subject" then StringInto(v, m.subject).Map(s => m.(subject := s))
    else Set(m)
  }

  function SubRedditField(s: SubReddit, key: string, v: Value, parseFloat: FloatParser): Step<SubReddit> {
    if key == "display_name" then StringInto(v, s.displayName).Map(n => s.(displayName := n))
    else if key == "header_size" then HeaderSizeField(v, s.headerSize).Map(h => s.(headerSize := h))
    else Set(s)
  }

  // --------------------------------------------------------------- encoder

  /**
   * A JSON rendering of a `Thing` in the shape the API sends: the envelope,
   * then the kept payload fields under their tag names. It stands in for
   * `json.Marshal`, which fails on an edited comment or link (see
   * `Codecs.EncodeEdited`); this encoder writes the timestamp as an integer
   * instead (`Codecs.EncodeEditedAsInteger`) and leaves out the fields the
   * model does not keep.
   */
  function EncodeThing(t: Thing): Value
    decreases t
  {
    JObject([("id", JString(t.id)), ("name", JString(t.name)), ("kind", JString(t.kind)),
             ("data", EncodePayload(t.data))])
  }

  function EncodePayload(p: Payload): Value
    decreases p
  {
    match p
    case NoPayload => JNull
    case ListingData(l) =>
      JObject([("before", JString(l.before)), ("after", JString(l.after)), ("modhash", JString(l.modhash)),
               ("children", JArray(seq(|l.children|, i requires 0 <= i < |l.children| => EncodeThing(l.children[i]))))])
    case CommentData(c) =>
      JObject([("author", JString(c.author)), ("edited", EncodeEditedAsInteger(c.edited)),
               ("replies", JArray(seq(|c.replies|, i requires 0 <= i < |c.replies| => EncodeThing(c.replies[i]))))])
    case AccountData(a) =>
      JObject([("link_karma", JNumber(FormatInt(a.linkKarma))), ("name", JString(a.name))])
    case LinkData(l) =>
      JObject([("author", JString(l.author)), ("score", JNumber(FormatInt(l.score))),
               ("edited", EncodeEditedAsInteger(l.edited))])
    case MessageData(m) =>
      JObject([("author", JString(m.author)), ("subject", JString(m.subject))])
    case SubRedditData(s) =>
      JObject([("display_name", JString(s.displayName)), ("header_size", EncodeHeaderSize(s.headerSize))])
  }

  /**
   * Entities the decoder can produce and the encoder can carry: every kind
   * matches its payload and every timestamp is a canonical one.
   */
  predicate WellFormedThing(t: Thing)
    decreases t
  {
    && KindOf(t.data).Some?
    && LookupKind(t.kind) == KindOf(t.data)
    && WellFormedPayload(t.data)
  }

  predicate WellFormedPayload(p: Payload)
    decreases p
  {
    match p
    case ListingData(l) => forall i :: 0 <= i < |l.children| ==> WellFormedThing(l.children[i])
    case CommentData(c) =>
      CanonicalEdited(c.edited) && forall i :: 0 <= i < |c.replies| ==> WellFormedThing(c.replies[i])
    case LinkData(l) => CanonicalEdited(l.edited)
    case _ => true
  }
}
