/**
 * What the entity decoder promises: the kind table, how errors of nested
 * entities surface, and that every well-formed entity is read back from the
 * JSON the encoder writes for it.
 */
module ThingLaws {
  import opened Wrappers
  import opened Numbers
  import opened Json
  import opened Codecs
  import opened Things

  /** Exactly six kinds decode; `more` (the `More` placeholder) is not one of them. */
  lemma KindTableExact(kind: string)
    ensures LookupKind(kind).Some? <==> kind in {"Listing", "t1", "t2", "t3", "t4", "t5"}
    ensures LookupKind("more") == None
  {
  }

  /** A payload decode error is the error of the whole entity. */
  lemma PayloadErrorPropagates(v: Value, parseFloat: FloatParser)
    requires DecodeEnvelope(v).Success?
    requires LookupKind(DecodeEnvelope(v).value.kind).Some?
    requires DecodeEnvelope(v).value.data.Some?
    requires DecodePayload(LookupKind(DecodeEnvelope(v).value.kind).value,
                           DecodeEnvelope(v).value.data.value, parseFloat).Failure?
    ensures DecodeThing(v, parseFloat) ==
            Failure(DecodePayload(LookupKind(DecodeEnvelope(v).value.kind).value,
                                  DecodeEnvelope(v).value.data.value, parseFloat).error)
  {
  }

  lemma ListingStep(obj: Value, i: nat, acc: Partial<Listing>, parseFloat: FloatParser, x: Listing)
    requires obj.JObject? && i < |obj.members|
    requires ListingField(acc.value, obj.members[i].0, obj.members[i].1, parseFloat) == Set(x)
    ensures ListingMembers(obj, i, acc, parseFloat) == ListingMembers(obj, i + 1, Partial(x, acc.saved), parseFloat)
  {
  }

  lemma CommentStep(obj: Value, i: nat, acc: Partial<Comment>, parseFloat: FloatParser, x: Comment)
    requires obj.JObject? && i < |obj.members|
    requires CommentField(acc.value, obj.members[i].0, obj.members[i].1, parseFloat) == Set(x)
    ensures CommentMembers(obj, i, acc, parseFloat) == CommentMembers(obj, i + 1, Partial(x, acc.saved), parseFloat)
  {
  }

  // ------------------------------------------------------ nested entities

  /**
   * An array stored into a `[]Thing` field: it succeeds iff every element
   * decodes, the slice then holds the elements' own decodings in order, and a
   * failure is the error of the first element that fails.
   */
  lemma ThingsIntoArray(v: Value, parseFloat: FloatParser)
    requires v.JArray?
    ensures !ThingsInto(v, parseFloat).Mismatch?
    ensures ThingsInto(v, parseFloat).Set? <==>
            forall j :: 0 <= j < |v.items| ==> DecodeThing(v.items[j], parseFloat).Success?
    ensures ThingsInto(v, parseFloat).Set? ==>
              && |ThingsInto(v, parseFloat).value| == |v.items|
              && forall j :: 0 <= j < |v.items| ==>
                   DecodeThing(v.items[j], parseFloat) == Success(ThingsInto(v, parseFloat).value[j])
    ensures ThingsInto(v, parseFloat).Abort? ==>
              exists j :: && 0 <= j < |v.items|
                          && DecodeThing(v.items[j], parseFloat) == Failure(ThingsInto(v, parseFloat).error)
                          && forall k :: 0 <= k < j ==> DecodeThing(v.items[k], parseFloat).Success?
  {
    var rs := seq(|v.items|, j requires 0 <= j < |v.items| => DecodeThing(v.items[j], parseFloat));
    assert forall j :: 0 <= j < |v.items| ==> rs[j] == DecodeThing(v.items[j], parseFloat);
    CollectSucceeds(rs);
    CollectFirstError(rs);
  }

  /** A `children` member holding an entity that fails makes the whole page fail. */
  lemma {:induction false} FailingChildFailsListing(obj: Value, i: nat, acc: Partial<Listing>,
                                                    parseFloat: FloatParser, j: nat, m: nat)
    requires obj.JObject? && i <= j < |obj.members|
    requires obj.members[j].0 == "children" && obj.members[j].1.JArray?
    requires m < |obj.members[j].1.items| && DecodeThing(obj.members[j].1.items[m], parseFloat).Failure?
    ensures ListingMembers(obj, i, acc, parseFloat).Failure?
    decreases j - i
  {
    var step := ListingField(acc.value, obj.members[i].0, obj.members[i].1, parseFloat);
    if i == j {
      ThingsIntoArray(obj.members[j].1, parseFloat);
      assert ThingsInto(obj.members[j].1, parseFloat).Abort?;
      assert step.Abort?;
    } else if !step.Abort? {
      var next := Absorb(acc, step).value;
      FailingChildFailsListing(obj, i + 1, next, parseFloat, j, m);
    }
  }

  /** The same, seen from the envelope: a nested decode error fails the outer entity. */
  lemma FailingChildFailsThing(v: Value, parseFloat: FloatParser, j: nat, m: nat)
    requires DecodeEnvelope(v).Success? && DecodeEnvelope(v).value.kind == "Listing"
    requires DecodeEnvelope(v).value.data.Some? && DecodeEnvelope(v).value.data.value.JObject?
    requires j < |DecodeEnvelope(v).value.data.value.members|
    requires DecodeEnvelope(v).value.data.value.members[j].0 == "children"
    requires DecodeEnvelope(v).value.data.value.members[j].1.JArray?
    requires m < |DecodeEnvelope(v).value.data.value.members[j].1.items|
    requires DecodeThing(DecodeEnvelope(v).value.data.value.members[j].1.items[m], parseFloat).Failure?
    ensures DecodeThing(v, parseFloat).Failure?
  {
    var d := DecodeEnvelope(v).value.data.value;
    FailingChildFailsListing(d, 0, Partial(EmptyListing, None), parseFloat, j, m);
  }

  // ------------------------------------------------------------ round trip

  lemma EnvelopeOfEncoding(t: Thing)
    ensures DecodeEnvelope(EncodeThing(t)) == Success(Envelope(t.id, t.name, t.kind, Some(EncodePayload(t.data))))
  {
    var ms := EncodeThing(t).members;
    var e1 := EmptyEnvelope.(id := t.id);
    var e2 := e1.(name := t.name);
    var e3 := e2.(kind := t.kind);
    var e4 := e3.(data := Some(EncodePayload(t.data)));
    assert Members(ms[4..], Partial(e4, None), EnvelopeField, ()) == Success(Partial(e4, None));
    assert Members(ms[3..], Partial(e3, None), EnvelopeField, ()) == Success(Partial(e4, None));
    assert Members(ms[2..], Partial(e2, None), EnvelopeField, ()) == Success(Partial(e4, None));
    assert Members(ms[1..], Partial(e1, None), EnvelopeField, ()) == Success(Partial(e4, None));
    assert Members(ms, Partial(EmptyEnvelope, None), EnvelopeField, ()) == Success(Partial(e4, None));
  }

  lemma AccountRoundTrip(a: Account, parseFloat: FloatParser)
    ensures DecodePayload(KAccount, EncodePayload(AccountData(a)), parseFloat) == Success(AccountData(a))
  {
    FormatParseRoundTrip(a.linkKarma);
    var ms := EncodePayload(AccountData(a)).members;
    var a1 := EmptyAccount.(linkKarma := a.linkKarma);
    assert Members(ms[2..], Partial(a, None), AccountField, parseFloat) == Success(Partial(a, None));
    assert Members(ms[1..], Partial(a1, None), AccountField, parseFloat) == Success(Partial(a, None));
    assert Members(ms, Partial(EmptyAccount, None), AccountField, parseFloat) == Success(Partial(a, None));
  }
  lemma LinkRoundTrip(l: Link, parseFloat: FloatParser)
    requires CanonicalEdited(l.edited) && ReadsIntegers(parseFloat)
    ensures DecodePayload(KLink, EncodePayload(LinkData(l)), parseFloat) == Success(LinkData(l))
  {
    FormatParseRoundTrip(l.score);
    EditedRoundTrip(l.edited, parseFloat);
    var ms := EncodePayload(LinkData(l)).members;
    var a1 := EmptyLink.(author := l.author);
    var a2 := a1.(score := l.score);
    assert Members(ms[3..], Partial(l, None), LinkField, parseFloat) == Success(Partial(l, None));
    assert Members(ms[2..], Partial(a2, None), LinkField, parseFloat) == Success(Partial(l, None));
    assert Members(ms[1..], Partial(a1, None), LinkField, parseFloat) == Success(Partial(l, None));
    assert Members(ms, Partial(EmptyLink, None), LinkField, parseFloat) == Success(Partial(l, None));
  }
  lemma MessageRoundTrip(m: Message, parseFloat: FloatParser)
    ensures DecodePayload(KMessage, EncodePayload(MessageData(m)), parseFloat) == Success(MessageData(m))
  {
    var ms := EncodePayload(MessageData(m)).members;
    var a1 := EmptyMessage.(author := m.author);
    assert Members(ms[2..], Partial(m, None), MessageField, parseFloat) == Success(Partial(m, None));
    assert Members(ms[1..], Partial(a1, None), MessageField, parseFloat) == Success(Partial(m, None));
    assert Members(ms, Partial(EmptyMessage, None), MessageField, parseFloat) == Success(Partial(m, None));
  }
  lemma SubRedditRoundTrip(s: SubReddit, parseFloat: FloatParser)
    ensures DecodePayload(KSubReddit, EncodePayload(SubRedditData(s)), parseFloat) == Success(SubRedditData(s))
  {
    HeaderSizeFieldRoundTrip(s.headerSize, None);
    var ms := EncodePayload(SubRedditData(s)).members;
    var a1 := EmptySubReddit.(displayName := s.displayName);
    assert Members(ms[2..], Partial(s, None), SubRedditField, parseFloat) == Success(Partial(s, None));
    assert Members(ms[1..], Partial(a1, None), SubRedditField, parseFloat) == Success(Partial(s, None));
    assert Members(ms, Partial(EmptySubReddit, None), SubRedditField, parseFloat) == Success(Partial(s, None));
  }


  lemma {:induction false} ThingRoundTrip(t: Thing, parseFloat: FloatParser)
    requires WellFormedThing(t) && ReadsIntegers(parseFloat)
    ensures DecodeThing(EncodeThing(t), parseFloat) == Success(t)
    decreases t, 4
  {
    EnvelopeOfEncoding(t);
    PayloadRoundTrip(t.data, parseFloat);
  }

  lemma {:induction false} PayloadRoundTrip(p: Payload, parseFloat: FloatParser)
    requires KindOf(p).Some? && WellFormedPayload(p) && ReadsIntegers(parseFloat)
    ensures DecodePayload(KindOf(p).value, EncodePayload(p), parseFloat) == Success(p)
    decreases p, 3
  {
    match p
    case ListingData(l) => ListingRoundTrip(p, parseFloat);
    case CommentData(c) => CommentRoundTrip(p, parseFloat);
    case AccountData(a) => AccountRoundTrip(a, parseFloat);
    case LinkData(l) => LinkRoundTrip(l, parseFloat);
    case MessageData(m) => MessageRoundTrip(m, parseFloat);
    case SubRedditData(s) => SubRedditRoundTrip(s, parseFloat);
  }

  lemma {:induction false} ListingRoundTrip(p: Payload, parseFloat: FloatParser)
    requires p.ListingData? && WellFormedPayload(p) && ReadsIntegers(parseFloat)
    ensures DecodePayload(KListing, EncodePayload(p), parseFloat) == Success(p)
    decreases p, 2
  {
    var l := p.listing;
    var d := EncodePayload(p);
    var arr := d.members[3].1;
    ItemsRoundTrip(l.children, arr, parseFloat, p);
    var a1 := EmptyListing.(before := l.before);
    var a2 := a1.(after := l.after);
    var a3 := a2.(modhash := l.modhash);
    ListingStep(d, 0, Partial(EmptyListing, None), parseFloat, a1);
    ListingStep(d, 1, Partial(a1, None), parseFloat, a2);
    ListingStep(d, 2, Partial(a2, None), parseFloat, a3);
    ListingStep(d, 3, Partial(a3, None), parseFloat, l);
  }

  lemma {:induction false} CommentRoundTrip(p: Payload, parseFloat: FloatParser)
    requires p.CommentData? && WellFormedPayload(p) && ReadsIntegers(parseFloat)
    ensures DecodePayload(KComment, EncodePayload(p), parseFloat) == Success(p)
    decreases p, 2
  {
    var c := p.comment;
    var d := EncodePayload(p);
    var arr := d.members[2].1;
    EditedRoundTrip(c.edited, parseFloat);
    ItemsRoundTrip(c.replies, arr, parseFloat, p);
    var a1 := EmptyComment.(author := c.author);
    var a2 := a1.(edited := c.edited);
    CommentStep(d, 0, Partial(EmptyComment, None), parseFloat, a1);
    CommentStep(d, 1, Partial(a1, None), parseFloat, a2);
    CommentStep(d, 2, Partial(a2, None), parseFloat, c);
  }

  /** One element of the encoded children (or replies) of `owner` decodes back to itself. */
  lemma {:induction false} ItemRoundTrip(ts: seq<Thing>, arr: Value, parseFloat: FloatParser, owner: Payload, i: nat)
    requires (owner.ListingData? && ts == owner.listing.children) || (owner.CommentData? && ts == owner.comment.replies)
    requires WellFormedPayload(owner) && ReadsIntegers(parseFloat)
    requires arr.JArray? && |arr.items| == |ts| && i < |ts|
    requires forall j :: 0 <= j < |ts| ==> arr.items[j] == EncodeThing(ts[j])
    ensures DecodeThing(arr.items[i], parseFloat) == Success(ts[i])
    decreases owner, 0
  {
    var t := ts[i];
    assert t in ts && WellFormedThing(t);
    ThingRoundTrip(t, parseFloat);
  }

  /** The encoded children (or replies) of `owner` decode back to themselves, in order. */
  lemma {:induction false} ItemsRoundTrip(ts: seq<Thing>, arr: Value, parseFloat: FloatParser, owner: Payload)
    requires (owner.ListingData? && ts == owner.listing.children) || (owner.CommentData? && ts == owner.comment.replies)
    requires WellFormedPayload(owner) && ReadsIntegers(parseFloat)
    requires arr.JArray? && |arr.items| == |ts|
    requires forall j :: 0 <= j < |ts| ==> arr.items[j] == EncodeThing(ts[j])
    ensures ThingsInto(arr, parseFloat) == Set(ts)
    decreases owner, 1
  {
    forall i | 0 <= i < |ts|
      ensures DecodeThing(arr.items[i], parseFloat) == Success(ts[i])
    {
      ItemRoundTrip(ts, arr, parseFloat, owner, i);
    }
    ThingsIntoArray(arr, parseFloat);
    assert ThingsInto(arr, parseFloat).value == ts;
  }
}
