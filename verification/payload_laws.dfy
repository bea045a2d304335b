/**
 * What decoding a payload object does, member by member: which members each
 * payload type accepts, which member each kept field ends up holding, and
 * which error is reported when a member is rejected.
 */
module PayloadLaws {
  import opened Wrappers
  import opened Numbers
  import opened Json
  import opened Codecs
  import opened Things
  import opened ThingLaws

  // ------------------------------------------------ what a field keeps

  /** What an `Edited` field keeps from a value its decoder accepts. */
  function EditedOf(v: Value, parseFloat: FloatParser): Option<Edited> {
    match DecodeEdited(v, parseFloat)
    case Success(e) => Some(e)
    case Failure(_) => None
  }

  /** What a `[]Thing` field keeps from a value it accepts. */
  function ThingsOf(v: Value, parseFloat: FloatParser): Option<seq<Thing>> {
    match ThingsInto(v, parseFloat)
    case Set(ts) => Some(ts)
    case _ => None
  }

  // ------------------------------------------------ which members fit

  predicate StringFits(v: Value) {
    v.JString? || v.JNull?
  }

  /** `null`, or an array every element of which decodes as an entity. */
  predicate ThingsFit(v: Value, parseFloat: FloatParser) {
    v.JNull? || (v.JArray? && forall i :: 0 <= i < |v.items| ==> DecodeThing(v.items[i], parseFloat).Success?)
  }

  /** An array with an element that does not decode as an entity. */
  predicate ThingsAbort(v: Value, parseFloat: FloatParser) {
    v.JArray? && exists i :: 0 <= i < |v.items| && DecodeThing(v.items[i], parseFloat).Failure?
  }

  predicate LinkFits(key: string, v: Value, parseFloat: FloatParser) {
    && (key == "author" ==> StringFits(v))
    && (key == "score" ==> IsIntItem(v))
    && (key == "edited" ==> DecodeEdited(v, parseFloat).Success?)
  }

  predicate LinkAborts(key: string, v: Value, parseFloat: FloatParser) {
    key == "edited" && DecodeEdited(v, parseFloat).Failure?
  }

  predicate AccountFits(key: string, v: Value, parseFloat: FloatParser) {
    && (key == "link_karma" ==> IsIntItem(v))
    && (key == "name" ==> StringFits(v))
  }

  predicate MessageFits(key: string, v: Value, parseFloat: FloatParser) {
    && (key == "author" ==> StringFits(v))
    && (key == "subject" ==> StringFits(v))
  }

  predicate SubRedditFits(key: string, v: Value, parseFloat: FloatParser) {
    && (key == "display_name" ==> StringFits(v))
    && (key == "header_size" ==> v.JNull? || UnmarshalHeaderSize(v, ZeroHeaderSize).Success?)
  }

  predicate SubRedditAborts(key: string, v: Value, parseFloat: FloatParser) {
    key == "header_size" && !v.JNull? && UnmarshalHeaderSize(v, ZeroHeaderSize).Failure?
  }

  predicate ListingFits(key: string, v: Value, parseFloat: FloatParser) {
    && (key == "before" || key == "after" || key == "modhash" ==> StringFits(v))
    && (key == "children" ==> ThingsFit(v, parseFloat))
  }

  predicate ListingAborts(key: string, v: Value, parseFloat: FloatParser) {
    key == "children" && ThingsAbort(v, parseFloat)
  }

  predicate CommentFits(key: string, v: Value, parseFloat: FloatParser) {
    && (key == "author" ==> StringFits(v))
    && (key == "edited" ==> DecodeEdited(v, parseFloat).Success?)
    && (key == "replies" ==> ThingsFit(v, parseFloat))
  }

  predicate CommentAborts(key: string, v: Value, parseFloat: FloatParser) {
    || (key == "edited" && DecodeEdited(v, parseFloat).Failure?)
    || (key == "replies" && ThingsAbort(v, parseFloat))
  }

  // ------------------------------------------- the recursive folds are `Members`

  lemma {:induction false} ListingMembersFold(obj: Value, i: nat, acc: Partial<Listing>, parseFloat: FloatParser)
    requires obj.JObject? && i <= |obj.members|
    ensures ListingMembers(obj, i, acc, parseFloat) == Members(obj.members[i..], acc, ListingField, parseFloat)
    decreases |obj.members| - i
  {
    if i < |obj.members| {
      var s := ListingField(acc.value, obj.members[i].0, obj.members[i].1, parseFloat);
      if Absorb(acc, s).Success? {
        ListingMembersFold(obj, i + 1, Absorb(acc, s).value, parseFloat);
      }
      assert obj.members[i..][1..] == obj.members[i + 1..];
    }
  }

  lemma {:induction false} CommentMembersFold(obj: Value, i: nat, acc: Partial<Comment>, parseFloat: FloatParser)
    requires obj.JObject? && i <= |obj.members|
    ensures CommentMembers(obj, i, acc, parseFloat) == Members(obj.members[i..], acc, CommentField, parseFloat)
    decreases |obj.members| - i
  {
    if i < |obj.members| {
      var s := CommentField(acc.value, obj.members[i].0, obj.members[i].1, parseFloat);
      if Absorb(acc, s).Success? {
        CommentMembersFold(obj, i + 1, Absorb(acc, s).value, parseFloat);
      }
      assert obj.members[i..][1..] == obj.members[i + 1..];
    }
  }

  // ------------------------------------------------- a `[]Thing` member

  lemma ThingsIntoFits(v: Value, parseFloat: FloatParser)
    ensures ThingsInto(v, parseFloat).Set? <==> ThingsFit(v, parseFloat)
    ensures ThingsInto(v, parseFloat).Abort? <==> ThingsAbort(v, parseFloat)
  {
    if v.JArray? {
      ThingsIntoArray(v, parseFloat);
    }
  }

  // ------------------------------------------------- one field at a time

  /** What storing one member into a listing changes: only the field named by its key. */
  lemma ListingFieldEffect(l: Listing, key: string, v: Value, parseFloat: FloatParser)
    requires ListingField(l, key, v, parseFloat).Set?
    ensures var x := ListingField(l, key, v, parseFloat).value;
            && x.before == (if key == "before" && StringOf(v, parseFloat).Some? then v.s else l.before)
            && x.after == (if key == "after" && StringOf(v, parseFloat).Some? then v.s else l.after)
            && x.modhash == (if key == "modhash" && StringOf(v, parseFloat).Some? then v.s else l.modhash)
            && x.children == (if key == "children" then ThingsOf(v, parseFloat).value else l.children)
  {
    if key == "children" {
      var s := ThingsInto(v, parseFloat);
      assert ListingField(l, key, v, parseFloat) == s.Map(c => l.(children := c));
    }
  }


  lemma LinkAuthorSlot(ms: seq<(string, Value)>, parseFloat: FloatParser)
    requires Finish(Members(ms, Partial(EmptyLink, None), LinkField, parseFloat)).Success?
    ensures Finish(Members(ms, Partial(EmptyLink, None), LinkField, parseFloat)).value.author == LastOr(ms, "author", StringOf, parseFloat, "")
  {
    forall t, w | LinkField(t, "author", w, parseFloat).Set?
      ensures LinkField(t, "author", w, parseFloat).value.author ==
              (if StringOf(w, parseFloat).Some? then StringOf(w, parseFloat).value else t.author)
    {
    }
    forall t, k, w | k != "author" && LinkField(t, k, w, parseFloat).Set?
      ensures LinkField(t, k, w, parseFloat).value.author == t.author
    {
    }
    FinishSlot(ms, EmptyLink, LinkField, parseFloat, "author", (l: Link) => l.author, StringOf);
  }

  lemma LinkScoreSlot(ms: seq<(string, Value)>, parseFloat: FloatParser)
    requires Finish(Members(ms, Partial(EmptyLink, None), LinkField, parseFloat)).Success?
    ensures Finish(Members(ms, Partial(EmptyLink, None), LinkField, parseFloat)).value.score == LastOr(ms, "score", IntOf, parseFloat, 0)
  {
    forall t, w | LinkField(t, "score", w, parseFloat).Set?
      ensures LinkField(t, "score", w, parseFloat).value.score ==
              (if IntOf(w, parseFloat).Some? then IntOf(w, parseFloat).value else t.score)
    {
    }
    forall t, k, w | k != "score" && LinkField(t, k, w, parseFloat).Set?
      ensures LinkField(t, k, w, parseFloat).value.score == t.score
    {
    }
    FinishSlot(ms, EmptyLink, LinkField, parseFloat, "score", (l: Link) => l.score, IntOf);
  }

  lemma LinkEditedSlot(ms: seq<(string, Value)>, parseFloat: FloatParser)
    requires Finish(Members(ms, Partial(EmptyLink, None), LinkField, parseFloat)).Success?
    ensures Finish(Members(ms, Partial(EmptyLink, None), LinkField, parseFloat)).value.edited == LastOr(ms, "edited", EditedOf, parseFloat, NotEdited)
  {
    forall t, w | LinkField(t, "edited", w, parseFloat).Set?
      ensures LinkField(t, "edited", w, parseFloat).value.edited ==
              (if EditedOf(w, parseFloat).Some? then EditedOf(w, parseFloat).value else t.edited)
    {
    }
    forall t, k, w | k != "edited" && LinkField(t, k, w, parseFloat).Set?
      ensures LinkField(t, k, w, parseFloat).value.edited == t.edited
    {
    }
    FinishSlot(ms, EmptyLink, LinkField, parseFloat, "edited", (l: Link) => l.edited, EditedOf);
  }

  lemma AccountLinkKarmaSlot(ms: seq<(string, Value)>, parseFloat: FloatParser)
    requires Finish(Members(ms, Partial(EmptyAccount, None), AccountField, parseFloat)).Success?
    ensures Finish(Members(ms, Partial(EmptyAccount, None), AccountField, parseFloat)).value.linkKarma == LastOr(ms, "link_karma", IntOf, parseFloat, 0)
  {
    forall t, w | AccountField(t, "link_karma", w, parseFloat).Set?
      ensures AccountField(t, "link_karma", w, parseFloat).value.linkKarma ==
              (if IntOf(w, parseFloat).Some? then IntOf(w, parseFloat).value else t.linkKarma)
    {
    }
    forall t, k, w | k != "link_karma" && AccountField(t, k, w, parseFloat).Set?
      ensures AccountField(t, k, w, parseFloat).value.linkKarma == t.linkKarma
    {
    }
    FinishSlot(ms, EmptyAccount, AccountField, parseFloat, "link_karma", (a: Account) => a.linkKarma, IntOf);
  }

  lemma AccountNameSlot(ms: seq<(string, Value)>, parseFloat: FloatParser)
    requires Finish(Members(ms, Partial(EmptyAccount, None), AccountField, parseFloat)).Success?
    ensures Finish(Members(ms, Partial(EmptyAccount, None), AccountField, parseFloat)).value.name == LastOr(ms, "name", StringOf, parseFloat, "")
  {
    forall t, w | AccountField(t, "name", w, parseFloat).Set?
      ensures AccountField(t, "name", w, parseFloat).value.name ==
              (if StringOf(w, parseFloat).Some? then StringOf(w, parseFloat).value else t.name)
    {
    }
    forall t, k, w | k != "name" && AccountField(t, k, w, parseFloat).Set?
      ensures AccountField(t, k, w, parseFloat).value.name == t.name
    {
    }
    FinishSlot(ms, EmptyAccount, AccountField, parseFloat, "name", (a: Account) => a.name, StringOf);
  }

  lemma MessageAuthorSlot(ms: seq<(string, Value)>, parseFloat: FloatParser)
    requires Finish(Members(ms, Partial(EmptyMessage, None), MessageField, parseFloat)).Success?
    ensures Finish(Members(ms, Partial(EmptyMessage, None), MessageField, parseFloat)).value.author == LastOr(ms, "author", StringOf, parseFloat, "")
  {
    forall t, w | MessageField(t, "author", w, parseFloat).Set?
      ensures MessageField(t, "author", w, parseFloat).value.author ==
              (if StringOf(w, parseFloat).Some? then StringOf(w, parseFloat).value else t.author)
    {
    }
    forall t, k, w | k != "author" && MessageField(t, k, w, parseFloat).Set?
      ensures MessageField(t, k, w, parseFloat).value.author == t.author
    {
    }
    FinishSlot(ms, EmptyMessage, MessageField, parseFloat, "author", (m: Message) => m.author, StringOf);
  }

  lemma MessageSubjectSlot(ms: seq<(string, Value)>, parseFloat: FloatParser)
    requires Finish(Members(ms, Partial(EmptyMessage, None), MessageField, parseFloat)).Success?
    ensures Finish(Members(ms, Partial(EmptyMessage, None), MessageField, parseFloat)).value.subject == LastOr(ms, "subject", StringOf, parseFloat, "")
  {
    forall t, w | MessageField(t, "subject", w, parseFloat).Set?
      ensures MessageField(t, "subject", w, parseFloat).value.subject ==
              (if StringOf(w, parseFloat).Some? then StringOf(w, parseFloat).value else t.subject)
    {
    }
    forall t, k, w | k != "subject" && MessageField(t, k, w, parseFloat).Set?
      ensures MessageField(t, k, w, parseFloat).value.subject == t.subject
    {
    }
    FinishSlot(ms, EmptyMessage, MessageField, parseFloat, "subject", (m: Message) => m.subject, StringOf);
  }

  lemma SubRedditDisplayNameSlot(ms: seq<(string, Value)>, parseFloat: FloatParser)
    requires Finish(Members(ms, Partial(EmptySubReddit, None), SubRedditField, parseFloat)).Success?
    ensures Finish(Members(ms, Partial(EmptySubReddit, None), SubRedditField, parseFloat)).value.displayName == LastOr(ms, "display_name", StringOf, parseFloat, "")
  {
    forall t, w | SubRedditField(t, "display_name", w, parseFloat).Set?
      ensures SubRedditField(t, "display_name", w, parseFloat).value.displayName ==
              (if StringOf(w, parseFloat).Some? then StringOf(w, parseFloat).value else t.displayName)
    {
    }
    forall t, k, w | k != "display_name" && SubRedditField(t, k, w, parseFloat).Set?
      ensures SubRedditField(t, k, w, parseFloat).value.displayName == t.displayName
    {
    }
    FinishSlot(ms, EmptySubReddit, SubRedditField, parseFloat, "display_name", (s: SubReddit) => s.displayName, StringOf);
  }

  lemma ListingBeforeSlot(ms: seq<(string, Value)>, parseFloat: FloatParser)
    requires Finish(Members(ms, Partial(EmptyListing, None), ListingField, parseFloat)).Success?
    ensures Finish(Members(ms, Partial(EmptyListing, None), ListingField, parseFloat)).value.before == LastOr(ms, "before", StringOf, parseFloat, "")
  {
    forall t, k, w | ListingField(t, k, w, parseFloat).Set?
      ensures ListingField(t, k, w, parseFloat).value.before ==
              (if k == "before" && StringOf(w, parseFloat).Some? then StringOf(w, parseFloat).value else t.before)
    {
      ListingFieldEffect(t, k, w, parseFloat);
    }
    FinishSlot(ms, EmptyListing, ListingField, parseFloat, "before", (l: Listing) => l.before, StringOf);
  }

  lemma ListingAfterSlot(ms: seq<(string, Value)>, parseFloat: FloatParser)
    requires Finish(Members(ms, Partial(EmptyListing, None), ListingField, parseFloat)).Success?
    ensures Finish(Members(ms, Partial(EmptyListing, None), ListingField, parseFloat)).value.after == LastOr(ms, "after", StringOf, parseFloat, "")
  {
    forall t, k, w | ListingField(t, k, w, parseFloat).Set?
      ensures ListingField(t, k, w, parseFloat).value.after ==
              (if k == "after" && StringOf(w, parseFloat).Some? then StringOf(w, parseFloat).value else t.after)
    {
      ListingFieldEffect(t, k, w, parseFloat);
    }
    FinishSlot(ms, EmptyListing, ListingField, parseFloat, "after", (l: Listing) => l.after, StringOf);
  }

  lemma ListingModhashSlot(ms: seq<(string, Value)>, parseFloat: FloatParser)
    requires Finish(Members(ms, Partial(EmptyListing, None), ListingField, parseFloat)).Success?
    ensures Finish(Members(ms, Partial(EmptyListing, None), ListingField, parseFloat)).value.modhash == LastOr(ms, "modhash", StringOf, parseFloat, "")
  {
    forall t, k, w | ListingField(t, k, w, parseFloat).Set?
      ensures ListingField(t, k, w, parseFloat).value.modhash ==
              (if k == "modhash" && StringOf(w, parseFloat).Some? then StringOf(w, parseFloat).value else t.modhash)
    {
      ListingFieldEffect(t, k, w, parseFloat);
    }
    FinishSlot(ms, EmptyListing, ListingField, parseFloat, "modhash", (l: Listing) => l.modhash, StringOf);
  }

  lemma ListingChildrenSlot(ms: seq<(string, Value)>, parseFloat: FloatParser)
    requires Finish(Members(ms, Partial(EmptyListing, None), ListingField, parseFloat)).Success?
    ensures Finish(Members(ms, Partial(EmptyListing, None), ListingField, parseFloat)).value.children == LastOr(ms, "children", ThingsOf, parseFloat, [])
  {
    forall t, k, w | ListingField(t, k, w, parseFloat).Set?
      ensures ListingField(t, k, w, parseFloat).value.children ==
              (if k == "children" && ThingsOf(w, parseFloat).Some? then ThingsOf(w, parseFloat).value else t.children)
    {
      ListingFieldEffect(t, k, w, parseFloat);
    }
    FinishSlot(ms, EmptyListing, ListingField, parseFloat, "children", (l: Listing) => l.children, ThingsOf);
  }

  lemma CommentAuthorSlot(ms: seq<(string, Value)>, parseFloat: FloatParser)
    requires Finish(Members(ms, Partial(EmptyComment, None), CommentField, parseFloat)).Success?
    ensures Finish(Members(ms, Partial(EmptyComment, None), CommentField, parseFloat)).value.author == LastOr(ms, "author", StringOf, parseFloat, "")
  {
    forall t, w | CommentField(t, "author", w, parseFloat).Set?
      ensures CommentField(t, "author", w, parseFloat).value.author ==
              (if StringOf(w, parseFloat).Some? then StringOf(w, parseFloat).value else t.author)
    {
    }
    forall t, k, w | k != "author" && CommentField(t, k, w, parseFloat).Set?
      ensures CommentField(t, k, w, parseFloat).value.author == t.author
    {
    }
    FinishSlot(ms, EmptyComment, CommentField, parseFloat, "author", (c: Comment) => c.author, StringOf);
  }

  lemma CommentEditedSlot(ms: seq<(string, Value)>, parseFloat: FloatParser)
    requires Finish(Members(ms, Partial(EmptyComment, None), CommentField, parseFloat)).Success?
    ensures Finish(Members(ms, Partial(EmptyComment, None), CommentField, parseFloat)).value.edited == LastOr(ms, "edited", EditedOf, parseFloat, NotEdited)
  {
    forall t, w | CommentField(t, "edited", w, parseFloat).Set?
      ensures CommentField(t, "edited", w, parseFloat).value.edited ==
              (if EditedOf(w, parseFloat).Some? then EditedOf(w, parseFloat).value else t.edited)
    {
    }
    forall t, k, w | k != "edited" && CommentField(t, k, w, parseFloat).Set?
      ensures CommentField(t, k, w, parseFloat).value.edited == t.edited
    {
    }
    FinishSlot(ms, EmptyComment, CommentField, parseFloat, "edited", (c: Comment) => c.edited, EditedOf);
  }

  lemma CommentRepliesSlot(ms: seq<(string, Value)>, parseFloat: FloatParser)
    requires Finish(Members(ms, Partial(EmptyComment, None), CommentField, parseFloat)).Success?
    ensures Finish(Members(ms, Partial(EmptyComment, None), CommentField, parseFloat)).value.replies == LastOr(ms, "replies", ThingsOf, parseFloat, [])
  {
    forall t, w | CommentField(t, "replies", w, parseFloat).Set?
      ensures CommentField(t, "replies", w, parseFloat).value.replies ==
              (if ThingsOf(w, parseFloat).Some? then ThingsOf(w, parseFloat).value else t.replies)
    {
    }
    forall t, k, w | k != "replies" && CommentField(t, k, w, parseFloat).Set?
      ensures CommentField(t, k, w, parseFloat).value.replies == t.replies
    {
    }
    FinishSlot(ms, EmptyComment, CommentField, parseFloat, "replies", (c: Comment) => c.replies, ThingsOf);
  }

  // ------------------------------------------------- whole payloads

  lemma LinkFieldFits(parseFloat: FloatParser)
    ensures forall t, k, w :: LinkField(t, k, w, parseFloat).Set? <==> LinkFits(k, w, parseFloat)
  {
    forall t, k, w
      ensures LinkField(t, k, w, parseFloat).Set? <==> LinkFits(k, w, parseFloat)
    {
    }
  }

  /** The decode of a link object is the fold of its members. */
  lemma LinkPayload(ms: seq<(string, Value)>, parseFloat: FloatParser)
    ensures var r := Finish(Members(ms, Partial(EmptyLink, None), LinkField, parseFloat));
            DecodePayload(KLink, JObject(ms), parseFloat) == (if r.Success? then Success(LinkData(r.value)) else Failure(r.error))
  {
  }

  lemma LinkAccepts(ms: seq<(string, Value)>, parseFloat: FloatParser)
    ensures Finish(Members(ms, Partial(EmptyLink, None), LinkField, parseFloat)).Success? <==>
            forall j :: 0 <= j < |ms| ==> LinkFits(ms[j].0, ms[j].1, parseFloat)
  {
    LinkFieldFits(parseFloat);
    FinishMembersFit(ms, EmptyLink, LinkField, parseFloat, LinkFits);
  }

  /**
   * An object decodes as a link exactly when every member fits its field,
   * and `author`, `score`, `edited` then hold the last member under each key that sets it.
   */
  lemma LinkDecodes(ms: seq<(string, Value)>, parseFloat: FloatParser)
    ensures DecodePayload(KLink, JObject(ms), parseFloat).Success? <==>
            forall j :: 0 <= j < |ms| ==> LinkFits(ms[j].0, ms[j].1, parseFloat)
    ensures DecodePayload(KLink, JObject(ms), parseFloat).Success? ==>
              DecodePayload(KLink, JObject(ms), parseFloat) ==
              Success(LinkData(Link(LastOr(ms, "author", StringOf, parseFloat, ""),
                                      LastOr(ms, "score", IntOf, parseFloat, 0),
                                      LastOr(ms, "edited", EditedOf, parseFloat, NotEdited))))
  {
    LinkPayload(ms, parseFloat);
    LinkAccepts(ms, parseFloat);
    if Finish(Members(ms, Partial(EmptyLink, None), LinkField, parseFloat)).Success? {
      LinkAuthorSlot(ms, parseFloat);
      LinkScoreSlot(ms, parseFloat);
      LinkEditedSlot(ms, parseFloat);
    }
  }

  lemma AccountFieldFits(parseFloat: FloatParser)
    ensures forall t, k, w :: AccountField(t, k, w, parseFloat).Set? <==> AccountFits(k, w, parseFloat)
  {
    forall t, k, w
      ensures AccountField(t, k, w, parseFloat).Set? <==> AccountFits(k, w, parseFloat)
    {
    }
  }

  /** The decode of an account object is the fold of its members. */
  lemma AccountPayload(ms: seq<(string, Value)>, parseFloat: FloatParser)
    ensures var r := Finish(Members(ms, Partial(EmptyAccount, None), AccountField, parseFloat));
            DecodePayload(KAccount, JObject(ms), parseFloat) == (if r.Success? then Success(AccountData(r.value)) else Failure(r.error))
  {
  }

  lemma AccountAccepts(ms: seq<(string, Value)>, parseFloat: FloatParser)
    ensures Finish(Members(ms, Partial(EmptyAccount, None), AccountField, parseFloat)).Success? <==>
            forall j :: 0 <= j < |ms| ==> AccountFits(ms[j].0, ms[j].1, parseFloat)
  {
    AccountFieldFits(parseFloat);
    FinishMembersFit(ms, EmptyAccount, AccountField, parseFloat, AccountFits);
  }

  /**
   * An object decodes as an account exactly when every member fits its field,
   * and `link_karma`, `name` then hold the last member under each key that sets it.
   */
  lemma AccountDecodes(ms: seq<(string, Value)>, parseFloat: FloatParser)
    ensures DecodePayload(KAccount, JObject(ms), parseFloat).Success? <==>
            forall j :: 0 <= j < |ms| ==> AccountFits(ms[j].0, ms[j].1, parseFloat)
    ensures DecodePayload(KAccount, JObject(ms), parseFloat).Success? ==>
              DecodePayload(KAccount, JObject(ms), parseFloat) ==
              Success(AccountData(Account(LastOr(ms, "link_karma", IntOf, parseFloat, 0),
                                            LastOr(ms, "name", StringOf, parseFloat, ""))))
  {
    AccountPayload(ms, parseFloat);
    AccountAccepts(ms, parseFloat);
    if Finish(Members(ms, Partial(EmptyAccount, None), AccountField, parseFloat)).Success? {
      AccountLinkKarmaSlot(ms, parseFloat);
      AccountNameSlot(ms, parseFloat);
    }
  }

  lemma MessageFieldFits(parseFloat: FloatParser)
    ensures forall t, k, w :: MessageField(t, k, w, parseFloat).Set? <==> MessageFits(k, w, parseFloat)
  {
    forall t, k, w
      ensures MessageField(t, k, w, parseFloat).Set? <==> MessageFits(k, w, parseFloat)
    {
    }
  }

  /** The decode of a message object is the fold of its members. */
  lemma MessagePayload(ms: seq<(string, Value)>, parseFloat: FloatParser)
    ensures var r := Finish(Members(ms, Partial(EmptyMessage, None), MessageField, parseFloat));
            DecodePayload(KMessage, JObject(ms), parseFloat) == (if r.Success? then Success(MessageData(r.value)) else Failure(r.error))
  {
  }

  lemma MessageAccepts(ms: seq<(string, Value)>, parseFloat: FloatParser)
    ensures Finish(Members(ms, Partial(EmptyMessage, None), MessageField, parseFloat)).Success? <==>
            forall j :: 0 <= j < |ms| ==> MessageFits(ms[j].0, ms[j].1, parseFloat)
  {
    MessageFieldFits(parseFloat);
    FinishMembersFit(ms, EmptyMessage, MessageField, parseFloat, MessageFits);
  }

  /**
   * An object decodes as a message exactly when every member fits its field,
   * and `author`, `subject` then hold the last member under each key that sets it.
   */
  lemma MessageDecodes(ms: seq<(string, Value)>, parseFloat: FloatParser)
    ensures DecodePayload(KMessage, JObject(ms), parseFloat).Success? <==>
            forall j :: 0 <= j < |ms| ==> MessageFits(ms[j].0, ms[j].1, parseFloat)
    ensures DecodePayload(KMessage, JObject(ms), parseFloat).Success? ==>
              DecodePayload(KMessage, JObject(ms), parseFloat) ==
              Success(MessageData(Message(LastOr(ms, "author", StringOf, parseFloat, ""),
                                            LastOr(ms, "subject", StringOf, parseFloat, ""))))
  {
    MessagePayload(ms, parseFloat);
    MessageAccepts(ms, parseFloat);
    if Finish(Members(ms, Partial(EmptyMessage, None), MessageField, parseFloat)).Success? {
      MessageAuthorSlot(ms, parseFloat);
      MessageSubjectSlot(ms, parseFloat);
    }
  }

  lemma SubRedditFieldFits(parseFloat: FloatParser)
    ensures forall t, k, w :: SubRedditField(t, k, w, parseFloat).Set? <==> SubRedditFits(k, w, parseFloat)
  {
    forall t, k, w
      ensures SubRedditField(t, k, w, parseFloat).Set? <==> SubRedditFits(k, w, parseFloat)
    {
    }
  }

  /** The decode of a subreddit object is the fold of its members. */
  lemma SubRedditPayload(ms: seq<(string, Value)>, parseFloat: FloatParser)
    ensures var r := Finish(Members(ms, Partial(EmptySubReddit, None), SubRedditField, parseFloat));
            DecodePayload(KSubReddit, JObject(ms), parseFloat) == (if r.Success? then Success(SubRedditData(r.value)) else Failure(r.error))
  {
  }

  lemma SubRedditAccepts(ms: seq<(string, Value)>, parseFloat: FloatParser)
    ensures Finish(Members(ms, Partial(EmptySubReddit, None), SubRedditField, parseFloat)).Success? <==>
            forall j :: 0 <= j < |ms| ==> SubRedditFits(ms[j].0, ms[j].1, parseFloat)
  {
    SubRedditFieldFits(parseFloat);
    FinishMembersFit(ms, EmptySubReddit, SubRedditField, parseFloat, SubRedditFits);
  }

  /**
   * An object decodes as a subreddit exactly when every member fits its field,
   * and `display_name` then holds the last member under each key that sets it.
   */
  lemma SubRedditDecodes(ms: seq<(string, Value)>, parseFloat: FloatParser)
    ensures DecodePayload(KSubReddit, JObject(ms), parseFloat).Success? <==>
            forall j :: 0 <= j < |ms| ==> SubRedditFits(ms[j].0, ms[j].1, parseFloat)
    ensures DecodePayload(KSubReddit, JObject(ms), parseFloat).Success? ==>
              DecodePayload(KSubReddit, JObject(ms), parseFloat).value.subreddit.displayName == LastOr(ms, "display_name", StringOf, parseFloat, "")
  {
    SubRedditPayload(ms, parseFloat);
    SubRedditAccepts(ms, parseFloat);
    if Finish(Members(ms, Partial(EmptySubReddit, None), SubRedditField, parseFloat)).Success? {
      SubRedditDisplayNameSlot(ms, parseFloat);
    }
  }

  lemma ListingFieldFits(parseFloat: FloatParser)
    ensures forall t, k, w :: ListingField(t, k, w, parseFloat).Set? <==> ListingFits(k, w, parseFloat)
  {
    forall t, k, w
      ensures ListingField(t, k, w, parseFloat).Set? <==> ListingFits(k, w, parseFloat)
    {
      ThingsIntoFits(w, parseFloat);
    }
  }

  /** The decode of a listing page object is the fold of its members. */
  lemma ListingPayload(ms: seq<(string, Value)>, parseFloat: FloatParser)
    ensures var r := Finish(Members(ms, Partial(EmptyListing, None), ListingField, parseFloat));
            DecodePayload(KListing, JObject(ms), parseFloat) == (if r.Success? then Success(ListingData(r.value)) else Failure(r.error))
  {
    ListingMembersFold(JObject(ms), 0, Partial(EmptyListing, None), parseFloat);
    assert ms[0..] == ms;
  }

  lemma ListingAccepts(ms: seq<(string, Value)>, parseFloat: FloatParser)
    ensures Finish(Members(ms, Partial(EmptyListing, None), ListingField, parseFloat)).Success? <==>
            forall j :: 0 <= j < |ms| ==> ListingFits(ms[j].0, ms[j].1, parseFloat)
  {
    ListingFieldFits(parseFloat);
    FinishMembersFit(ms, EmptyListing, ListingField, parseFloat, ListingFits);
  }

  /**
   * An object decodes as a listing page exactly when every member fits its field,
   * and `before`, `after`, `modhash`, `children` then hold the last member under each key that sets it.
   */
  lemma ListingDecodes(ms: seq<(string, Value)>, parseFloat: FloatParser)
    ensures DecodePayload(KListing, JObject(ms), parseFloat).Success? <==>
            forall j :: 0 <= j < |ms| ==> ListingFits(ms[j].0, ms[j].1, parseFloat)
    ensures DecodePayload(KListing, JObject(ms), parseFloat).Success? ==>
              DecodePayload(KListing, JObject(ms), parseFloat) ==
              Success(ListingData(Listing(LastOr(ms, "before", StringOf, parseFloat, ""),
                                            LastOr(ms, "after", StringOf, parseFloat, ""),
                                            LastOr(ms, "modhash", StringOf, parseFloat, ""),
                                            LastOr(ms, "children", ThingsOf, parseFloat, []))))
  {
    ListingPayload(ms, parseFloat);
    ListingAccepts(ms, parseFloat);
    if Finish(Members(ms, Partial(EmptyListing, None), ListingField, parseFloat)).Success? {
      ListingBeforeSlot(ms, parseFloat);
      ListingAfterSlot(ms, parseFloat);
      ListingModhashSlot(ms, parseFloat);
      ListingChildrenSlot(ms, parseFloat);
    }
  }

  lemma CommentFieldFits(parseFloat: FloatParser)
    ensures forall t, k, w :: CommentField(t, k, w, parseFloat).Set? <==> CommentFits(k, w, parseFloat)
  {
    forall t, k, w
      ensures CommentField(t, k, w, parseFloat).Set? <==> CommentFits(k, w, parseFloat)
    {
      ThingsIntoFits(w, parseFloat);
    }
  }

  /** The decode of a comment object is the fold of its members. */
  lemma CommentPayload(ms: seq<(string, Value)>, parseFloat: FloatParser)
    ensures var r := Finish(Members(ms, Partial(EmptyComment, None), CommentField, parseFloat));
            DecodePayload(KComment, JObject(ms), parseFloat) == (if r.Success? then Success(CommentData(r.value)) else Failure(r.error))
  {
    CommentMembersFold(JObject(ms), 0, Partial(EmptyComment, None), parseFloat);
    assert ms[0..] == ms;
  }

  lemma CommentAccepts(ms: seq<(string, Value)>, parseFloat: FloatParser)
    ensures Finish(Members(ms, Partial(EmptyComment, None), CommentField, parseFloat)).Success? <==>
            forall j :: 0 <= j < |ms| ==> CommentFits(ms[j].0, ms[j].1, parseFloat)
  {
    CommentFieldFits(parseFloat);
    FinishMembersFit(ms, EmptyComment, CommentField, parseFloat, CommentFits);
  }

  /**
   * An object decodes as a comment exactly when every member fits its field,
   * and `author`, `edited`, `replies` then hold the last member under each key that sets it.
   */
  lemma CommentDecodes(ms: seq<(string, Value)>, parseFloat: FloatParser)
    ensures DecodePayload(KComment, JObject(ms), parseFloat).Success? <==>
            forall j :: 0 <= j < |ms| ==> CommentFits(ms[j].0, ms[j].1, parseFloat)
    ensures DecodePayload(KComment, JObject(ms), parseFloat).Success? ==>
              DecodePayload(KComment, JObject(ms), parseFloat) ==
              Success(CommentData(Comment(LastOr(ms, "author", StringOf, parseFloat, ""),
                                            LastOr(ms, "edited", EditedOf, parseFloat, NotEdited),
                                            LastOr(ms, "replies", ThingsOf, parseFloat, []))))
  {
    CommentPayload(ms, parseFloat);
    CommentAccepts(ms, parseFloat);
    if Finish(Members(ms, Partial(EmptyComment, None), CommentField, parseFloat)).Success? {
      CommentAuthorSlot(ms, parseFloat);
      CommentEditedSlot(ms, parseFloat);
      CommentRepliesSlot(ms, parseFloat);
    }
  }


  // ------------------------------------------------ the error reported

  /**
   * An `edited` member its own decoder rejects stops the decode with that
   * error, whatever mismatches the members before it left.
   */
  lemma LinkEditedAborts(ms: seq<(string, Value)>, parseFloat: FloatParser, j: nat)
    requires j < |ms| && LinkAborts(ms[j].0, ms[j].1, parseFloat)
    requires forall i :: 0 <= i < j ==> !LinkAborts(ms[i].0, ms[i].1, parseFloat)
    ensures DecodePayload(KLink, JObject(ms), parseFloat) == Failure(BadTimestamp(ms[j].1))
  {
    forall t, k, w
      ensures LinkField(t, k, w, parseFloat).Abort? <==> LinkAborts(k, w, parseFloat)
    {
    }
    FirstAbortReported(ms, EmptyLink, LinkField, parseFloat, LinkAborts, j);
  }

  /** `UnmarshalHeaderSize` fails or not, and with which error, whatever the receiver holds. */
  lemma HeaderSizeReceiverUnused(v: Value, a: HeaderSize, b: HeaderSize)
    ensures UnmarshalHeaderSize(v, a).Success? <==> UnmarshalHeaderSize(v, b).Success?
    ensures UnmarshalHeaderSize(v, a).Failure? ==> UnmarshalHeaderSize(v, a).error == UnmarshalHeaderSize(v, b).error
  {
  }

  /** A `header_size` member that is neither `null` nor a pair of integers stops the decode with its error. */
  lemma SubRedditHeaderAborts(ms: seq<(string, Value)>, parseFloat: FloatParser, j: nat)
    requires j < |ms| && SubRedditAborts(ms[j].0, ms[j].1, parseFloat)
    requires forall i :: 0 <= i < j ==> !SubRedditAborts(ms[i].0, ms[i].1, parseFloat)
    ensures DecodePayload(KSubReddit, JObject(ms), parseFloat) == Failure(UnmarshalHeaderSize(ms[j].1, ZeroHeaderSize).error)
  {
    forall t, k, w
      ensures SubRedditField(t, k, w, parseFloat).Abort? <==> SubRedditAborts(k, w, parseFloat)
    {
      HeaderSizeReceiverUnused(w, t.headerSize.GetOr(ZeroHeaderSize), ZeroHeaderSize);
    }
    FirstAbortReported(ms, EmptySubReddit, SubRedditField, parseFloat, SubRedditAborts, j);
    var t := After(ms, j, EmptySubReddit, SubRedditField, parseFloat);
    HeaderSizeReceiverUnused(ms[j].1, t.headerSize.GetOr(ZeroHeaderSize), ZeroHeaderSize);
  }

  /**
   * A `children` array holding an entity that fails stops the decode with
   * the error of its first failing element.
   */
  lemma ListingChildAborts(ms: seq<(string, Value)>, parseFloat: FloatParser, j: nat, m: nat)
    requires j < |ms| && ListingAborts(ms[j].0, ms[j].1, parseFloat)
    requires forall i :: 0 <= i < j ==> !ListingAborts(ms[i].0, ms[i].1, parseFloat)
    requires m < |ms[j].1.items| && DecodeThing(ms[j].1.items[m], parseFloat).Failure?
    requires forall i :: 0 <= i < m ==> DecodeThing(ms[j].1.items[i], parseFloat).Success?
    ensures DecodePayload(KListing, JObject(ms), parseFloat) == Failure(DecodeThing(ms[j].1.items[m], parseFloat).error)
  {
    forall t, k, w
      ensures ListingField(t, k, w, parseFloat).Abort? <==> ListingAborts(k, w, parseFloat)
    {
      ThingsIntoFits(w, parseFloat);
    }
    ListingMembersFold(JObject(ms), 0, Partial(EmptyListing, None), parseFloat);
    assert ms[0..] == ms;
    FirstAbortReported(ms, EmptyListing, ListingField, parseFloat, ListingAborts, j);
    ThingsIntoArray(ms[j].1, parseFloat);
  }

  /** An `edited` member its decoder rejects stops a comment's decode with that error. */
  lemma CommentEditedAborts(ms: seq<(string, Value)>, parseFloat: FloatParser, j: nat)
    requires j < |ms| && ms[j].0 == "edited" && DecodeEdited(ms[j].1, parseFloat).Failure?
    requires forall i :: 0 <= i < j ==> !CommentAborts(ms[i].0, ms[i].1, parseFloat)
    ensures DecodePayload(KComment, JObject(ms), parseFloat) == Failure(BadTimestamp(ms[j].1))
  {
    forall t, k, w
      ensures CommentField(t, k, w, parseFloat).Abort? <==> CommentAborts(k, w, parseFloat)
    {
      ThingsIntoFits(w, parseFloat);
    }
    CommentMembersFold(JObject(ms), 0, Partial(EmptyComment, None), parseFloat);
    assert ms[0..] == ms;
    FirstAbortReported(ms, EmptyComment, CommentField, parseFloat, CommentAborts, j);
  }

  /** A `replies` array holding an entity that fails stops a comment's decode with its first failing element's error. */
  lemma CommentReplyAborts(ms: seq<(string, Value)>, parseFloat: FloatParser, j: nat, m: nat)
    requires j < |ms| && ms[j].0 == "replies" && ms[j].1.JArray?
    requires forall i :: 0 <= i < j ==> !CommentAborts(ms[i].0, ms[i].1, parseFloat)
    requires m < |ms[j].1.items| && DecodeThing(ms[j].1.items[m], parseFloat).Failure?
    requires forall i :: 0 <= i < m ==> DecodeThing(ms[j].1.items[i], parseFloat).Success?
    ensures DecodePayload(KComment, JObject(ms), parseFloat) == Failure(DecodeThing(ms[j].1.items[m], parseFloat).error)
  {
    forall t, k, w
      ensures CommentField(t, k, w, parseFloat).Abort? <==> CommentAborts(k, w, parseFloat)
    {
      ThingsIntoFits(w, parseFloat);
    }
    CommentMembersFold(JObject(ms), 0, Partial(EmptyComment, None), parseFloat);
    assert ms[0..] == ms;
    FirstAbortReported(ms, EmptyComment, CommentField, parseFloat, CommentAborts, j);
    ThingsIntoArray(ms[j].1, parseFloat);
  }
}
