/**
 * The two field types of the entity payloads that bring their own JSON codec:
 * `Edited` (literal `false`, or a timestamp number) and `HeaderSize` (an
 * image's width and height as a two-element array).
 */
module Codecs {
  import opened Wrappers
  import opened Numbers
  import opened Json

  /**
   * `strconv.ParseFloat(text, 64)`, left abstract: `None` where Go reports an
   * error. A `float64` result is represented by the real number it denotes.
   */
  type FloatParser = string -> Option<real>

  /** Largest magnitude below which every integer is a `float64`. */
  const MaxExactInteger: int := 0x20_0000_0000_0000

  /** Integer literals in `float64`'s exact range read as themselves. */
  ghost predicate ReadsIntegers(parseFloat: FloatParser) {
    forall n: int :: -MaxExactInteger <= n <= MaxExactInteger ==> parseFloat(FormatInt(n)) == Some(n as real)
  }

  // ---------------------------------------------------------------- Edited

  /** When an entity was last edited, if ever. */
  datatype Edited = Edited(unix: real, edited: bool)

  const NotEdited: Edited := Edited(0.0, false)

  /**
   * `Edited.UnmarshalJSON`: the literal `false` means never edited; any other
   * token is handed to `ParseFloat`, which only a number literal can satisfy.
   * A failure leaves the receiver as it was, so it carries no value here.
   */
  function DecodeEdited(v: Value, parseFloat: FloatParser): (r: Result<Edited, DecodeError>)
    ensures r.Success? <==> v == JBool(false) || (v.JNumber? && parseFloat(v.lexeme).Some?)
    ensures r.Success? ==> (r.value.edited <==> v.JNumber?)
    ensures r.Success? && !r.value.edited ==> r.value == NotEdited
    ensures r.Success? && r.value.edited ==> parseFloat(v.lexeme) == Some(r.value.unix)
    ensures r.Failure? ==> r.error == BadTimestamp(v)
  {
    match v
    case JBool(false) => Success(NotEdited)
    case JNumber(lit) =>
      (match parseFloat(lit)
       case Some(t) => Success(Edited(t, true))
       case None => Failure(BadTimestamp(v)))
    case _ => Failure(BadTimestamp(v))
  }

  /**
   * `Edited.MarshalJSON` as written: an edited value is formatted with `%d`,
   * which Go renders for a `float64` as `%!d(float64=...)`; that is no JSON
   * value, so `json.Marshal` rejects it with a `MarshalerError`.
   */
  function EncodeEdited(e: Edited): (r: Result<Value, EncodeError>)
    ensures r.Success? <==> !e.edited
    ensures r.Success? ==> r.value == JBool(false)
  {
    if e.edited then Failure(InvalidMarshalerOutput("*Edited")) else Success(JBool(false))
  }

  /** The never-edited branch round-trips in both directions. */
  lemma EditedFalseRoundTrip(e: Edited, parseFloat: FloatParser)
    requires !e.edited
    ensures EncodeEdited(e).Success?
    ensures DecodeEdited(EncodeEdited(e).value, parseFloat) == Success(NotEdited)
    ensures EncodeEdited(DecodeEdited(JBool(false), parseFloat).value) == Success(JBool(false))
  {
  }

  /**
   * An edited timestamp as the API sends it: the encoder as written fails on
   * it, where the integer rendering gives the literal `1500000000`.
   */
  lemma EditedMarshalFails()
    ensures EncodeEdited(Edited(1500000000.0, true)).Failure?
    ensures EncodeEditedAsInteger(Edited(1500000000.0, true)) == JNumber("1500000000")
  {
    assert (1500000000.0).Floor == 1500000000;
    assert FormatNat(1) == "1";
    assert FormatNat(15) == "15";
    assert FormatNat(150) == "150";
    assert FormatNat(1500) == "1500";
    assert FormatNat(15000) == "15000";
    assert FormatNat(150000) == "150000";
    assert FormatNat(1500000) == "1500000";
    assert FormatNat(15000000) == "15000000";
    assert FormatNat(150000000) == "150000000";
    assert FormatNat(1500000000) == "1500000000";
  }

  /** Timestamps the integer rendering can carry without loss. */
  predicate CanonicalEdited(e: Edited) {
    if e.edited then
      e.unix == e.unix.Floor as real && -MaxExactInteger <= e.unix.Floor <= MaxExactInteger
    else
      e.unix == 0.0
  }

  /** The encoding the `%d` verb was evidently meant to produce: the timestamp as a bare integer. */
  function EncodeEditedAsInteger(e: Edited): (r: Value)
    ensures r == JBool(false) <==> !e.edited
    ensures r.JNumber? <==> e.edited
  {
    if e.edited then JNumber(FormatInt(e.unix.Floor)) else JBool(false)
  }

  lemma EditedRoundTrip(e: Edited, parseFloat: FloatParser)
    requires CanonicalEdited(e) && ReadsIntegers(parseFloat)
    ensures DecodeEdited(EncodeEditedAsInteger(e), parseFloat) == Success(e)
  {
  }

  // ------------------------------------------------------------ HeaderSize

  /** An image's dimensions. */
  datatype HeaderSize = HeaderSize(width: Int64, height: Int64)

  const ZeroHeaderSize: HeaderSize := HeaderSize(0, 0)

  /**
   * `HeaderSize.UnmarshalJSON`: the value must decode as a `[]int`; an empty
   * (or null) one leaves the receiver as it was, two elements replace both
   * dimensions, any other length is an error.
   */
  function UnmarshalHeaderSize(v: Value, receiver: HeaderSize): (r: Result<HeaderSize, DecodeError>)
    ensures v.JNull? || v == JArray([]) ==> r == Success(receiver)
    ensures v.JArray? && |v.items| == 2 && IsIntItem(v.items[0]) && IsIntItem(v.items[1]) ==>
              r == Success(HeaderSize(IntItemValue(v.items[0]), IntItemValue(v.items[1])))
    ensures v.JArray? && |v.items| != 0 && |v.items| != 2 && (forall i :: 0 <= i < |v.items| ==> IsIntItem(v.items[i])) ==>
              r == Failure(WrongPairLength(|v.items|))
    ensures v.JArray? && (exists i :: 0 <= i < |v.items| && !IsIntItem(v.items[i])) ==> r.Failure?
    ensures !(v.JNull? || v.JArray?) ==> r.Failure?
  {
    var ints :- Ints(v);
    if |ints| == 0 then Success(receiver)
    else if |ints| != 2 then Failure(WrongPairLength(|ints|))
    else Success(HeaderSize(ints[0], ints[1]))
  }

  /** `HeaderSize.MarshalJSON`: `null` for a nil pointer, else `[width, height]`. */
  function EncodeHeaderSize(p: Option<HeaderSize>): (r: Value)
    ensures r == JNull <==> p.None?
    ensures p.Some? ==> r.JArray? && |r.items| == 2
  {
    match p
    case None => JNull
    case Some(h) => JArray([JNumber(FormatInt(h.width)), JNumber(FormatInt(h.height))])
  }

  /**
   * Storing into a `*HeaderSize` field: `null` makes the pointer nil; anything
   * else is decoded into the pointed-to value, a fresh zero one if the
   * pointer was nil, and an error stops decoding.
   */
  function HeaderSizeField(v: Value, current: Option<HeaderSize>): (r: Step<Option<HeaderSize>>)
    ensures v.JNull? <==> r == Set(None)
    ensures !r.Mismatch?
    ensures current.None? && v == JArray([]) ==> r == Set(Some(ZeroHeaderSize))
  {
    if v.JNull? then Set(None)
    else
      match UnmarshalHeaderSize(v, current.GetOr(ZeroHeaderSize))
      case Success(h) => Set(Some(h))
      case Failure(e) => Abort(e)
  }

  /** Every pair, the zero pair included, is read back from its encoding. */
  lemma HeaderSizeRoundTrip(h: HeaderSize, receiver: HeaderSize)
    ensures UnmarshalHeaderSize(EncodeHeaderSize(Some(h)), receiver) == Success(h)
  {
    FormatParseRoundTrip(h.width);
    FormatParseRoundTrip(h.height);
  }

  /** Through the pointer field, nil and non-nil values both round-trip. */
  lemma HeaderSizeFieldRoundTrip(p: Option<HeaderSize>, current: Option<HeaderSize>)
    ensures HeaderSizeField(EncodeHeaderSize(p), current) == Set(p)
  {
    if p.Some? {
      HeaderSizeRoundTrip(p.value, current.GetOr(ZeroHeaderSize));
    }
  }
}
