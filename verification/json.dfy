/**
 * JSON values as Go's `encoding/json` sees them once the text is parsed, and
 * the rules it follows when it stores a value into a Go field: object members
 * are visited in order (a repeated key overwrites the earlier one), `null`
 * leaves a string or number field as it was, a value of the wrong JSON type is
 * remembered as the error to report while decoding carries on, and an error
 * returned by a type's own `UnmarshalJSON` stops decoding at once.
 */
module Json {
  import opened Wrappers
  import opened Numbers

  /** A number keeps its literal text: Go hands that text to `strconv`. */
  datatype Value =
    | JNull
    | JBool(b: bool)
    | JNumber(lexeme: string)
    | JString(s: string)
    | JArray(items: seq<Value>)
    | JObject(members: seq<(string, Value)>)

  datatype DecodeError =
    | TypeMismatch(value: string, target: string)  // json.UnmarshalTypeError
    | UnsupportedKind(kind: string)                  // "unsupported kind: %s"
    | UnexpectedEnd                                  // decoding an absent json.RawMessage
    | BadTimestamp(token: Value)                     // strconv.ParseFloat failed
    | WrongPairLength(got: nat)                      // "expected 2 element array, got %d elements"

  datatype EncodeError = InvalidMarshalerOutput(typeName: string)

  /** How `json.UnmarshalTypeError` names the JSON side of a mismatch. */
  function TypeName(v: Value): string {
    match v
    case JNull => "null"
    case JBool(_) => "bool"
    case JNumber(_) => "number"
    case JString(_) => "string"
    case JArray(_) => "array"
    case JObject(_) => "object"
  }

  /** What storing one JSON value into one Go field does. */
  datatype Step<T> =
    | Set(value: T)                 // the field now holds `value`
    | Mismatch(error: DecodeError)  // field untouched, error remembered, decoding goes on
    | Abort(error: DecodeError)     // decoding stops with `error`
  {
    function Map<U>(f: T -> U): Step<U> {
      match this
      case Set(x) => Set(f(x))
      case Mismatch(e) => Mismatch(e)
      case Abort(e) => Abort(e)
    }
  }

  /** A value under construction and the first remembered mismatch, if any. */
  datatype Partial<T> = Partial(value: T, saved: Option<DecodeError>)

  function Absorb<T>(acc: Partial<T>, step: Step<T>): Result<Partial<T>, DecodeError> {
    match step
    case Set(x) => Success(Partial(x, acc.saved))
    case Mismatch(e) => Success(Partial(acc.value, if acc.saved.Some? then acc.saved else Some(e)))
    case Abort(e) => Failure(e)
  }

  /** The outcome of `json.Unmarshal` once every member has been visited. */
  function Finish<T>(r: Result<Partial<T>, DecodeError>): Result<T, DecodeError> {
    match r
    case Failure(e) => Failure(e)
    case Success(p) => if p.saved.Some? then Failure(p.saved.value) else Success(p.value)
  }

  /**
   * Visits the members of an object in order, storing each through `field`,
   * which ignores keys the Go struct has no field for; `context` is passed
   * through to `field` unchanged.
   */
  function Members<T, C>(ms: seq<(string, Value)>, acc: Partial<T>,
                         field: (T, string, Value, C) -> Step<T>, context: C): Result<Partial<T>, DecodeError>
    decreases |ms|
  {
    if ms == [] then Success(acc)
    else
      var next :- Absorb(acc, field(acc.value, ms[0].0, ms[0].1, context));
      Members(ms[1..], next, field, context)
  }

  // ------------------------------------------------ the member fold, stepwise

  /**
   * The value held once the first `n` members have been stored, each through
   * `field` from the value the members before it left; a member that does not
   * set the field leaves the value as it was.
   */
  function After<T, C>(ms: seq<(string, Value)>, n: nat, v: T,
                       field: (T, string, Value, C) -> Step<T>, context: C): T
    requires n <= |ms|
    decreases n
  {
    if n == 0 then v
    else
      var s := field(v, ms[0].0, ms[0].1, context);
      After(ms[1..], n - 1, if s.Set? then s.value else v, field, context)
  }

  /** Storing member `n` into the value the members before it left. */
  function StepAt<T, C>(ms: seq<(string, Value)>, n: nat, v: T,
                        field: (T, string, Value, C) -> Step<T>, context: C): Step<T>
    requires n < |ms|
  {
    field(After(ms, n, v, field, context), ms[n].0, ms[n].1, context)
  }

  /**
   * Member `n` is the one whose error decoding reports: the first member that
   * aborts, or, when none aborts, the first mismatch.
   */
  predicate Reported<T, C>(ms: seq<(string, Value)>, n: nat, v: T,
                           field: (T, string, Value, C) -> Step<T>, context: C)
    requires n < |ms|
  {
    || (&& StepAt(ms, n, v, field, context).Abort?
        && forall k :: 0 <= k < n ==> !StepAt(ms, k, v, field, context).Abort?)
    || (&& StepAt(ms, n, v, field, context).Mismatch?
        && (forall k :: 0 <= k < |ms| ==> !StepAt(ms, k, v, field, context).Abort?)
        && forall k :: 0 <= k < n ==> StepAt(ms, k, v, field, context).Set?)
  }

  /** Dropping the first member: the later steps start from what it left. */
  lemma StepAtTail<T, C>(ms: seq<(string, Value)>, v: T, field: (T, string, Value, C) -> Step<T>, context: C, v1: T)
    requires ms != []
    requires v1 == (var s := field(v, ms[0].0, ms[0].1, context); if s.Set? then s.value else v)
    ensures StepAt(ms, 0, v, field, context) == field(v, ms[0].0, ms[0].1, context)
    ensures forall n :: 1 <= n < |ms| ==> StepAt(ms, n, v, field, context) == StepAt(ms[1..], n - 1, v1, field, context)
    ensures forall m :: 0 <= m < |ms| - 1 ==> StepAt(ms[1..], m, v1, field, context) == StepAt(ms, m + 1, v, field, context)
    ensures After(ms, |ms|, v, field, context) == After(ms[1..], |ms| - 1, v1, field, context)
  {
    forall n | 1 <= n < |ms|
      ensures StepAt(ms, n, v, field, context) == StepAt(ms[1..], n - 1, v1, field, context)
    {
      assert ms[n] == ms[1..][n - 1];
    }
  }

  /**
   * The fold over the members, step by step: it fails exactly when some step
   * aborts, and then with the first abort's error; otherwise it holds the
   * value the steps leave and remembers the first mismatch, if any.
   */
  lemma {:induction false} MembersSteps<T, C>(ms: seq<(string, Value)>, acc: Partial<T>,
                                              field: (T, string, Value, C) -> Step<T>, context: C)
    ensures var r := Members(ms, acc, field, context);
            r.Success? <==> forall n :: 0 <= n < |ms| ==> !StepAt(ms, n, acc.value, field, context).Abort?
    ensures var r := Members(ms, acc, field, context);
            r.Success? ==> r.value.value == After(ms, |ms|, acc.value, field, context)
    ensures var r := Members(ms, acc, field, context);
            r.Success? && acc.saved.Some? ==> r.value.saved == acc.saved
    ensures var r := Members(ms, acc, field, context);
            r.Success? && acc.saved.None? ==>
              (r.value.saved.None? <==> forall n :: 0 <= n < |ms| ==> StepAt(ms, n, acc.value, field, context).Set?)
    ensures var r := Members(ms, acc, field, context);
            r.Success? && acc.saved.None? && r.value.saved.Some? ==>
              exists n :: && 0 <= n < |ms| && Reported(ms, n, acc.value, field, context)
                          && r.value.saved.value == StepAt(ms, n, acc.value, field, context).error
    ensures var r := Members(ms, acc, field, context);
            r.Failure? ==>
              exists n :: && 0 <= n < |ms| && StepAt(ms, n, acc.value, field, context).Abort?
                          && (forall k :: 0 <= k < n ==> !StepAt(ms, k, acc.value, field, context).Abort?)
                          && r.error == StepAt(ms, n, acc.value, field, context).error
    decreases |ms|
  {
    if ms != [] {
      var v := acc.value;
      var s := field(v, ms[0].0, ms[0].1, context);
      var v1 := if s.Set? then s.value else v;
      StepAtTail(ms, v, field, context, v1);
      if !s.Abort? {
        var next := Absorb(acc, s).value;
        assert Members(ms, acc, field, context) == Members(ms[1..], next, field, context);
        MembersSteps(ms[1..], next, field, context);
        var r := Members(ms, acc, field, context);
        if r.Failure? {
          var m :| && 0 <= m < |ms| - 1 && StepAt(ms[1..], m, v1, field, context).Abort?
                   && (forall k :: 0 <= k < m ==> !StepAt(ms[1..], k, v1, field, context).Abort?)
                   && r.error == StepAt(ms[1..], m, v1, field, context).error;
          assert StepAt(ms, m + 1, v, field, context).Abort?;
        } else if acc.saved.None? && r.value.saved.Some? {
          if s.Mismatch? {
            assert Reported(ms, 0, v, field, context);
          } else {
            var m :| && 0 <= m < |ms| - 1 && Reported(ms[1..], m, v1, field, context)
                     && r.value.saved.value == StepAt(ms[1..], m, v1, field, context).error;
            assert Reported(ms, m + 1, v, field, context);
          }
        }
      }
    }
  }

  /**
   * `json.Unmarshal` into a fresh struct: it succeeds exactly when every
   * member sets its field, giving the value the members leave; otherwise it
   * reports the first abort, or, failing one, the first mismatch.
   */
  lemma FinishMembers<T, C>(ms: seq<(string, Value)>, v: T, field: (T, string, Value, C) -> Step<T>, context: C)
    ensures var r := Finish(Members(ms, Partial(v, None), field, context));
            r.Success? <==> forall n :: 0 <= n < |ms| ==> StepAt(ms, n, v, field, context).Set?
    ensures var r := Finish(Members(ms, Partial(v, None), field, context));
            r.Success? ==> r.value == After(ms, |ms|, v, field, context)
    ensures var r := Finish(Members(ms, Partial(v, None), field, context));
            r.Failure? ==>
              exists n :: 0 <= n < |ms| && Reported(ms, n, v, field, context) && r.error == StepAt(ms, n, v, field, context).error
  {
    MembersSteps(ms, Partial(v, None), field, context);
  }

  /**
   * When whether a member sets its field depends only on the member, a decode
   * succeeds exactly when every member fits.
   */
  lemma FinishMembersFit<T, C>(ms: seq<(string, Value)>, v: T, field: (T, string, Value, C) -> Step<T>, context: C,
                               fits: (string, Value, C) -> bool)
    requires forall t, k, w :: field(t, k, w, context).Set? <==> fits(k, w, context)
    ensures Finish(Members(ms, Partial(v, None), field, context)).Success? <==>
            forall j :: 0 <= j < |ms| ==> fits(ms[j].0, ms[j].1, context)
  {
    FinishMembers(ms, v, field, context);
    forall n | 0 <= n < |ms|
      ensures StepAt(ms, n, v, field, context).Set? <==> fits(ms[n].0, ms[n].1, context)
    {
    }
  }

  /** `AfterSlot` for a decode that succeeds. */
  lemma FinishSlot<T, X, C>(ms: seq<(string, Value)>, v: T, field: (T, string, Value, C) -> Step<T>,
                            context: C, key: string, get: T -> X, conv: (Value, C) -> Option<X>)
    requires Finish(Members(ms, Partial(v, None), field, context)).Success?
    requires forall t, w :: field(t, key, w, context).Set? ==>
               get(field(t, key, w, context).value) == (if conv(w, context).Some? then conv(w, context).value else get(t))
    requires forall t, k, w :: k != key && field(t, k, w, context).Set? ==> get(field(t, k, w, context).value) == get(t)
    ensures get(Finish(Members(ms, Partial(v, None), field, context)).value) == LastOr(ms, key, conv, context, get(v))
  {
    FinishMembers(ms, v, field, context);
    AfterSlot(ms, v, field, context, key, get, conv);
  }

  /**
   * When whether a member aborts depends only on the member, the first member
   * that aborts decides the error, whatever mismatches come before it.
   */
  lemma FirstAbortReported<T, C>(ms: seq<(string, Value)>, v: T, field: (T, string, Value, C) -> Step<T>, context: C,
                                 aborts: (string, Value, C) -> bool, j: nat)
    requires forall t, k, w :: field(t, k, w, context).Abort? <==> aborts(k, w, context)
    requires j < |ms| && aborts(ms[j].0, ms[j].1, context)
    requires forall i :: 0 <= i < j ==> !aborts(ms[i].0, ms[i].1, context)
    ensures Finish(Members(ms, Partial(v, None), field, context)) == Failure(StepAt(ms, j, v, field, context).error)
  {
    FinishMembers(ms, v, field, context);
    assert StepAt(ms, j, v, field, context).Abort?;
    var n :| 0 <= n < |ms| && Reported(ms, n, v, field, context)
             && Finish(Members(ms, Partial(v, None), field, context)).error == StepAt(ms, n, v, field, context).error;
  }

  /**
   * The last member under `key` that `conv` accepts, read through `conv`, or
   * `dflt` when there is none.
   */
  function LastOr<X, C>(ms: seq<(string, Value)>, key: string, conv: (Value, C) -> Option<X>, context: C, dflt: X): X
    decreases |ms|
  {
    if ms == [] then dflt
    else if ms[|ms| - 1].0 == key && conv(ms[|ms| - 1].1, context).Some? then conv(ms[|ms| - 1].1, context).value
    else LastOr(ms[..|ms| - 1], key, conv, context, dflt)
  }

  /** Reading from the front: the first member, when accepted, becomes the default. */
  lemma {:induction false} LastOrFront<X, C>(ms: seq<(string, Value)>, key: string, conv: (Value, C) -> Option<X>,
                                            context: C, dflt: X)
    requires ms != []
    ensures LastOr(ms, key, conv, context, dflt) ==
            LastOr(ms[1..], key, conv, context,
                   if ms[0].0 == key && conv(ms[0].1, context).Some? then conv(ms[0].1, context).value else dflt)
    decreases |ms|
  {
    if |ms| > 1 {
      LastOrFront(ms[..|ms| - 1], key, conv, context, dflt);
      assert ms[..|ms| - 1][1..] == ms[1..][..|ms[1..]| - 1];
    }
  }

  /** A field read as `LastOr` comes from a member under `key`, or is the default when none is accepted. */
  lemma {:induction false} LastOrSource<X, C>(ms: seq<(string, Value)>, key: string, conv: (Value, C) -> Option<X>,
                                             context: C, dflt: X)
    ensures (forall j :: 0 <= j < |ms| ==> ms[j].0 != key) ==> LastOr(ms, key, conv, context, dflt) == dflt
    ensures || LastOr(ms, key, conv, context, dflt) == dflt
            || exists j :: 0 <= j < |ms| && ms[j].0 == key && conv(ms[j].1, context) == Some(LastOr(ms, key, conv, context, dflt))
    decreases |ms|
  {
    if ms != [] {
      var init := ms[..|ms| - 1];
      LastOrSource(init, key, conv, context, dflt);
      if !(ms[|ms| - 1].0 == key && conv(ms[|ms| - 1].1, context).Some?) && LastOr(init, key, conv, context, dflt) != dflt {
        var j :| 0 <= j < |init| && init[j].0 == key && conv(init[j].1, context) == Some(LastOr(init, key, conv, context, dflt));
        assert ms[j] == init[j];
      }
    }
  }

  /**
   * One field of the value: when only members under `key` write it, each
   * writing what `conv` reads from it (a value `conv` rejects leaves it), the
   * field ends up holding the last accepted member under `key`.
   */
  lemma {:induction false} AfterSlot<T, X, C>(ms: seq<(string, Value)>, v: T, field: (T, string, Value, C) -> Step<T>,
                                             context: C, key: string, get: T -> X, conv: (Value, C) -> Option<X>)
    requires forall n :: 0 <= n < |ms| ==> StepAt(ms, n, v, field, context).Set?
    requires forall t, w :: field(t, key, w, context).Set? ==>
               get(field(t, key, w, context).value) == (if conv(w, context).Some? then conv(w, context).value else get(t))
    requires forall t, k, w :: k != key && field(t, k, w, context).Set? ==> get(field(t, k, w, context).value) == get(t)
    ensures get(After(ms, |ms|, v, field, context)) == LastOr(ms, key, conv, context, get(v))
    decreases |ms|
  {
    if ms != [] {
      var s := field(v, ms[0].0, ms[0].1, context);
      var v1 := if s.Set? then s.value else v;
      StepAtTail(ms, v, field, context, v1);
      assert StepAt(ms, 0, v, field, context).Set?;
      AfterSlot(ms[1..], v1, field, context, key, get, conv);
      LastOrFront(ms, key, conv, context, get(v));
    }
  }

  /**
   * Decoding the elements of an array one after another: all the values, in
   * order, or the error of the first element that fails.
   */
  function Collect<T>(rs: seq<Result<T, DecodeError>>): Result<seq<T>, DecodeError> {
    if rs == [] then Success([])
    else
      var x :- rs[0];
      var rest :- Collect(rs[1..]);
      Success([x] + rest)
  }

  /** The collected values are exactly the elements' values, in order. */
  lemma {:induction false} CollectSucceeds<T>(rs: seq<Result<T, DecodeError>>)
    ensures Collect(rs).Success? <==> forall i :: 0 <= i < |rs| ==> rs[i].Success?
    ensures Collect(rs).Success? ==>
              |Collect(rs).value| == |rs| && forall i :: 0 <= i < |rs| ==> rs[i] == Success(Collect(rs).value[i])
  {
    if rs != [] {
      CollectSucceeds(rs[1..]);
      if rs[0].Success? && Collect(rs[1..]).Success? {
        var r := Collect(rs).value;
        assert r == [rs[0].value] + Collect(rs[1..]).value;
        forall i | 0 <= i < |rs|
          ensures rs[i] == Success(r[i])
        {
          if i > 0 {
            assert rs[i] == rs[1..][i - 1];
          }
        }
      } else if rs[0].Success? {
        var i :| 0 <= i < |rs[1..]| && rs[1..][i].Failure?;
        assert rs[i + 1].Failure?;
      }
    }
  }

  /** A failure is the error of the first element that fails. */
  lemma {:induction false} CollectFirstError<T>(rs: seq<Result<T, DecodeError>>)
    ensures Collect(rs).Failure? ==>
              exists i :: && 0 <= i < |rs| && rs[i] == Failure(Collect(rs).error)
                          && forall k :: 0 <= k < i ==> rs[k].Success?
  {
    if rs != [] && rs[0].Success? && Collect(rs[1..]).Failure? {
      CollectFirstError(rs[1..]);
      var i :| && 0 <= i < |rs[1..]| && rs[1..][i] == Failure(Collect(rs[1..]).error)
               && forall k :: 0 <= k < i ==> rs[1..][k].Success?;
      assert rs[i + 1] == rs[1..][i];
      forall k | 0 <= k < i + 1
        ensures rs[k].Success?
      {
        if k > 0 {
          assert rs[k] == rs[1..][k - 1];
        }
      }
    }
  }

  /** Storing into a `string` field. */
  function StringInto(v: Value, current: string): (r: Step<string>)
    ensures r.Set? <==> v.JString? || v.JNull?
    ensures r.Set? ==> r.value == (if v.JString? then v.s else current)
    ensures !r.Abort?
  {
    match v
    case JString(s) => Set(s)
    case JNull => Set(current)
    case _ => Mismatch(TypeMismatch(TypeName(v), "string"))
  }

  /** Storing into an `int` field: the literal must be a base-10 64-bit integer. */
  function IntInto(v: Value, current: Int64): (r: Step<Int64>)
    ensures r.Set? <==> v.JNull? || (v.JNumber? && ParseInt64(v.lexeme).Some?)
    ensures r.Set? ==> r.value == (if v.JNull? then current else ParseInt64(v.lexeme).value)
    ensures !r.Abort?
  {
    match v
    case JNull => Set(current)
    case JNumber(lit) =>
      (match ParseInt64(lit)
       case Some(n) => Set(n)
       case None => Mismatch(TypeMismatch("number " + lit, "int")))
    case _ => Mismatch(TypeMismatch(TypeName(v), "int"))
  }

  /** What a `string` field keeps from a value: its text; any other value leaves the field. */
  function StringOf<C>(v: Value, context: C): Option<string> {
    if v.JString? then Some(v.s) else None
  }

  /** What an `int` field keeps from a value: the integer it spells; any other value leaves the field. */
  function IntOf<C>(v: Value, context: C): Option<Int64> {
    if v.JNumber? then ParseInt64(v.lexeme) else None
  }

  /** An array element that stores into a fresh `int` slot. */
  predicate IsIntItem(v: Value) {
    v.JNull? || (v.JNumber? && ParseInt64(v.lexeme).Some?)
  }

  function IntItemValue(v: Value): Int64
    requires IsIntItem(v)
  {
    if v.JNull? then 0 else ParseInt64(v.lexeme).value
  }

  /**
   * The elements of an array stored into a fresh `[]int`: each fresh slot
   * starts at 0, so a `null` element reads as 0; the first element of the
   * wrong kind is the error reported.
   */
  function IntItems(items: seq<Value>): (r: Result<seq<Int64>, DecodeError>)
    ensures r.Success? <==> forall i :: 0 <= i < |items| ==> IsIntItem(items[i])
    ensures r.Success? ==> |r.value| == |items|
    ensures r.Success? ==> forall i :: 0 <= i < |items| ==> r.value[i] == IntItemValue(items[i])
  {
    if items == [] then Success([])
    else
      match IntInto(items[0], 0)
      case Set(x) =>
        (match IntItems(items[1..])
         case Success(rest) => Success([x] + rest)
         case Failure(e) => Failure(e))
      case Mismatch(e) => Failure(e)
      case Abort(e) => Failure(e)
  }

  /** `json.Unmarshal` into a `[]int`: `null` gives the nil slice. */
  function Ints(v: Value): Result<seq<Int64>, DecodeError> {
    match v
    case JNull => Success([])
    case JArray(items) => IntItems(items)
    case _ => Failure(TypeMismatch(TypeName(v), "[]int"))
  }
}
