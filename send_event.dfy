/** The argument-shape rule of `sendEvent` (src/examples/15.ts): the first
    argument picks one variant of the closed `Event` union, and the rest
    parameter is `[type, payload]` when that variant declares a payload and
    `[type]` when it does not. The function's runtime body is empty, so the
    whole behaviour is which calls type-check. Each argument is modelled by
    its value, whose most precise static type is the one TypeScript infers
    for a literal argument. */
module SendEvent {
  import opened Js

  /** The `type` tags of the `Event` union. */
  datatype EventType = LogIn | SignOut

  function TypeName(t: EventType): string {
    match t
    case LogIn => "LOG_IN"
    case SignOut => "SIGN_OUT"
  }

  /** The field types the union's payloads declare: only `string`. */
  datatype PrimTy = StringTy

  /** An object type whose fields have primitive types, such as `{ userId: string }`. */
  type ObjectTy = map<string, PrimTy>

  /** One member of the `Event` union: its tag, and its `payload` type when it has one. */
  datatype Variant = Variant(tag: EventType, payload: Option<ObjectTy>)

  /** `Extract<Event, { type: t }>`: the union member tagged `t`. */
  function VariantOf(t: EventType): (v: Variant)
    ensures v.tag == t
  {
    match t
    case LogIn => Variant(LogIn, Some(map["userId" := StringTy]))
    case SignOut => Variant(SignOut, None)
  }

  /** The type of one parameter of the rest tuple. */
  datatype ParamTy = TagParam(tag: EventType) | PayloadParam(shape: ObjectTy)

  /** The conditional rest tuple for `Type = t`: `[type: t, payload: P]` when
      the variant extends `{ payload: infer P }`, otherwise `[type: t]`. */
  function Params(t: EventType): seq<ParamTy> {
    match VariantOf(t).payload
    case Some(p) => [TagParam(t), PayloadParam(p)]
    case None => [TagParam(t)]
  }

  predicate HasPrimTy(v: Value, ty: PrimTy) {
    match ty
    case StringTy => v.Str?
  }

  /** Structural assignability of an argument to a parameter: the tag must be
      the literal itself, a payload an object with every declared field
      present at its declared type (further fields are allowed). */
  predicate Conforms(v: Value, p: ParamTy) {
    match p
    case TagParam(t) => v == Str(TypeName(t))
    case PayloadParam(shape) =>
      v.Obj? && forall f :: f in shape ==> f in v.fields && HasPrimTy(v.fields[f], shape[f])
  }

  /** The call type-checks with the type argument `Type = t`. */
  predicate AcceptedAs(t: EventType, args: seq<Value>) {
    var ps := Params(t);
    |args| == |ps| && forall i :: 0 <= i < |args| ==> Conforms(args[i], ps[i])
  }

  /** The call type-checks with `Type` a single tag `t`: the literal type
      inferred from a literal first argument. */
  predicate Accepts(args: seq<Value>) {
    exists t: EventType :: AcceptedAs(t, args)
  }

  /** `sendEvent` itself: an accepted call evaluates its empty body and returns `undefined`. */
  function Send(args: seq<Value>): (r: Value)
    requires Accepts(args)
    ensures r == Undefined
  {
    Undefined
  }

  /** Why a call is rejected: the first argument is no variant's tag; a
      payload is given where none is declared, or is missing where one is
      (the arity); or the payload does not have the declared type. */
  datatype Rejection =
    | NotAnEventType
    | WrongArity(t: EventType, expected: nat, given: nat)
    | PayloadNotAnObject(t: EventType)
    | InvalidPayload(t: EventType, missing: set<string>, mistyped: set<string>)

  /** The variant whose tag the first argument is, if any. */
  function TagOf(v: Value): Option<EventType> {
    if v == Str(TypeName(LogIn)) then Some(LogIn)
    else if v == Str(TypeName(SignOut)) then Some(SignOut)
    else None
  }

  /** The declared fields a payload object does not have. */
  function MissingFields(shape: ObjectTy, fields: map<string, Value>): set<string> {
    set f | f in shape && f !in fields
  }

  /** The declared fields a payload object has at a type other than the declared one. */
  function MistypedFields(shape: ObjectTy, fields: map<string, Value>): set<string> {
    set f | f in shape && f in fields && !HasPrimTy(fields[f], shape[f])
  }

  /** Checks a payload against the declared object type: a payload that is
      not an object, or one whose declared fields are missing (a payload
      lacking `userId`) or have another type (a numeric `userId`). */
  function CheckPayload(t: EventType, shape: ObjectTy, v: Value): Option<Rejection> {
    if !v.Obj? then Some(PayloadNotAnObject(t))
    else
      var missing := MissingFields(shape, v.fields);
      var mistyped := MistypedFields(shape, v.fields);
      if missing == {} && mistyped == {} then None
      else Some(InvalidPayload(t, missing, mistyped))
  }

  /** A direct checker of a call, independent of the rest-tuple formulation.
      An empty call is reported as `NotAnEventType`, where TypeScript reports
      the arity of `[type: Type]`. */
  function Diagnose(args: seq<Value>): Option<Rejection> {
    if |args| == 0 || TagOf(args[0]).None? then Some(NotAnEventType)
    else
      var t := TagOf(args[0]).value;
      match VariantOf(t).payload
      case None =>
        if |args| == 1 then None else Some(WrongArity(t, 1, |args|))
      case Some(shape) =>
        if |args| != 2 then Some(WrongArity(t, 2, |args|))
        else CheckPayload(t, shape, args[1])
  }

  lemma CheckPayloadMeaning(t: EventType, shape: ObjectTy, v: Value)
    ensures CheckPayload(t, shape, v).None? <==> Conforms(v, PayloadParam(shape))
  {
    if v.Obj? && CheckPayload(t, shape, v).None? {
      forall f | f in shape ensures f in v.fields && HasPrimTy(v.fields[f], shape[f]) {
        assert f !in MissingFields(shape, v.fields);
        assert f !in MistypedFields(shape, v.fields);
      }
    }
  }

  /** The diagnostic checker rejects exactly the calls the rest tuple rejects. */
  lemma DiagnoseAgreesWithAccepts(args: seq<Value>)
    ensures Diagnose(args).None? <==> Accepts(args)
  {
    if Accepts(args) {
      var t :| AcceptedAs(t, args);
      assert Conforms(args[0], Params(t)[0]);
      assert TagOf(args[0]) == Some(t);
      match VariantOf(t).payload
      case None =>
      case Some(shape) =>
        assert Conforms(args[1], Params(t)[1]);
        CheckPayloadMeaning(t, shape, args[1]);
    }
    if Diagnose(args).None? {
      var t := TagOf(args[0]).value;
      match VariantOf(t).payload
      case None =>
        assert AcceptedAs(t, args);
      case Some(shape) =>
        CheckPayloadMeaning(t, shape, args[1]);
        assert AcceptedAs(t, args);
    }
  }

  /** The two call shapes the union admits, stated without the rest tuple:
      `SIGN_OUT` alone, or `LOG_IN` with an object whose `userId` is a string. */
  lemma AcceptsExactly(args: seq<Value>)
    ensures Accepts(args) <==>
      args == [Str("SIGN_OUT")] ||
      (|args| == 2 && args[0] == Str("LOG_IN") && args[1].Obj? &&
       "userId" in args[1].fields && args[1].fields["userId"].Str?)
  {
    DiagnoseAgreesWithAccepts(args);
    if |args| == 2 && args[0] == Str("LOG_IN") && args[1].Obj? {
      var shape := map["userId" := StringTy];
      if "userId" in args[1].fields && args[1].fields["userId"].Str? {
        assert MissingFields(shape, args[1].fields) == {};
        assert MistypedFields(shape, args[1].fields) == {};
      } else if "userId" in args[1].fields {
        assert "userId" in MistypedFields(shape, args[1].fields);
      } else {
        assert "userId" in MissingFields(shape, args[1].fields);
      }
    }
  }

  /** A call carries a second argument exactly when the chosen variant declares a payload. */
  lemma ArityFollowsPayload(args: seq<Value>)
    requires Accepts(args)
    ensures |args| >= 1 && TagOf(args[0]).Some?
    ensures |args| == 2 <==> VariantOf(TagOf(args[0]).value).payload.Some?
    ensures |args| == 1 <==> VariantOf(TagOf(args[0]).value).payload.None?
  {
  }

  /** `sendEvent('LOG_IN', { userId: '123' })` and every `LOG_IN` call whose
      payload object has a string `userId`. */
  lemma LogInWithStringUserIdAccepted(id: nat, fields: map<string, Value>)
    requires "userId" in fields && fields["userId"].Str?
    ensures Accepts([Str("LOG_IN"), Obj(id, fields)])
  {
    assert AcceptedAs(LogIn, [Str("LOG_IN"), Obj(id, fields)]);
  }

  /** `sendEvent('SIGN_OUT')` */
  lemma SignOutWithoutPayloadAccepted()
    ensures Accepts([Str("SIGN_OUT")])
  {
    assert AcceptedAs(SignOut, [Str("SIGN_OUT")]);
  }

  /** `SIGN_OUT` with any second argument, even `{}`, is rejected. */
  lemma SignOutWithPayloadRejected(payload: Value)
    ensures !Accepts([Str("SIGN_OUT"), payload])
    ensures Diagnose([Str("SIGN_OUT"), payload]) == Some(WrongArity(SignOut, 1, 2))
  {
    DiagnoseAgreesWithAccepts([Str("SIGN_OUT"), payload]);
  }

  /** `LOG_IN` whose `userId` is present but not a string (such as `123`) is rejected. */
  lemma LogInWithMistypedUserIdRejected(id: nat, fields: map<string, Value>)
    requires "userId" in fields && !fields["userId"].Str?
    ensures !Accepts([Str("LOG_IN"), Obj(id, fields)])
    ensures Diagnose([Str("LOG_IN"), Obj(id, fields)]) == Some(InvalidPayload(LogIn, {}, {"userId"}))
  {
    var args := [Str("LOG_IN"), Obj(id, fields)];
    var shape := map["userId" := StringTy];
    assert "userId" in MistypedFields(shape, fields);
    assert MistypedFields(shape, fields) == {"userId"};
    assert MissingFields(shape, fields) == {};
    DiagnoseAgreesWithAccepts(args);
  }

  /** `LOG_IN` with a payload object lacking `userId`, such as `{}`, is rejected. */
  lemma LogInWithoutUserIdRejected(id: nat, fields: map<string, Value>)
    requires "userId" !in fields
    ensures !Accepts([Str("LOG_IN"), Obj(id, fields)])
    ensures Diagnose([Str("LOG_IN"), Obj(id, fields)]) == Some(InvalidPayload(LogIn, {"userId"}, {}))
  {
    var args := [Str("LOG_IN"), Obj(id, fields)];
    var shape := map["userId" := StringTy];
    assert "userId" in MissingFields(shape, fields);
    assert MissingFields(shape, fields) == {"userId"};
    assert MistypedFields(shape, fields) == {};
    DiagnoseAgreesWithAccepts(args);
  }

  /** `sendEvent('LOG_IN')` is rejected: the payload is required. */
  lemma LogInWithoutPayloadRejected()
    ensures !Accepts([Str("LOG_IN")])
    ensures Diagnose([Str("LOG_IN")]) == Some(WrongArity(LogIn, 2, 1))
  {
    DiagnoseAgreesWithAccepts([Str("LOG_IN")]);
  }

  /** A first argument that is no variant's tag is never accepted. */
  lemma UnknownTypeRejected(args: seq<Value>)
    requires |args| == 0 || TagOf(args[0]).None?
    ensures !Accepts(args)
  {
  }
}
