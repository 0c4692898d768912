/** The back end's request models and how their fields are validated from a
    JSON body: optional strings with a length limit, integers with a default
    and inclusive bounds, and a required string. Every failing field is
    reported, in declaration order. */
module Schemas {

  import opened Wrappers
  import opened JsonData

  /** The kinds of validation error the models can produce. */
  datatype ErrorKind =
    | Missing
    | StringType
    | StringTooShort
    | StringTooLong
    | IntType
    | GreaterThanEqual
    | LessThanEqual
    | ModelType

  /** One reported error: the field it concerns and its kind. */
  datatype FieldError = FieldError(loc: string, kind: ErrorKind)

  /** `Field(max_length=…, min_length=…)` on a string. */
  datatype StringLimit = StringLimit(minLength: nat, maxLength: nat)

  /** `Field(default=…, ge=…, le=…)` on an integer. */
  datatype IntBounds = IntBounds(default: int, ge: int, le: int)

  const PasswordLimit := StringLimit(0, 128)
  const PayloadLimit := StringLimit(0, 256)
  const LengthBounds := IntBounds(32, 8, 32)
  const MemoryCostBounds := IntBounds(65536, 8, 244141)
  const RoundsBounds := IntBounds(12, 8, 32)

  /** Every default lies within its own bounds, and both minimum lengths are 0. */
  lemma DefaultsWithinBounds()
    ensures LengthBounds.ge <= LengthBounds.default <= LengthBounds.le
    ensures MemoryCostBounds.ge <= MemoryCostBounds.default <= MemoryCostBounds.le
    ensures RoundsBounds.ge <= RoundsBounds.default <= RoundsBounds.le
    ensures PasswordLimit.minLength == 0 && PayloadLimit.minLength == 0
  {
  }

  // ---------------------------------------------------------------------------
  // Fields

  /** `str | None = Field(None, max_length=…, min_length=…)`: absent or `null`
      is `None`; a string is checked against its length limits. */
  function OptionalString(value: Option<Json>, limit: StringLimit, loc: string): (r: Result<Option<string>, FieldError>)
    ensures r.Success? <==>
              value.None? || value.value == JNull
              || (value.value.JString? && limit.minLength <= |value.value.s| <= limit.maxLength)
    ensures r.Success? && r.value.Some? ==> value == Some(JString(r.value.value))
    ensures value.None? || value == Some(JNull) ==> r == Success(None)
    ensures r.Failure? ==> r.error.loc == loc
  {
    match value
    case None => Success(None)
    case Some(JNull) => Success(None)
    case Some(JString(s)) =>
      if |s| > limit.maxLength then Failure(FieldError(loc, StringTooLong))
      else if |s| < limit.minLength then Failure(FieldError(loc, StringTooShort))
      else Success(Some(s))
    case Some(_) => Failure(FieldError(loc, StringType))
  }

  /** `str` with no default: the field must be present and a string. */
  function RequiredString(value: Option<Json>, loc: string): (r: Result<string, FieldError>)
    ensures r.Success? <==> value.Some? && value.value.JString?
    ensures r.Success? ==> value == Some(JString(r.value))
    ensures value.None? ==> r == Failure(FieldError(loc, Missing))
  {
    match value
    case None => Failure(FieldError(loc, Missing))
    case Some(JString(s)) => Success(s)
    case Some(_) => Failure(FieldError(loc, StringType))
  }

  /** `int = Field(default=…, ge=…, le=…)`: absent is the default; a number
      is checked against both inclusive bounds; anything else, `null`
      included, is not an integer. */
  function BoundedInt(value: Option<Json>, bounds: IntBounds, loc: string): (r: Result<int, FieldError>)
    ensures value.None? ==> r == Success(bounds.default)
    ensures value.Some? ==> (r.Success? <==> value.value.JNumber? && bounds.ge <= value.value.n <= bounds.le)
    ensures value.Some? && r.Success? ==> r.value == value.value.n
    ensures value == Some(JNull) ==> r == Failure(FieldError(loc, IntType))
    ensures r.Failure? ==> r.error.loc == loc
  {
    match value
    case None => Success(bounds.default)
    case Some(JNumber(n)) =>
      if n < bounds.ge then Failure(FieldError(loc, GreaterThanEqual))
      else if n > bounds.le then Failure(FieldError(loc, LessThanEqual))
      else Success(n)
    case Some(_) => Failure(FieldError(loc, IntType))
  }

  /** The error of a field result, as a list of at most one. */
  function ErrorOf<T>(r: Result<T, FieldError>): (e: seq<FieldError>)
    ensures e == [] <==> r.Success?
    ensures r.Failure? ==> e == [r.error]
  {
    if r.Failure? then [r.error] else []
  }

  // ---------------------------------------------------------------------------
  // Models

  datatype PasswordIn = PasswordIn(password: Option<string>)

  datatype PrivateKeyIn = PrivateKeyIn(password: Option<string>, privateKey: string)

  datatype BasePayload = BasePayload(payload: Option<string>)

  datatype Argon2HashParams = Argon2HashParams(payload: Option<string>, length: int, memoryCost: int)

  datatype BcryptHashParams = BcryptHashParams(payload: Option<string>, rounds: int)

  /** A body that is not a JSON object is refused as a whole. */
  const NotAnObject := [FieldError("body", ModelType)]

  /** `PasswordIn`: an optional `password` of at most 128 characters. */
  function ParsePasswordIn(body: Json): (r: Result<PasswordIn, seq<FieldError>>)
    ensures !body.JObject? ==> r == Failure(NotAnObject)
    ensures body.JObject? ==>
              var password := OptionalString(Member(body, "password"), PasswordLimit, "password");
              && (r.Success? <==> password.Success?)
              && (r.Success? ==> r.value == PasswordIn(password.value))
              && (r.Failure? ==> r.error == ErrorOf(password))
  {
    if !body.JObject? then Failure(NotAnObject)
    else
      var password := OptionalString(Member(body, "password"), PasswordLimit, "password");
      if password.Success? then Success(PasswordIn(password.value)) else Failure(ErrorOf(password))
  }

  /** `PrivateKeyIn` adds the required `private_key` to `PasswordIn`; both fields are reported. */
  function ParsePrivateKeyIn(body: Json): (r: Result<PrivateKeyIn, seq<FieldError>>)
    ensures !body.JObject? ==> r == Failure(NotAnObject)
    ensures body.JObject? ==>
              var password := OptionalString(Member(body, "password"), PasswordLimit, "password");
              var key := RequiredString(Member(body, "private_key"), "private_key");
              && (r.Success? <==> password.Success? && key.Success?)
              && (r.Success? ==> r.value == PrivateKeyIn(password.value, key.value))
              && (r.Failure? ==> r.error == ErrorOf(password) + ErrorOf(key))
    ensures body.JObject? && Member(body, "private_key").None? ==> r.Failure? && FieldError("private_key", Missing) in r.error
    ensures r.Success? ==> Member(body, "private_key") == Some(JString(r.value.privateKey))
    ensures r.Success? <==> ParsePasswordIn(body).Success? && RequiredString(Member(body, "private_key"), "private_key").Success?
  {
    if !body.JObject? then Failure(NotAnObject)
    else
      var password := OptionalString(Member(body, "password"), PasswordLimit, "password");
      var key := RequiredString(Member(body, "private_key"), "private_key");
      var errors := ErrorOf(password) + ErrorOf(key);
      if errors == [] then Success(PrivateKeyIn(password.value, key.value)) else Failure(errors)
  }

  /** `BasePayload`: an optional `payload` of at most 256 characters; absent or `null` is `None`. */
  function ParseBasePayload(body: Json): (r: Result<BasePayload, seq<FieldError>>)
    ensures !body.JObject? ==> r == Failure(NotAnObject)
    ensures body.JObject? ==>
              var payload := OptionalString(Member(body, "payload"), PayloadLimit, "payload");
              && (r.Success? <==> payload.Success?)
              && (r.Success? ==> r.value == BasePayload(payload.value))
              && (r.Failure? ==> r.error == ErrorOf(payload))
    ensures body.JObject? && Member(body, "payload") in {None, Some(JNull)} ==> r == Success(BasePayload(None))
  {
    if !body.JObject? then Failure(NotAnObject)
    else
      var payload := OptionalString(Member(body, "payload"), PayloadLimit, "payload");
      if payload.Success? then Success(BasePayload(payload.value)) else Failure(ErrorOf(payload))
  }

  /** `Argon2HashParams`: payload, then `length`, then `memory_cost`, each reported on its own. */
  function ParseArgon2HashParams(body: Json): (r: Result<Argon2HashParams, seq<FieldError>>)
    ensures !body.JObject? ==> r == Failure(NotAnObject)
    ensures body.JObject? ==>
              var payload := OptionalString(Member(body, "payload"), PayloadLimit, "payload");
              var length := BoundedInt(Member(body, "length"), LengthBounds, "length");
              var memoryCost := BoundedInt(Member(body, "memory_cost"), MemoryCostBounds, "memory_cost");
              && (r.Success? <==> payload.Success? && length.Success? && memoryCost.Success?)
              && (r.Success? ==> r.value == Argon2HashParams(payload.value, length.value, memoryCost.value))
              && (r.Failure? ==> r.error == ErrorOf(payload) + ErrorOf(length) + ErrorOf(memoryCost))
  {
    if !body.JObject? then Failure(NotAnObject)
    else
      var payload := OptionalString(Member(body, "payload"), PayloadLimit, "payload");
      var length := BoundedInt(Member(body, "length"), LengthBounds, "length");
      var memoryCost := BoundedInt(Member(body, "memory_cost"), MemoryCostBounds, "memory_cost");
      var errors := ErrorOf(payload) + ErrorOf(length) + ErrorOf(memoryCost);
      if errors == [] then Success(Argon2HashParams(payload.value, length.value, memoryCost.value))
      else Failure(errors)
  }

  /** `BcryptHashParams`: payload, then `rounds`. */
  function ParseBcryptHashParams(body: Json): (r: Result<BcryptHashParams, seq<FieldError>>)
    ensures !body.JObject? ==> r == Failure(NotAnObject)
    ensures body.JObject? ==>
              var payload := OptionalString(Member(body, "payload"), PayloadLimit, "payload");
              var rounds := BoundedInt(Member(body, "rounds"), RoundsBounds, "rounds");
              && (r.Success? <==> payload.Success? && rounds.Success?)
              && (r.Success? ==> r.value == BcryptHashParams(payload.value, rounds.value))
              && (r.Failure? ==> r.error == ErrorOf(payload) + ErrorOf(rounds))
  {
    if !body.JObject? then Failure(NotAnObject)
    else
      var payload := OptionalString(Member(body, "payload"), PayloadLimit, "payload");
      var rounds := BoundedInt(Member(body, "rounds"), RoundsBounds, "rounds");
      var errors := ErrorOf(payload) + ErrorOf(rounds);
      if errors == [] then Success(BcryptHashParams(payload.value, rounds.value)) else Failure(errors)
  }

  // ---------------------------------------------------------------------------
  // Properties

  /** An empty object takes every default: no payload, length 32, memory cost 65536, 12 rounds. */
  lemma EmptyBodyTakesDefaults()
    ensures ParseArgon2HashParams(JObject([])) == Success(Argon2HashParams(None, 32, 65536))
    ensures ParseBcryptHashParams(JObject([])) == Success(BcryptHashParams(None, 12))
    ensures ParsePasswordIn(JObject([])) == Success(PasswordIn(None))
  {
  }

  /** The rounds the route tests use: 4, 7 and 40 are refused, 12, 20 and 32 accepted. */
  lemma RoundsExamples()
    ensures forall n :: n in {4, 7, 40} ==>
              ParseBcryptHashParams(JObject([("payload", JString("sometext")), ("rounds", JNumber(n))])).Failure?
    ensures forall n :: n in {12, 20, 32} ==>
              ParseBcryptHashParams(JObject([("payload", JString("sometext")), ("rounds", JNumber(n))]))
                == Success(BcryptHashParams(Some("sometext"), n))
  {
    forall n | n in {4, 7, 40}
      ensures ParseBcryptHashParams(JObject([("payload", JString("sometext")), ("rounds", JNumber(n))])).Failure?
    {
      RoundsField(JObject([("payload", JString("sometext")), ("rounds", JNumber(n))]), n);
    }
    forall n | n in {12, 20, 32}
      ensures ParseBcryptHashParams(JObject([("payload", JString("sometext")), ("rounds", JNumber(n))]))
                == Success(BcryptHashParams(Some("sometext"), n))
    {
      RoundsField(JObject([("payload", JString("sometext")), ("rounds", JNumber(n))]), n);
    }
  }

  lemma RoundsField(body: Json, n: int)
    requires body == JObject([("payload", JString("sometext")), ("rounds", JNumber(n))])
    ensures Member(body, "rounds") == Some(JNumber(n))
    ensures Member(body, "payload") == Some(JString("sometext"))
  {
    var members := body.members;
    assert "rounds" != "payload" by { assert "rounds"[0] != "payload"[0]; }
    assert members[..1] == [("payload", JString("sometext"))];
    assert LastMember(members, "payload") == LastMember(members[..1], "payload");
  }

  /** A password of 128 characters is accepted and one of 129 refused as too long. */
  lemma PasswordLimitBoundary(p: string)
    requires |p| == 128
    ensures ParsePasswordIn(JObject([("password", JString(p))])) == Success(PasswordIn(Some(p)))
    ensures ParsePasswordIn(JObject([("password", JString(p + "x"))])) ==
              Failure([FieldError("password", StringTooLong)])
  {
  }

  /** `null` is accepted for an optional string but refused for an integer field. */
  lemma NullHandling()
    ensures ParsePasswordIn(JObject([("password", JNull)])) == Success(PasswordIn(None))
    ensures ParseBcryptHashParams(JObject([("rounds", JNull)])) == Failure([FieldError("rounds", IntType)])
  {
    var body := JObject([("rounds", JNull)]);
    assert "rounds" != "payload" by { assert "rounds"[0] != "payload"[0]; }
    assert body.members[..0] == [];
    assert LastMember(body.members, "payload") == LastMember([], "payload");
    var rounds := BoundedInt(Member(body, "rounds"), RoundsBounds, "rounds");
    assert rounds == Failure(FieldError("rounds", IntType));
    var payload := OptionalString(Member(body, "payload"), PayloadLimit, "payload");
    assert payload == Success(None);
    assert ErrorOf(payload) + ErrorOf(rounds) == [FieldError("rounds", IntType)];
  }
}
