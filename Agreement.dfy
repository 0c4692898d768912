/** How the two halves fit together: the front end's constant table against
    the back end's field constraints, requests the front end lets through
    against the back end's validation, and the algorithm and key-size sets
    of both sides. */
module Agreement {

  import opened Wrappers
  import opened Text
  import opened JsonData
  import ApiConfig
  import ApiService
  import Schemas
  import HashEngine
  import KeysEngine
  import Files
  import FileChecksum
  import Argon2HashTab
  import BcryptHashTab
  import KeyGeneration
  import KeyGenerationForm

  // ---------------------------------------------------------------------------
  // The two tables

  /** The front end's bounds, defaults and length limits are the back end's,
      and the page's file limit is the route's. */
  lemma TablesAgree()
    ensures ApiConfig.Argon2Length.default == Schemas.LengthBounds.default
    ensures ApiConfig.Argon2Length.min == Schemas.LengthBounds.ge && ApiConfig.Argon2Length.max == Schemas.LengthBounds.le
    ensures ApiConfig.Argon2MemoryCost.default == Schemas.MemoryCostBounds.default
    ensures ApiConfig.Argon2MemoryCost.min == Schemas.MemoryCostBounds.ge
    ensures ApiConfig.Argon2MemoryCost.max == Schemas.MemoryCostBounds.le
    ensures ApiConfig.BcryptRounds.default == Schemas.RoundsBounds.default
    ensures ApiConfig.BcryptRounds.min == Schemas.RoundsBounds.ge && ApiConfig.BcryptRounds.max == Schemas.RoundsBounds.le
    ensures ApiConfig.Payload.minLength == Schemas.PayloadLimit.minLength
    ensures ApiConfig.Payload.maxLength == Schemas.PayloadLimit.maxLength
    ensures ApiConfig.KeyPassword.maxLength == Schemas.PasswordLimit.maxLength
    ensures ApiConfig.Payload.maxLength == 256 && ApiConfig.KeyPassword.maxLength == 128
    ensures FileChecksum.MaxFileSize == Files.MiB512
  {
  }

  /** The front end's algorithm names are exactly the back end's enumeration values. */
  lemma AlgorithmsAgree(s: string)
    ensures ApiConfig.AlgorithmFromName(s).Some? <==> HashEngine.FromValue(s).Some?
    ensures forall a :: HashEngine.FromValue(ApiConfig.AlgorithmName(a)).Some?
  {
    ApiConfig.AlgorithmUnion(s);
    HashEngine.EnumIsExactlyFour(s);
    forall a: ApiConfig.HashLibAlgorithm ensures HashEngine.FromValue(ApiConfig.AlgorithmName(a)).Some? {
      ApiConfig.AlgorithmUnion(ApiConfig.AlgorithmName(a));
      HashEngine.EnumIsExactlyFour(ApiConfig.AlgorithmName(a));
    }
  }

  /** A four-digit numeral's value. */
  lemma FourDigits(s: string)
    requires |s| == 4 && AllDigits(s)
    ensures ParseDecimal(s) ==
              1000 * DigitValue(s[0]) + 100 * DigitValue(s[1]) + 10 * DigitValue(s[2]) + DigitValue(s[3])
  {
    var s3, s2, s1 := s[..3], s[..2], s[..1];
    assert s3[..2] == s2 && s2[..1] == s1 && s1[..0] == [];
    assert ParseDecimal(s1) == DigitValue(s[0]);
    assert ParseDecimal(s2) == 10 * DigitValue(s[0]) + DigitValue(s[1]);
    assert ParseDecimal(s3) == 10 * ParseDecimal(s2) + DigitValue(s[2]);
  }

  /** Each key size the front end offers, read as the integer the query
      parameter becomes, is a member of `RSASizeEnum` of the same size. */
  lemma KeySizesAgree(k: ApiConfig.RsaKeySizeType)
    ensures AllDigits(ApiConfig.KeySizeName(k))
    ensures KeysEngine.SizeFromValue(ParseDecimal(ApiConfig.KeySizeName(k))).Some?
  {
    var s := ApiConfig.KeySizeName(k);
    assert |s| == 4 && AllDigits(s);
    FourDigits(s);
  }

  // ---------------------------------------------------------------------------
  // Hash parameters

  /** An Argon2 request the tab submits with numeric fields passes the
      service's validation with the same values. */
  lemma Argon2SubmissionAccepted(input: string, length: int, memoryCost: int)
    requires Argon2HashTab.Guard(input, Finite(length), Finite(memoryCost)).Submitted?
    ensures Schemas.ParseArgon2HashParams(ApiService.Argon2Json(ApiService.Argon2HashParams(input, Finite(length), Finite(memoryCost))))
              == Success(Schemas.Argon2HashParams(Some(input), length, memoryCost))
  {
    Argon2HashTab.SubmittedParamsInRange(input, Finite(length), Finite(memoryCost));
    assert "payload"[0] != "length"[0] && "payload"[0] != "memory_cost"[0] && "length"[0] != "memory_cost"[0];
    MembersOfThree("payload", JString(input), "length", JNumber(length), "memory_cost", JNumber(memoryCost));
  }

  /** A field left unparsable in the tab is `NaN`; the tab raises no error for
      it and submits, `JSON.stringify` sends it as `null`, and the service
      refuses `null` for an integer field. */
  lemma Argon2NaNRefused(input: string)
    requires 1 <= Utf16Length(input) <= 256
    ensures Argon2HashTab.Guard(input, NaN, Finite(65536)).Submitted?
    ensures Schemas.ParseArgon2HashParams(ApiService.Argon2Json(ApiService.Argon2HashParams(input, NaN, Finite(65536))))
              == Failure([Schemas.FieldError("length", Schemas.IntType)])
  {
    assert "payload"[0] != "length"[0] && "payload"[0] != "memory_cost"[0] && "length"[0] != "memory_cost"[0];
    var body := JObject([("payload", JString(input)), ("length", JNull), ("memory_cost", JNumber(65536))]);
    assert ApiService.Argon2Json(ApiService.Argon2HashParams(input, NaN, Finite(65536))) == body;
    MembersOfThree("payload", JString(input), "length", JNull, "memory_cost", JNumber(65536));
    var payload := Schemas.OptionalString(Member(body, "payload"), Schemas.PayloadLimit, "payload");
    var length := Schemas.BoundedInt(Member(body, "length"), Schemas.LengthBounds, "length");
    var memoryCost := Schemas.BoundedInt(Member(body, "memory_cost"), Schemas.MemoryCostBounds, "memory_cost");
    assert payload.Success? && memoryCost.Success?;
    assert length == Failure(Schemas.FieldError("length", Schemas.IntType));
    assert Schemas.ErrorOf(payload) + Schemas.ErrorOf(length) + Schemas.ErrorOf(memoryCost)
             == [Schemas.FieldError("length", Schemas.IntType)];
  }

  /** A bcrypt request the tab submits with numeric rounds passes the service's validation. */
  lemma BcryptSubmissionAccepted(input: string, rounds: int)
    requires BcryptHashTab.Guard(input, Finite(rounds)).Submitted?
    ensures Schemas.ParseBcryptHashParams(ApiService.BcryptJson(ApiService.BcryptHashParams(input, Finite(rounds))))
              == Success(Schemas.BcryptHashParams(Some(input), rounds))
  {
    assert "payload"[0] != "rounds"[0];
    MembersOfTwo("payload", JString(input), "rounds", JNumber(rounds));
  }

  /** Unparsable rounds pass the tab and are refused by the service. */
  lemma BcryptNaNRefused(input: string)
    requires 1 <= Utf16Length(input) <= 256
    ensures BcryptHashTab.Guard(input, NaN).Submitted?
    ensures Schemas.ParseBcryptHashParams(ApiService.BcryptJson(ApiService.BcryptHashParams(input, NaN)))
              == Failure([Schemas.FieldError("rounds", Schemas.IntType)])
  {
    assert "payload"[0] != "rounds"[0];
    var body := JObject([("payload", JString(input)), ("rounds", JNull)]);
    assert ApiService.BcryptJson(ApiService.BcryptHashParams(input, NaN)) == body;
    MembersOfTwo("payload", JString(input), "rounds", JNull);
    var payload := Schemas.OptionalString(Member(body, "payload"), Schemas.PayloadLimit, "payload");
    var rounds := Schemas.BoundedInt(Member(body, "rounds"), Schemas.RoundsBounds, "rounds");
    assert payload.Success?;
    assert rounds == Failure(Schemas.FieldError("rounds", Schemas.IntType));
    assert Schemas.ErrorOf(payload) + Schemas.ErrorOf(rounds) == [Schemas.FieldError("rounds", Schemas.IntType)];
  }

  // ---------------------------------------------------------------------------
  // Key passwords

  /** A key request whose password the page accepts passes the service's
      `PasswordIn`: an empty password arrives as `None` and gives an
      unencrypted key, any other arrives as typed and encrypts the key. */
  lemma PasswordReachesEngine(base: string, keyType: KeyGenerationForm.KeyType, keySize: ApiConfig.RsaKeySizeType, password: string)
    requires KeyGenerationForm.PasswordError(password).None?
    ensures var req := KeyGeneration.HttpRequest(base, KeyGeneration.RequestFor(keyType, keySize, password));
            var parsed := Schemas.ParsePasswordIn(req.body.json);
            && parsed.Success?
            && parsed.value.password == KeyGeneration.PasswordArgument(password)
            && (KeysEngine.EncryptionFor(parsed.value.password).NoEncryption? <==> password == "")
  {
  }

  /** Without the page's `password || undefined`, an empty password would
      still arrive as `null`: the service can never see an empty password
      from this front end, and so never builds an encryption from one. */
  lemma EmptyPasswordNeverSent(password: Option<string>)
    ensures ApiService.PasswordOrNull(password) != JString("")
    ensures Schemas.ParsePasswordIn(JObject([("password", ApiService.PasswordOrNull(password))])).Success? ==>
              Schemas.ParsePasswordIn(JObject([("password", ApiService.PasswordOrNull(password))])).value.password != Some("")
  {
  }

  // ---------------------------------------------------------------------------
  // The file limit

  /** The page and the route draw the line at the same size: a file the page
      accepts is never refused by the route for its size, and one the page
      refuses would be. */
  lemma FileLimitsAgree(size: nat, f: Files.UploadedFile, alg: HashEngine.HashLibEnum, digest: HashEngine.Digest)
    requires f.size == size
    ensures Files.UploadFile(alg, f, digest).Success? <==> size <= FileChecksum.MaxFileSize
  {
  }
}
