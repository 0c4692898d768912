/** The front end's configuration table: the endpoint URLs, the two string
    unions naming hash algorithms and RSA key sizes, and the `VALIDATION`
    constants that the hash tabs and the key form check against. */
module ApiConfig {

  import opened Wrappers

  // ---------------------------------------------------------------------------
  // Endpoints

  /** The keys of `API_ENDPOINTS`. */
  datatype Endpoint =
    | RandomToken | Argon2Hash | BcryptHash | HashLib
    | GenRsaPrivateKey | GenEd25519PrivateKey | GenPublicKey | FileSum

  /** The path segment after `/api/` for each endpoint. */
  function EndpointName(e: Endpoint): string {
    match e
    case RandomToken => "random-token"
    case Argon2Hash => "argon2-hash"
    case BcryptHash => "bcrypt-hash"
    case HashLib => "hashlib"
    case GenRsaPrivateKey => "genrsa-private-key"
    case GenEd25519PrivateKey => "gened25519-private-key"
    case GenPublicKey => "gen-public-key"
    case FileSum => "file-sum"
  }

  /** `${BASE_API_URL}/api/<name>`; the base URL comes from the build environment. */
  function EndpointUrl(base: string, e: Endpoint): string {
    base + "/api/" + EndpointName(e)
  }

  /** No endpoint name contains `?`, so a query string appended to a URL can be split off again. */
  lemma EndpointNamesHaveNoQuery(e: Endpoint)
    ensures '?' !in EndpointName(e) && EndpointName(e) != []
  {
  }

  /** Different endpoints have different names. */
  lemma EndpointNameInjective(e1: Endpoint, e2: Endpoint)
    requires EndpointName(e1) == EndpointName(e2)
    ensures e1 == e2
  {
    var n1, n2 := EndpointName(e1), EndpointName(e2);
    assert |n1| == |n2| && n1[0] == n2[0] && n1[|n1| - 1] == n2[|n2| - 1];
    if |n1| == 11 {
      assert n1[0] == n2[0] && n1[1] == n2[1];
    }
  }

  /** Every endpoint URL is the base URL followed by `/api/` and the endpoint
      name, and no two endpoints share a URL, whatever the base. */
  lemma EndpointUrlShape(base: string, e1: Endpoint, e2: Endpoint)
    ensures EndpointUrl(base, e1)[..|base| + 5] == base + "/api/"
    ensures EndpointUrl(base, e1)[|base| + 5..] == EndpointName(e1)
    ensures EndpointUrl(base, e1) == EndpointUrl(base, e2) ==> e1 == e2
  {
    if EndpointUrl(base, e1) == EndpointUrl(base, e2) {
      assert EndpointUrl(base, e1)[|base| + 5..] == EndpointUrl(base, e2)[|base| + 5..];
      EndpointNameInjective(e1, e2);
    }
  }

  // ---------------------------------------------------------------------------
  // String unions

  /** `HashLibAlgorithm`. */
  datatype HashLibAlgorithm = Sha256 | Sha384 | Sha512 | Md5

  function AlgorithmName(a: HashLibAlgorithm): string {
    match a
    case Sha256 => "sha256"
    case Sha384 => "sha384"
    case Sha512 => "sha512"
    case Md5 => "md5"
  }

  /** Which member of the union a string is, if any. */
  function AlgorithmFromName(s: string): (r: Option<HashLibAlgorithm>)
    ensures r.Some? ==> AlgorithmName(r.value) == s
  {
    if s == "sha256" then Some(Sha256)
    else if s == "sha384" then Some(Sha384)
    else if s == "sha512" then Some(Sha512)
    else if s == "md5" then Some(Md5)
    else None
  }

  /** The union is exactly the four names sha256, sha384, sha512 and md5. */
  lemma AlgorithmUnion(s: string)
    ensures AlgorithmFromName(s).Some? <==> s in {"sha256", "sha384", "sha512", "md5"}
    ensures forall a :: AlgorithmFromName(AlgorithmName(a)) == Some(a)
  {
  }

  /** `RsaKeySizeType`. */
  datatype RsaKeySizeType = Rsa1024 | Rsa2048 | Rsa4096 | Rsa8192

  function KeySizeName(k: RsaKeySizeType): string {
    match k
    case Rsa1024 => "1024"
    case Rsa2048 => "2048"
    case Rsa4096 => "4096"
    case Rsa8192 => "8192"
  }

  /** Which member of the union a string is, if any. */
  function KeySizeFromName(s: string): (r: Option<RsaKeySizeType>)
    ensures r.Some? ==> KeySizeName(r.value) == s
  {
    if s == "1024" then Some(Rsa1024)
    else if s == "2048" then Some(Rsa2048)
    else if s == "4096" then Some(Rsa4096)
    else if s == "8192" then Some(Rsa8192)
    else None
  }

  /** The union is exactly the four strings "1024", "2048", "4096" and "8192". */
  lemma KeySizeUnion(s: string)
    ensures KeySizeFromName(s).Some? <==> s in {"1024", "2048", "4096", "8192"}
    ensures forall k :: KeySizeFromName(KeySizeName(k)) == Some(k)
  {
  }

  // ---------------------------------------------------------------------------
  // VALIDATION

  /** A string-length limit: `{MAX_LENGTH, MIN_LENGTH}`. */
  datatype LengthLimit = LengthLimit(minLength: nat, maxLength: nat)

  /** A numeric setting: `{DEFAULT, MIN, MAX}`, both bounds inclusive. */
  datatype NumericSetting = NumericSetting(default: int, min: int, max: int)

  const Payload := LengthLimit(0, 256)
  const Argon2Length := NumericSetting(32, 8, 32)
  const Argon2MemoryCost := NumericSetting(65536, 8, 244141)
  const BcryptRounds := NumericSetting(12, 8, 32)
  const KeyPassword := LengthLimit(0, 128)

  predicate InSetting(s: NumericSetting, v: int) {
    s.min <= v <= s.max
  }

  /** Every numeric default lies within its own bounds. */
  lemma DefaultsWithinBounds()
    ensures InSetting(Argon2Length, Argon2Length.default)
    ensures InSetting(Argon2MemoryCost, Argon2MemoryCost.default)
    ensures InSetting(BcryptRounds, BcryptRounds.default)
  {
  }
}
