/** The back end's hashing layer: the `HashLibEnum` of accepted names, the
    table `HashLib` looks its constructor up in, the chunk-by-chunk digest
    of an uploaded file, the random token length, and how `bcrypt_hash` and
    `argon2hash` replace a missing payload by a random token. The digests
    and key-derivation functions themselves are library calls: they appear
    as function parameters or as the argument records handed to them. */
module HashEngine {

  import opened Wrappers
  import opened Bytes

  // ---------------------------------------------------------------------------
  // Accepted names

  /** `HashLibEnum`. */
  datatype HashLibEnum = SHA512 | SHA256 | SHA384 | MD5

  /** The member's string value. */
  function Value(e: HashLibEnum): string {
    match e
    case SHA512 => "sha512"
    case SHA256 => "sha256"
    case SHA384 => "sha384"
    case MD5 => "md5"
  }

  /** `HashLibEnum(s)`: the member whose value is `s`, if any. */
  function FromValue(s: string): (r: Option<HashLibEnum>)
    ensures r.Some? ==> Value(r.value) == s
  {
    if s == "sha512" then Some(SHA512)
    else if s == "sha256" then Some(SHA256)
    else if s == "sha384" then Some(SHA384)
    else if s == "md5" then Some(MD5)
    else None
  }

  /** The enumeration accepts exactly its four values and reads each back to
      its own member; `md4` and `sha1` are refused. */
  lemma EnumIsExactlyFour(s: string)
    ensures FromValue(s).Some? <==> s in {"sha512", "sha256", "sha384", "md5"}
    ensures forall e :: FromValue(Value(e)) == Some(e)
    ensures FromValue("md4").None? && FromValue("sha1").None?
  {
  }

  /** The hashlib constructors the table refers to. */
  datatype Constructor = Sha256Ctor | Sha384Ctor | Sha512Ctor | Md5Ctor

  /** `HashLib.__algorithms`. */
  const Algorithms: map<string, Constructor> :=
    map["sha256" := Sha256Ctor, "sha384" := Sha384Ctor, "sha512" := Sha512Ctor, "md5" := Md5Ctor]

  /** The table's keys are exactly the enumeration's values, and distinct
      members reach distinct constructors. */
  lemma TableKeysAreEnumValues(s: string)
    ensures s in Algorithms <==> FromValue(s).Some?
    ensures forall e :: Value(e) in Algorithms
    ensures forall e1, e2 :: e1 != e2 ==> Algorithms[Value(e1)] != Algorithms[Value(e2)]
  {
  }

  // ---------------------------------------------------------------------------
  // The table lookup

  /** A `HashLib` instance: its `hasher` field. */
  datatype HashLib = HashLib(hasher: Constructor)

  /** The `ValueError` text: it interpolates `self.hasher`, which is `None` on this path. */
  const UnsupportedMessage := "Hash algorithm 'None' is not supported"

  /** `HashLib(algorithm)` as written: a known name selects its constructor;
      any other name fails, always with the same text. */
  function NewHashLib(algorithm: string): (r: Result<HashLib, string>)
    ensures r.Success? <==> algorithm in Algorithms
    ensures r.Success? ==> r.value.hasher == Algorithms[algorithm]
    ensures r.Failure? ==> r.error == UnsupportedMessage
  {
    if algorithm in Algorithms then Success(HashLib(Algorithms[algorithm])) else Failure(UnsupportedMessage)
  }

  /** The refusal does not name the algorithm that was asked for: `md4` and
      `sha1` are refused with one and the same text. */
  lemma UnsupportedNameIsLost()
    ensures NewHashLib("md4") == NewHashLib("sha1") == Failure("Hash algorithm 'None' is not supported")
  {
    TableKeysAreEnumValues("md4");
    TableKeysAreEnumValues("sha1");
  }

  /** The refusal text that names the algorithm, as the message is evidently meant to read. */
  function IntendedMessage(algorithm: string): string {
    "Hash algorithm '" + algorithm + "' is not supported"
  }

  /** `HashLib(algorithm)` with the refusal naming the algorithm. */
  function NewHashLibIntended(algorithm: string): (r: Result<HashLib, string>)
    ensures r.Success? <==> algorithm in Algorithms
    ensures r.Failure? ==> r.error == IntendedMessage(algorithm)
  {
    if algorithm in Algorithms then Success(HashLib(Algorithms[algorithm])) else Failure(IntendedMessage(algorithm))
  }

  /** The corrected lookup agrees with the original wherever it succeeds, and
      its refusal text determines the name that was refused. */
  lemma IntendedNamesTheAlgorithm(a: string, b: string)
    ensures NewHashLibIntended(a).Success? ==> NewHashLibIntended(a) == NewHashLib(a)
    ensures NewHashLibIntended(a).Failure? && NewHashLibIntended(b).Failure? && a != b ==>
              NewHashLibIntended(a).error != NewHashLibIntended(b).error
  {
    var p := "Hash algorithm '";
    var q := "' is not supported";
    if NewHashLibIntended(a).Failure? && NewHashLibIntended(b).Failure? && IntendedMessage(a) == IntendedMessage(b) {
      assert (p + a + q)[|p|..|p| + |a|] == a;
      assert (p + b + q)[|p|..|p| + |b|] == b;
      assert |a| == |b|;
    }
  }

  // ---------------------------------------------------------------------------
  // Digests

  /** A message digest as the library computes it, left abstract. */
  type Digest = (Constructor, seq<byte>) -> seq<byte>

  /** The bytes of a sequence of chunks, in order. */
  function Flatten(chunks: seq<seq<byte>>): seq<byte> {
    if chunks == [] then [] else Flatten(chunks[..|chunks| - 1]) + chunks[|chunks| - 1]
  }

  /** Flattening distributes over concatenation of chunk lists. */
  lemma {:induction false} FlattenAppend(a: seq<seq<byte>>, b: seq<seq<byte>>)
    ensures Flatten(a + b) == Flatten(a) + Flatten(b)
    decreases |b|
  {
    if b == [] {
      assert a + b == a;
    } else {
      var init, last := b[..|b| - 1], b[|b| - 1];
      var ab := a + b;
      assert ab[..|ab| - 1] == a + init && ab[|ab| - 1] == last;
      assert Flatten(ab) == Flatten(a + init) + last;
      FlattenAppend(a, init);
      assert Flatten(b) == Flatten(init) + last;
    }
  }

  /** The state of one hasher object: the constructor it came from and the bytes fed into it so far. */
  class HashObject {
    const algorithm: Constructor
    var fed: seq<byte>

    /** `self.hasher()`: a fresh object has been fed nothing. */
    constructor (algorithm: Constructor)
      ensures this.algorithm == algorithm && fed == []
    {
      this.algorithm := algorithm;
      fed := [];
    }

    /** `hasher.update(chunk)`. */
    method Update(chunk: seq<byte>)
      modifies this
      ensures fed == old(fed) + chunk
    {
      fed := fed + chunk;
    }

    /** `hasher.hexdigest()`: two lower-case hexadecimal characters per byte of
        the digest of everything fed so far. */
    function HexDigest(digest: Digest): (hex: string)
      reads this
      ensures |hex| == 2 * |digest(algorithm, fed)| && IsLowerHex(hex)
    {
      HexEncode(digest(algorithm, fed))
    }
  }

  /** What `hash_file` returns for a file read as `chunks`: the hexadecimal
      digest of all chunks, in order, under the selected constructor. */
  function FileDigest(lib: HashLib, chunks: seq<seq<byte>>, digest: Digest): string {
    HexEncode(digest(lib.hasher, Flatten(chunks)))
  }

  /** `hash_file`: one fresh hasher, fed every chunk in order. */
  method HashFile(lib: HashLib, chunks: seq<seq<byte>>, digest: Digest) returns (hex: string)
    ensures hex == FileDigest(lib, chunks, digest)
    ensures |hex| == 2 * |digest(lib.hasher, Flatten(chunks))| && IsLowerHex(hex)
  {
    var hasher := new HashObject(lib.hasher);
    var i := 0;
    while i < |chunks|
      invariant 0 <= i <= |chunks|
      invariant hasher.algorithm == lib.hasher
      invariant hasher.fed == Flatten(chunks[..i])
    {
      assert chunks[..i + 1][..i] == chunks[..i];
      hasher.Update(chunks[i]);
      i := i + 1;
    }
    assert chunks[..|chunks|] == chunks;
    hex := hasher.HexDigest(digest);
  }

  /** How the file is cut into chunks does not matter: splitting one chunk in
      two, anywhere, gives the same digest. */
  lemma ChunkingIsIrrelevant(lib: HashLib, before: seq<seq<byte>>, x: seq<byte>, y: seq<byte>,
                             after: seq<seq<byte>>, digest: Digest)
    ensures FileDigest(lib, before + [x + y] + after, digest) == FileDigest(lib, before + [x, y] + after, digest)
  {
    FlattenAppend(before + [x + y], after);
    FlattenAppend(before, [x + y]);
    FlattenAppend(before + [x, y], after);
    FlattenAppend(before, [x, y]);
    assert Flatten([x + y]) == x + y by {
      assert [x + y][..0] == [];
    }
    assert Flatten([x, y]) == x + y by {
      assert [x, y][..1] == [x];
      assert [x][..0] == [];
    }
  }

  /** `HashLib.hash`: the hexadecimal digest of the payload's UTF-8 bytes, two
      lower-case hexadecimal characters per digest byte. */
  function Hash(lib: HashLib, payload: string, digest: Digest): (hex: string)
    ensures |hex| == 2 * |digest(lib.hasher, Utf8Encode(payload))| && IsLowerHex(hex)
  {
    HexEncode(digest(lib.hasher, Utf8Encode(payload)))
  }

  /** Hashing a text is hashing a file whose chunks hold its UTF-8 bytes, however they are cut. */
  lemma HashIsFileDigestOfEncoding(lib: HashLib, payload: string, chunks: seq<seq<byte>>, digest: Digest)
    requires Flatten(chunks) == Utf8Encode(payload)
    ensures Hash(lib, payload, digest) == FileDigest(lib, chunks, digest)
  {
  }

  // ---------------------------------------------------------------------------
  // Random tokens

  /** `randint(32, 128)`, given the generator's raw draw. */
  function RandInteger(draw: nat): (n: nat)
    ensures 32 <= n <= 128
  {
    32 + draw % 97
  }

  /** Every length from 32 to 128 can be drawn. */
  lemma RandIntegerCoversRange(n: nat)
    requires 32 <= n <= 128
    ensures RandInteger(n - 32) == n
  {
  }

  /** `secrets.token_bytes(n)`, given the system's random bytes. */
  function TokenBytes(n: nat, entropy: nat -> byte): (b: seq<byte>)
    ensures |b| == n
    ensures forall i :: 0 <= i < n ==> b[i] == entropy(i)
  {
    seq(n, i requires 0 <= i => entropy(i))
  }

  /** `secrets.token_hex(n)`: the hexadecimal of `n` random bytes. */
  function TokenHex(n: nat, entropy: nat -> byte): (t: string)
    ensures |t| == 2 * n && IsLowerHex(t)
  {
    HexEncode(TokenBytes(n, entropy))
  }

  // ---------------------------------------------------------------------------
  // Payload substitution

  /** What reaches a password hasher: the text given, or the random bytes drawn in its place. */
  datatype Secret = TextSecret(text: string) | BytesSecret(bytes: seq<byte>)

  /** The arguments `bcrypt_hash` hands to the library: `BcryptHasher(rounds)`,
      then `hash(password, salt)`. */
  datatype BcryptCall = BcryptCall(rounds: int, password: Secret, salt: seq<byte>)

  /** The arguments `argon2hash` hands to the library: `Argon2Hasher(hash_len, memory_cost)`,
      then `hash(password, salt)`. */
  datatype Argon2Call = Argon2Call(hashLen: int, memoryCost: int, password: string, salt: seq<byte>)

  /** `bcrypt_hash(payload, rounds)`: a missing payload becomes
      `token_bytes(rand_integer())`; `salt` is `bcrypt.gensalt()`. */
  function BcryptHash(payload: Option<string>, rounds: int, draw: nat, entropy: nat -> byte, salt: seq<byte>): (c: BcryptCall)
    ensures c.rounds == rounds && c.salt == salt
    ensures payload.Some? ==> c.password == TextSecret(payload.value)
    ensures payload.None? ==> c.password.BytesSecret? && 32 <= |c.password.bytes| <= 128
  {
    var password := if payload.None? then BytesSecret(TokenBytes(RandInteger(draw), entropy)) else TextSecret(payload.value);
    BcryptCall(rounds, password, salt)
  }

  /** `argon2hash(payload, memory_cost, length)`: a missing payload becomes
      `token_hex(rand_integer())`; `salt` is `bcrypt.gensalt()`. */
  function Argon2Hash(payload: Option<string>, memoryCost: int, length: int, draw: nat, entropy: nat -> byte, salt: seq<byte>): (c: Argon2Call)
    ensures c.hashLen == length && c.memoryCost == memoryCost && c.salt == salt
    ensures payload.Some? ==> c.password == payload.value
    ensures payload.None? ==> IsLowerHex(c.password) && 64 <= |c.password| <= 256 && |c.password| % 2 == 0
  {
    var password := if payload.None? then TokenHex(RandInteger(draw), entropy) else payload.value;
    Argon2Call(length, memoryCost, password, salt)
  }

  /** A substituted secret depends only on the random draws, and a given payload only on itself. */
  lemma SubstitutionIgnoresRandomnessWhenGiven(p: string, rounds: int, memoryCost: int, length: int,
                                               d1: nat, d2: nat, e1: nat -> byte, e2: nat -> byte, salt: seq<byte>)
    ensures BcryptHash(Some(p), rounds, d1, e1, salt) == BcryptHash(Some(p), rounds, d2, e2, salt)
    ensures Argon2Hash(Some(p), memoryCost, length, d1, e1, salt) == Argon2Hash(Some(p), memoryCost, length, d2, e2, salt)
    ensures BcryptHash(None, rounds, d1, e1, salt).password == BytesSecret(TokenBytes(RandInteger(d1), e1))
    ensures Argon2Hash(None, memoryCost, length, d1, e1, salt).password == TokenHex(RandInteger(d1), e1)
  {
  }
}
