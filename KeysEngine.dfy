/** The back end's key layer: the accepted RSA sizes, and the arguments the
    key generators hand to the cryptography library — the fixed public
    exponent, the encryption chosen from the password, and the PEM formats.
    Key generation and serialisation themselves stay abstract. */
module KeysEngine {

  import opened Wrappers
  import opened Bytes

  /** `RSASizeEnum`. */
  datatype RSASizeEnum = RSA1024 | RSA2048 | RSA4096 | RSA8192

  function SizeValue(e: RSASizeEnum): nat {
    match e
    case RSA1024 => 1024
    case RSA2048 => 2048
    case RSA4096 => 4096
    case RSA8192 => 8192
  }

  /** `RSASizeEnum(n)`: the member whose value is `n`, if any. */
  function SizeFromValue(n: int): (r: Option<RSASizeEnum>)
    ensures r.Some? ==> SizeValue(r.value) == n
  {
    if n == 1024 then Some(RSA1024)
    else if n == 2048 then Some(RSA2048)
    else if n == 4096 then Some(RSA4096)
    else if n == 8192 then Some(RSA8192)
    else None
  }

  /** Exactly the four sizes are accepted, each reads back to its own member,
      and 256, 512 and 12288 are refused. */
  lemma SizesAreExactlyFour(n: int)
    ensures SizeFromValue(n).Some? <==> n in {1024, 2048, 4096, 8192}
    ensures forall e :: SizeFromValue(SizeValue(e)) == Some(e)
    ensures SizeFromValue(256).None? && SizeFromValue(512).None? && SizeFromValue(12288).None?
  {
  }

  /** `public_exponent=65537`. */
  const PublicExponent := 65537

  /** The encryption of a serialised private key. */
  datatype Encryption = NoEncryption | BestAvailableEncryption(password: seq<byte>)

  /** The branch on `password is None`; a password is encrypted over its UTF-8 bytes. */
  function EncryptionFor(password: Option<string>): (e: Encryption)
    ensures e.NoEncryption? <==> password.None?
    ensures password.Some? ==> e.password == Utf8Encode(password.value)
  {
    if password.None? then NoEncryption else BestAvailableEncryption(Utf8Encode(password.value))
  }

  /** Distinct passwords give distinct encryptions; an empty password is not
      the same as none. */
  lemma EncryptionDistinguishesPasswords(p: Option<string>, q: Option<string>)
    ensures p != q && (p.None? || q.None?) ==> EncryptionFor(p) != EncryptionFor(q)
    ensures EncryptionFor(Some("")) == BestAvailableEncryption([])
  {
  }

  /** The key a generator asks for. */
  datatype KeySpec = RsaSpec(publicExponent: nat, keySize: nat) | Ed25519Spec

  datatype PemEncoding = PEM
  datatype PrivateFormat = PKCS8
  datatype PublicFormat = SubjectPublicKeyInfo

  /** The arguments of `private_key.private_bytes(...)`, with the key it is called on. */
  datatype PrivateBytesCall = PrivateBytesCall(key: KeySpec, encoding: PemEncoding, format: PrivateFormat, encryption: Encryption)

  /** The arguments of `public_key.public_bytes(...)`, with the private key whose public half is serialised. */
  datatype PublicBytesCall = PublicBytesCall(of: KeySpec, encoding: PemEncoding, format: PublicFormat)

  /** `gen_rsa_private_key_pem(password, key_size)`. */
  function GenRsaPrivateKeyPem(password: Option<string>, keySize: nat): (c: PrivateBytesCall)
    ensures c.key == RsaSpec(65537, keySize)
    ensures c.encryption == EncryptionFor(password)
  {
    PrivateBytesCall(RsaSpec(PublicExponent, keySize), PEM, PKCS8, EncryptionFor(password))
  }

  /** `gen_ed25519_private_key_pem(password)`. */
  function GenEd25519PrivateKeyPem(password: Option<string>): (c: PrivateBytesCall)
    ensures c.key == Ed25519Spec
    ensures c.encryption == EncryptionFor(password)
  {
    PrivateBytesCall(Ed25519Spec, PEM, PKCS8, EncryptionFor(password))
  }

  /** `gen_rsa_ed25519_public_key_pem(private_key)`. */
  function GenPublicKeyPem(privateKey: KeySpec): (c: PublicBytesCall)
    ensures c.of == privateKey
    ensures c.encoding == PEM && c.format == SubjectPublicKeyInfo
  {
    PublicBytesCall(privateKey, PEM, SubjectPublicKeyInfo)
  }

  /** Both generators serialise the same way: PEM, PKCS8 and the same
      encryption for the same password; they differ only in the key. */
  lemma GeneratorsAgreeOnSerialisation(password: Option<string>, keySize: nat)
    ensures GenRsaPrivateKeyPem(password, keySize).(key := Ed25519Spec) == GenEd25519PrivateKeyPem(password)
    ensures GenRsaPrivateKeyPem(password, keySize).encoding == PEM && GenRsaPrivateKeyPem(password, keySize).format == PKCS8
    ensures password.None? <==> GenEd25519PrivateKeyPem(password).encryption == NoEncryption
  {
  }
}
