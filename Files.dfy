/** The file checksum route: the algorithm parameter restricted to
    `HashLibEnum`, the 512 MiB size guard, and the response record. */
module Files {

  import opened Wrappers
  import opened Bytes
  import opened HashEngine

  /** `MiB_512`. */
  const MiB512: nat := 512 * 1024 * 1024

  /** An uploaded file: its name, its declared size and its contents as the chunks it is read in. */
  datatype UploadedFile = UploadedFile(filename: string, size: nat, chunks: seq<seq<byte>>)

  /** `FileHashedResponse`. */
  datatype FileHashedResponse = FileHashedResponse(filename: string, algorithm: string, hash: string, size: nat)

  /** Why the route refuses: a query value outside the enumeration (a validation
      error, status 422) or the `HTTPException` of the size guard. */
  datatype Refusal = InvalidAlgorithm(value: string) | HttpError(statusCode: nat, detail: string)

  const TooLargeDetail := "File is too large. Exceeds 512 MiB"

  /** `upload_file(algorithm, file)`, the algorithm already an enumeration member. */
  function UploadFile(algorithm: HashLibEnum, file: UploadedFile, digest: Digest): (r: Result<FileHashedResponse, Refusal>)
    ensures r.Failure? <==> file.size > MiB512
    ensures r.Failure? ==> r.error == HttpError(413, TooLargeDetail)
    ensures r.Success? ==>
              && r.value.filename == file.filename && r.value.algorithm == Value(algorithm) && r.value.size == file.size
              && FromValue(r.value.algorithm) == Some(algorithm)
              && r.value.hash == FileDigest(HashLib(Algorithms[Value(algorithm)]), file.chunks, digest)
  {
    if file.size > MiB512 then Failure(HttpError(413, TooLargeDetail))
    else
      TableKeysAreEnumValues(Value(algorithm));
      EnumIsExactlyFour(Value(algorithm));
      var lib := NewHashLibIntended(Value(algorithm)).value;
      Success(FileHashedResponse(file.filename, Value(algorithm), FileDigest(lib, file.chunks, digest), file.size))
  }

  /** The route as a whole: the query value must name a member of `HashLibEnum`,
      and is checked before the handler runs. */
  function FileSum(query: string, file: UploadedFile, digest: Digest): (r: Result<FileHashedResponse, Refusal>)
    ensures FromValue(query).None? ==> r == Failure(InvalidAlgorithm(query))
    ensures FromValue(query).Some? ==> r == UploadFile(FromValue(query).value, file, digest)
    ensures r.Success? ==> r.value.algorithm == query
  {
    match FromValue(query)
    case None => Failure(InvalidAlgorithm(query))
    case Some(algorithm) => UploadFile(algorithm, file, digest)
  }

  /** The limit is 536870912 bytes: a file of exactly 512 MiB is hashed, one byte more is refused with status 413. */
  lemma LimitIsInclusive(name: string, chunks: seq<seq<byte>>, digest: Digest)
    ensures MiB512 == 536870912
    ensures UploadFile(SHA256, UploadedFile(name, 536870912, chunks), digest).Success?
    ensures UploadFile(SHA256, UploadedFile(name, 536870913, chunks), digest) == Failure(HttpError(413, TooLargeDetail))
  {
  }

  /** `md4` and `sha1` never reach the handler. */
  lemma UnknownAlgorithmsRefused(file: UploadedFile, digest: Digest)
    ensures FileSum("md4", file, digest) == Failure(InvalidAlgorithm("md4"))
    ensures FileSum("sha1", file, digest) == Failure(InvalidAlgorithm("sha1"))
  {
    EnumIsExactlyFour("md4");
    EnumIsExactlyFour("sha1");
  }
}
