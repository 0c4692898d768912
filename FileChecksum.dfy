/** The file checksum page: the size guard and reset of `handleFileChange`,
    the state changes of `calculateChecksum`, and the normalisation by which
    `compareChecksums` compares a computed checksum with a pasted one. */
module FileChecksum {

  import opened Wrappers
  import opened Text
  import opened ApiConfig
  import opened ApiService

  // ---------------------------------------------------------------------------
  // Comparison

  /** `s.toLowerCase().replace(/\s+/g, '')`: a normalised text has no
      upper-case letter, no whitespace, and is no longer than the original. */
  function Normalize(s: string): (n: string)
    ensures NoUpper(n) && NoWhitespace(n)
    ensures |n| <= |s|
  {
    LowerStripCommute(s);
    StripWhitespace(ToLower(s))
  }

  /** `normalizedCalculated === normalizedComparison`: two texts match exactly
      when their lower-cased forms agree once whitespace is removed. */
  predicate ChecksumsMatch(calculated: string, comparison: string): (m: bool)
    ensures m <==> ToLower(StripWhitespace(calculated)) == ToLower(StripWhitespace(comparison))
  {
    LowerStripCommute(calculated);
    LowerStripCommute(comparison);
    Normalize(calculated) == Normalize(comparison)
  }

  /** `toLowerCase` distributes over concatenation. */
  lemma LowerAppend(a: string, b: string)
    ensures ToLower(a + b) == ToLower(a) + ToLower(b)
  {
    assert forall i :: 0 <= i < |a + b| ==> ToLower(a + b)[i] == (ToLower(a) + ToLower(b))[i];
  }

  /** Normalising twice is normalising once. */
  lemma NormalizeIdempotent(s: string)
    ensures Normalize(Normalize(s)) == Normalize(s)
  {
    var n := Normalize(s);
    LowerOfNoUpper(n);
    StripOfNoWhitespace(n);
  }

  /** Normalisation ignores case: a text and its lower-cased form normalise alike. */
  lemma NormalizeIgnoresCase(s: string)
    ensures Normalize(ToLower(s)) == Normalize(s)
  {
    LowerIdempotent(s);
  }

  /** Normalisation ignores whitespace: inserting whitespace anywhere changes nothing. */
  lemma NormalizeIgnoresWhitespace(a: string, w: string, b: string)
    requires AllWhitespace(w)
    ensures Normalize(a + w + b) == Normalize(a + b)
  {
    LowerAppend(a + w, b);
    LowerAppend(a, w);
    LowerAppend(a, b);
    StripAppend(ToLower(a) + ToLower(w), ToLower(b));
    StripAppend(ToLower(a), ToLower(w));
    StripAppend(ToLower(a), ToLower(b));
    assert AllWhitespace(ToLower(w));
    StripEmptyIffAllWhitespace(ToLower(w));
  }

  /** The comparison is an equivalence: reflexive, symmetric and transitive. */
  lemma MatchIsEquivalence(a: string, b: string, c: string)
    ensures ChecksumsMatch(a, a)
    ensures ChecksumsMatch(a, b) <==> ChecksumsMatch(b, a)
    ensures ChecksumsMatch(a, b) && ChecksumsMatch(b, c) ==> ChecksumsMatch(a, c)
  {
  }

  /** Changing the case of either side, or adding whitespace to either side,
      does not change the outcome of a comparison. */
  lemma MatchInsensitive(calculated: string, comparison: string, w: string, a: string, b: string)
    requires AllWhitespace(w) && comparison == a + b
    ensures ChecksumsMatch(calculated, comparison) <==> ChecksumsMatch(ToLower(calculated), comparison)
    ensures ChecksumsMatch(calculated, comparison) <==> ChecksumsMatch(calculated, ToLower(comparison))
    ensures ChecksumsMatch(calculated, comparison) <==> ChecksumsMatch(calculated, a + w + b)
  {
    NormalizeIgnoresCase(calculated);
    NormalizeIgnoresCase(comparison);
    NormalizeIgnoresWhitespace(a, w, b);
  }

  /** A pasted checksum in upper case with a space matches the lower-case digest. */
  lemma MatchExample()
    ensures ChecksumsMatch("ab12", "AB 12")
  {
    assert "AB 12" == "AB" + " " + "12";
    NormalizeIgnoresWhitespace("AB", " ", "12");
    assert "AB" + "12" == "AB12";
    assert ToLower("AB12") == "ab12";
    NormalizeIgnoresCase("AB12");
  }

  /** `!compareValue.trim()`: the verify button is disabled exactly when the pasted text is whitespace only. */
  predicate VerifyDisabled(compareValue: string): (d: bool)
    ensures d <==> AllWhitespace(compareValue)
  {
    TrimEmptyIffAllWhitespace(compareValue);
    Trim(compareValue) == []
  }

  /** Lines 74-76: after a successful calculation the comparison runs exactly
      when the comparison text is not whitespace only, and then records whether
      the two checksums match; otherwise the previous result stays. */
  function AutoComparison(hash: string, compareValue: string, previous: Option<bool>): (c: Option<bool>)
    ensures AllWhitespace(compareValue) ==> c == previous
    ensures !AllWhitespace(compareValue) ==> c == Some(ChecksumsMatch(hash, compareValue))
  {
    TrimEmptyIffAllWhitespace(compareValue);
    if Trim(compareValue) != [] then Some(ChecksumsMatch(hash, compareValue)) else previous
  }

  // ---------------------------------------------------------------------------
  // The page

  /** The size above which the page refuses a file: 512 MiB. */
  const MaxFileSize: nat := 536870912

  /** The file service's answer. */
  datatype FileChecksumResponse = FileChecksumResponse(filename: string, algorithm: string, hash: string, size: nat)

  /** `fileInfo`. */
  datatype FileInfo = FileInfo(filename: string, size: nat, algorithm: string)

  /** What `calculateChecksum`'s closure holds when the request goes out. */
  datatype ChecksumRequest = ChecksumRequest(file: BrowserFile, algorithm: HashLibAlgorithm, compareValue: string)

  class FileChecksum {
    var file: Option<BrowserFile>
    var algorithm: HashLibAlgorithm
    var checksum: string
    var isCalculating: bool
    var compareValue: string
    var comparisonResult: Option<bool>
    var fileInfo: Option<FileInfo>
    var error: Option<string>

    constructor ()
      ensures file.None? && algorithm == Sha256 && checksum == "" && !isCalculating
      ensures compareValue == "" && comparisonResult.None? && fileInfo.None? && error.None?
      ensures Valid()
    {
      file := None;
      algorithm := Sha256;
      checksum := "";
      isCalculating := false;
      compareValue := "";
      comparisonResult := None;
      fileInfo := None;
      error := None;
    }

    /** A checksum is only ever shown together with the file information it came with. */
    predicate Valid()
      reads this
    {
      checksum != "" ==> fileInfo.Some?
    }

    /** The results panel (lines 238-255): shown exactly when there is a
        checksum, captioned with the file information, which `Valid()`
        guarantees is there, so the `fileInfo?.` reads never find it missing. */
    function ResultsPanel(): (panel: Option<(string, FileInfo)>)
      reads this
      requires Valid()
      ensures panel.Some? <==> checksum != ""
      ensures panel.Some? ==> panel.value.0 == checksum && fileInfo == Some(panel.value.1)
    {
      if checksum != "" then Some((checksum, fileInfo.value)) else None
    }

    /** `handleFileChange`, given the first selected file if any. A file over
        the limit is refused and nothing changes; an accepted file replaces
        the old one and clears every result. */
    method HandleFileChange(selected: Option<BrowserFile>) returns (accepted: bool)
      requires Valid()
      modifies this
      ensures Valid()
      ensures accepted <==> selected.Some? && selected.value.size <= MaxFileSize
      ensures !accepted ==> unchanged(this)
      ensures accepted ==>
                && file == selected && checksum == "" && comparisonResult.None? && error.None? && fileInfo.None?
                && algorithm == old(algorithm) && isCalculating == old(isCalculating) && compareValue == old(compareValue)
    {
      if selected.None? || selected.value.size > MaxFileSize {
        return false;
      }
      file := selected;
      checksum := "";
      comparisonResult := None;
      error := None;
      fileInfo := None;
      accepted := true;
    }

    /** The algorithm selector's `onValueChange`. */
    method SetAlgorithm(value: HashLibAlgorithm)
      modifies this
      ensures algorithm == value
      ensures file == old(file) && checksum == old(checksum) && isCalculating == old(isCalculating)
      ensures compareValue == old(compareValue) && comparisonResult == old(comparisonResult)
      ensures fileInfo == old(fileInfo) && error == old(error)
    {
      algorithm := value;
    }

    /** The comparison field's `onChange`. */
    method SetCompareValue(value: string)
      modifies this
      ensures compareValue == value
      ensures file == old(file) && algorithm == old(algorithm) && checksum == old(checksum)
      ensures isCalculating == old(isCalculating) && comparisonResult == old(comparisonResult)
      ensures fileInfo == old(fileInfo) && error == old(error)
    {
      compareValue := value;
    }

    /** `disabled={!file || isCalculating}`: the calculate button is enabled
        exactly when a file is chosen and no calculation is in flight. */
    function CalculateDisabled(): (d: bool)
      reads this
      ensures !d <==> file.Some? && !isCalculating
    {
      file.None? || isCalculating
    }

    /** `calculateChecksum` up to its `await`. Without a file nothing happens;
        otherwise the results are cleared, `isCalculating` rises, and the
        request is made for the file and algorithm of this moment. */
    method CalculateBegin() returns (request: Option<ChecksumRequest>)
      requires Valid()
      modifies this
      ensures Valid()
      ensures old(file).None? ==> request.None? && unchanged(this)
      ensures !old(CalculateDisabled()) ==> request.Some?
      ensures old(file).Some? ==>
                && request == Some(ChecksumRequest(old(file).value, old(algorithm), old(compareValue)))
                && isCalculating && checksum == "" && comparisonResult.None? && error.None? && fileInfo.None?
      ensures file == old(file) && algorithm == old(algorithm) && compareValue == old(compareValue)
    {
      if file.None? {
        return None;
      }
      isCalculating := true;
      checksum := "";
      comparisonResult := None;
      error := None;
      fileInfo := None;
      request := Some(ChecksumRequest(file.value, algorithm, compareValue));
    }

    /** `calculateChecksum` after its `await`. Success stores the checksum and
        the file information and, when the comparison text of the moment of
        the press was not blank, compares against it; failure stores the
        message. The `finally` clears `isCalculating`. */
    method CalculateComplete(request: ChecksumRequest, outcome: Settled<FileChecksumResponse>)
      requires Valid()
      modifies this
      ensures Valid()
      ensures !isCalculating
      ensures outcome.Fulfilled? ==>
                && checksum == outcome.value.hash
                && fileInfo == Some(FileInfo(outcome.value.filename, outcome.value.size, outcome.value.algorithm))
                && error == old(error)
                && comparisonResult == AutoComparison(outcome.value.hash, request.compareValue, old(comparisonResult))
      ensures outcome.Rejected? ==> error == Some(outcome.message)
      ensures outcome.Rejected? ==> checksum == old(checksum) && fileInfo == old(fileInfo)
      ensures outcome.Rejected? ==> comparisonResult == old(comparisonResult)
      ensures file == old(file) && algorithm == old(algorithm) && compareValue == old(compareValue)
    {
      match outcome
      case Fulfilled(response) =>
        var compared := AutoComparison(response.hash, request.compareValue, comparisonResult);
        checksum, fileInfo, comparisonResult, isCalculating :=
          response.hash, Some(FileInfo(response.filename, response.size, response.algorithm)), compared, false;
      case Rejected(message) =>
        error, isCalculating := Some(message), false;
    }

    /** The verify button: `compareChecksums(checksum)` with the current comparison text. */
    method Verify()
      modifies this
      ensures comparisonResult == Some(ChecksumsMatch(checksum, compareValue))
      ensures file == old(file) && algorithm == old(algorithm) && checksum == old(checksum)
      ensures isCalculating == old(isCalculating) && compareValue == old(compareValue)
      ensures fileInfo == old(fileInfo) && error == old(error)
    {
      comparisonResult := Some(ChecksumsMatch(checksum, compareValue));
    }
  }
}
