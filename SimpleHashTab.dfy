/** The SHA/MD5 tab: one validation message, the guards of
    `generateSimpleHash`, the algorithm lower-casing and the `isProcessing`
    flag around the request. */
module SimpleHashTab {

  import opened Wrappers
  import opened Text
  import opened ApiConfig
  import opened ApiService
  import opened HashTabs

  /** `validationError`: the payload check alone. */
  function ValidationError(input: string): (e: Option<string>)
    ensures e.Some? <==> Utf16Length(input) > 256
    ensures e.Some? ==> e.value == PayloadMessage(Utf16Length(input))
  {
    PayloadError(input)
  }

  /** The algorithm as sent: `algorithm.toLowerCase()`. */
  function SentAlgorithm(algorithm: HashLibAlgorithm): (s: string)
    ensures s == AlgorithmName(algorithm)
  {
    LowerOfNoUpper(AlgorithmName(algorithm));
    ToLower(AlgorithmName(algorithm))
  }

  /** The guards of `generateSimpleHash`: an empty input, then a validation
      error, each refuse with a toast; otherwise the request carries the
      input and the lower-cased algorithm name. */
  function Guard(input: string, algorithm: HashLibAlgorithm): (s: Submission<HashLibParams>)
    ensures s.Submitted? <==> input != "" && Utf16Length(input) <= 256
    ensures input == "" ==> s == Blocked(EmptyInputToast)
    ensures input != "" && Utf16Length(input) > 256 ==> s == Blocked(PayloadMessage(Utf16Length(input)))
    ensures s.Submitted? ==> s.params == HashLibParams(AlgorithmName(algorithm), input)
  {
    if input == [] then Blocked(EmptyInputToast)
    else if ValidationError(input).Some? then Blocked(ValidationError(input).value)
    else Submitted(HashLibParams(SentAlgorithm(algorithm), input))
  }

  /** `disabled={isProcessing || !input || !!validationError}`: the button is
      enabled exactly when nothing is in flight and the input is non-empty and
      at most 256 UTF-16 code units long. */
  predicate Disabled(isProcessing: bool, input: string): (d: bool)
    ensures !d <==> !isProcessing && input != "" && Utf16Length(input) <= 256
  {
    isProcessing || input == [] || ValidationError(input).Some?
  }

  /** The button is enabled exactly when nothing is in flight and a press would send a request. */
  lemma EnabledIffSubmits(isProcessing: bool, input: string, algorithm: HashLibAlgorithm)
    ensures !Disabled(isProcessing, input) <==> !isProcessing && Guard(input, algorithm).Submitted?
  {
  }

  /** Lower-casing the algorithm is the identity on the four names the selector offers. */
  lemma LowerCasingIsIdentity(algorithm: HashLibAlgorithm)
    ensures ToLower(AlgorithmName(algorithm)) == AlgorithmName(algorithm)
    ensures AlgorithmFromName(SentAlgorithm(algorithm)) == Some(algorithm)
  {
    LowerOfNoUpper(AlgorithmName(algorithm));
    AlgorithmUnion(AlgorithmName(algorithm));
  }

  /** The component's state: the `input` prop and the two `useState` fields. */
  class SimpleHashTab {
    var input: string
    var algorithm: HashLibAlgorithm
    var isProcessing: bool

    constructor (input: string)
      ensures this.input == input && algorithm == Sha256 && !isProcessing
    {
      this.input := input;
      algorithm := Sha256;
      isProcessing := false;
    }

    /** The parent re-renders the tab with a new `input` prop. */
    method ReceiveInput(value: string)
      modifies this
      ensures input == value && algorithm == old(algorithm) && isProcessing == old(isProcessing)
    {
      input := value;
    }

    /** The selector's `onValueChange`. */
    method SetAlgorithm(value: HashLibAlgorithm)
      modifies this
      ensures algorithm == value && input == old(input) && isProcessing == old(isProcessing)
    {
      algorithm := value;
    }

    /** `generateSimpleHash` up to its `await`: a refused press changes
        nothing; an accepted one raises `isProcessing`. */
    method GenerateBegin() returns (s: Submission<HashLibParams>)
      modifies this
      ensures s == Guard(old(input), old(algorithm))
      ensures isProcessing == (old(isProcessing) || s.Submitted?)
      ensures input == old(input) && algorithm == old(algorithm)
    {
      s := Guard(input, algorithm);
      if s.Submitted? {
        isProcessing := true;
      }
    }

    /** `generateSimpleHash` after its `await`: the `finally` clears `isProcessing`. */
    method GenerateComplete(outcome: Settled<HashResponse>) returns (forwarded: Option<string>, toast: Toast)
      modifies this
      ensures (forwarded, toast) == Settle(outcome, "Hash generated successfully")
      ensures !isProcessing
      ensures input == old(input) && algorithm == old(algorithm)
    {
      var settled := Settle(outcome, "Hash generated successfully");
      forwarded, toast := settled.0, settled.1;
      isProcessing := false;
    }
  }
}
