/** What the three hash tabs (simple, Argon2, bcrypt) have in common: the
    payload-length check, the numeric range check on a `parseInt` result,
    the outcome of a press of the generate button, and how a settled request
    ends. */
module HashTabs {

  import opened Wrappers
  import opened Text
  import opened ApiConfig

  /** The hash service's answer, `{hash}`. */
  datatype HashResponse = HashResponse(hash: string)

  /** A `toast.success` or `toast.error` notification and its text. */
  datatype Toast = ToastSuccess(text: string) | ToastError(text: string)

  /** What a press of the generate button does before the `await`: it is
      refused with an error toast, or the request is sent with these parameters. */
  datatype Submission<P> = Blocked(toast: string) | Submitted(params: P)

  const EmptyInputToast: string := "Please enter some text to hash"

  /** The payload message of every tab, with the limit and the current length rendered in decimal. */
  function PayloadMessage(length: nat): string {
    "Input text must be " + NatToString(Payload.maxLength) + " characters or less (currently "
      + NatToString(length) + ")"
  }

  /** The payload check: an error exactly when `input.length`, in UTF-16 code
      units, exceeds 256, and the message reports that length. */
  function PayloadError(input: string): (e: Option<string>)
    ensures e.Some? <==> Utf16Length(input) > 256
    ensures e.Some? ==> e.value == PayloadMessage(Utf16Length(input))
  {
    if Utf16Length(input) > Payload.maxLength then Some(PayloadMessage(Utf16Length(input))) else None
  }

  /** Without astral characters the limit is 256 characters; a text of astral
      characters only (emoji, say) is refused from 129 characters on, and the
      message reports twice its number of characters. */
  lemma PayloadLimitInCharacters(input: string)
    ensures (forall i :: 0 <= i < |input| ==> !IsAstral(input[i])) ==> (PayloadError(input).Some? <==> |input| > 256)
    ensures (forall i :: 0 <= i < |input| ==> IsAstral(input[i])) ==>
              (PayloadError(input).Some? <==> |input| > 128) &&
              (PayloadError(input).Some? ==> PayloadError(input).value == PayloadMessage(2 * |input|))
  {
    if forall i :: 0 <= i < |input| ==> !IsAstral(input[i]) {
      Utf16LengthWithoutAstral(input);
    }
    if forall i :: 0 <= i < |input| ==> IsAstral(input[i]) {
      Utf16LengthOfAstral(input);
    }
  }

  /** The message reports the length it was built from. */
  lemma PayloadMessageInjective(a: nat, b: nat)
    requires PayloadMessage(a) == PayloadMessage(b)
    ensures a == b
  {
    var prefix := "Input text must be " + NatToString(Payload.maxLength) + " characters or less (currently ";
    var ma, mb := PayloadMessage(a), PayloadMessage(b);
    assert ma == prefix + (NatToString(a) + ")");
    assert mb == prefix + (NatToString(b) + ")");
    assert ma[|prefix|..] == NatToString(a) + ")";
    assert mb[|prefix|..] == NatToString(b) + ")";
    assert NatToString(a) == (NatToString(a) + ")")[..|NatToString(a)|];
    assert NatToString(b) == (NatToString(b) + ")")[..|NatToString(b)|];
    assert |NatToString(a)| == |NatToString(b)|;
    NatToStringInjective(a, b);
  }

  /** `v < min || v > max` on a `parseInt` result: both bounds are inclusive,
      and `NaN` fails both comparisons, so it is never out of range. */
  predicate OutOfRange(v: JsNumber, s: NumericSetting) {
    match v
    case Finite(x) => x < s.min || x > s.max
    case NaN => false
  }

  lemma OutOfRangeMeaning(v: JsNumber, s: NumericSetting)
    ensures OutOfRange(v, s) <==> v.Finite? && !InSetting(s, v.value)
    ensures v.NaN? ==> !OutOfRange(v, s)
  {
  }

  /** `Failed to generate hash: ${error.message}`. */
  function FailureToast(message: string): (t: Toast)
    ensures t.ToastError? && |t.text| >= 25 && t.text[..25] == "Failed to generate hash: " && t.text[25..] == message
  {
    ToastError("Failed to generate hash: " + message)
  }

  /** The `try`/`catch`/`finally` after the `await`: a fulfilled request hands
      its hash to `onHashGenerated` and toasts `success`; a rejected one hands
      nothing on and toasts the failure with the rejection's message. */
  function Settle(outcome: Settled<HashResponse>, success: string): (r: (Option<string>, Toast))
    ensures r.0.Some? <==> outcome.Fulfilled?
    ensures outcome.Fulfilled? ==> r == (Some(outcome.value.hash), ToastSuccess(success))
    ensures outcome.Rejected? ==> r.1 == FailureToast(outcome.message)
  {
    match outcome
    case Fulfilled(response) => (Some(response.hash), ToastSuccess(success))
    case Rejected(message) => (None, FailureToast(message))
  }
}
