/** The bcrypt tab: the `validationErrors` list over the payload and the
    rounds, the inline alert that shows only the rounds message, the guards
    of `generateBcryptHash` and the `isProcessing` flag around the request. */
module BcryptHashTab {

  import opened Wrappers
  import opened Text
  import opened ApiConfig
  import opened ApiService
  import opened HashTabs

  function RoundsMessage(): string {
    "Rounds must be between " + NatToString(BcryptRounds.min) + " and " + NatToString(BcryptRounds.max)
  }

  /** `validationErrors`: the payload check, then the rounds check, each appending independently. */
  function ValidationErrors(input: string, rounds: JsNumber): (errors: seq<string>)
    ensures |errors| <= 2
    ensures PayloadMessage(Utf16Length(input)) in errors <==> Utf16Length(input) > 256
    ensures RoundsMessage() in errors <==> OutOfRange(rounds, BcryptRounds)
    ensures forall e :: e in errors ==> e == PayloadMessage(Utf16Length(input)) || e == RoundsMessage()
    ensures |errors| == 2 ==> errors == [PayloadMessage(Utf16Length(input)), RoundsMessage()]
    ensures errors == [] <==> Utf16Length(input) <= 256 && !OutOfRange(rounds, BcryptRounds)
  {
    assert PayloadMessage(Utf16Length(input))[0] != RoundsMessage()[0];
    OptionToSeq(PayloadError(input))
      + (if OutOfRange(rounds, BcryptRounds) then [RoundsMessage()] else [])
  }

  /** The position of the first message that contains `sub`, `|errors|` when none does. */
  function FirstIndexContaining(errors: seq<string>, sub: string): (k: nat)
    ensures k <= |errors|
    ensures k < |errors| ==> Contains(errors[k], sub)
    ensures forall j :: 0 <= j < k ==> !Contains(errors[j], sub)
  {
    if errors == [] || Contains(errors[0], sub) then 0
    else 1 + FirstIndexContaining(errors[1..], sub)
  }

  /** `errors.find(error => error.includes(sub))`: the first message containing `sub`. */
  function FirstContaining(errors: seq<string>, sub: string): (r: Option<string>)
    ensures r.None? <==> forall e :: e in errors ==> !Contains(e, sub)
    ensures r.Some? ==> exists k :: 0 <= k < |errors| && errors[k] == r.value && Contains(r.value, sub) &&
                                   forall j :: 0 <= j < k ==> !Contains(errors[j], sub)
  {
    var k := FirstIndexContaining(errors, sub);
    if k < |errors| then assert errors[k] in errors; Some(errors[k]) else None
  }

  /** The inline alert under the rounds field: shown when the list is
      non-empty and some message mentions "Rounds", with the first such message. */
  function RoundsAlert(errors: seq<string>): (alert: Option<string>)
    ensures alert.None? <==> forall e :: e in errors ==> !Contains(e, "Rounds")
    ensures alert.Some? ==> alert.value in errors && Contains(alert.value, "Rounds")
  {
    if |errors| > 0 && FirstContaining(errors, "Rounds").Some? then FirstContaining(errors, "Rounds") else None
  }

  /** The payload message never mentions "Rounds": it has no capital R at all. */
  lemma PayloadMessageLacksRounds(n: nat)
    ensures !Contains(PayloadMessage(n), "Rounds")
  {
    var digits, count := NatToString(Payload.maxLength), NatToString(n);
    var before, middle, after := "Input text must be ", " characters or less (currently ", ")";
    var m := PayloadMessage(n);
    assert m == before + digits + middle + count + after;
    assert 'R' !in before && 'R' !in middle && 'R' !in after;
    assert 'R' !in digits && 'R' !in count;
    if Contains(m, "Rounds") {
      ContainsHead(m, "Rounds");
    }
  }

  lemma RoundsMessageHasRounds()
    ensures Contains(RoundsMessage(), "Rounds")
  {
    assert StartsWith(RoundsMessage(), "Rounds");
  }

  /** The alert appears exactly when the rounds are out of range, and then shows the rounds message. */
  lemma AlertIffRoundsOutOfRange(input: string, rounds: JsNumber)
    ensures RoundsAlert(ValidationErrors(input, rounds)).Some? <==> OutOfRange(rounds, BcryptRounds)
    ensures OutOfRange(rounds, BcryptRounds) ==> RoundsAlert(ValidationErrors(input, rounds)) == Some(RoundsMessage())
  {
    PayloadMessageLacksRounds(Utf16Length(input));
    RoundsMessageHasRounds();
  }

  /** The first message is the payload one when the payload is too long, and the rounds one otherwise. */
  lemma FirstErrorIsFirstFailingCheck(input: string, rounds: JsNumber)
    requires ValidationErrors(input, rounds) != []
    ensures ValidationErrors(input, rounds)[0] == if Utf16Length(input) > 256 then PayloadMessage(Utf16Length(input)) else RoundsMessage()
  {
  }

  /** The bounds are inclusive: 8 and 32 are accepted, 7 and 33 are not, and an unreadable number is not reported. */
  lemma RoundsBoundaries(input: string)
    requires Utf16Length(input) <= 256
    ensures ValidationErrors(input, Finite(8)) == [] && ValidationErrors(input, Finite(32)) == []
    ensures ValidationErrors(input, Finite(7)) == [RoundsMessage()] && ValidationErrors(input, Finite(33)) == [RoundsMessage()]
    ensures ValidationErrors(input, NaN) == []
  {
  }

  /** The guards of `generateBcryptHash`: an empty input, then the first
      validation error, each refuse with a toast; otherwise payload and rounds are sent as they are. */
  function Guard(input: string, rounds: JsNumber): (s: Submission<BcryptHashParams>)
    ensures s.Submitted? <==> input != "" && ValidationErrors(input, rounds) == []
    ensures input == "" ==> s == Blocked(EmptyInputToast)
    ensures input != "" && ValidationErrors(input, rounds) != [] ==> s == Blocked(ValidationErrors(input, rounds)[0])
    ensures s.Submitted? ==> s.params == BcryptHashParams(input, rounds)
  {
    var errors := ValidationErrors(input, rounds);
    if input == [] then Blocked(EmptyInputToast)
    else if |errors| > 0 then Blocked(errors[0])
    else Submitted(BcryptHashParams(input, rounds))
  }

  /** `disabled={isProcessing || !input || validationErrors.length > 0}`: the
      button is enabled exactly when nothing is in flight, the input is non-empty
      and at most 256 UTF-16 code units long, and no number is out of range. */
  predicate Disabled(isProcessing: bool, input: string, rounds: JsNumber): (d: bool)
    ensures !d <==> !isProcessing && input != "" && Utf16Length(input) <= 256 && !OutOfRange(rounds, BcryptRounds)
  {
    isProcessing || input == [] || |ValidationErrors(input, rounds)| > 0
  }

  /** The button is enabled exactly when nothing is in flight and a press would send a request. */
  lemma EnabledIffSubmits(isProcessing: bool, input: string, rounds: JsNumber)
    ensures !Disabled(isProcessing, input, rounds) <==> !isProcessing && Guard(input, rounds).Submitted?
  {
  }

  /** The component's state: the `input` prop and the two `useState` fields. */
  class BcryptHashTab {
    var input: string
    var bcryptRounds: JsNumber
    var isProcessing: bool

    constructor (input: string)
      ensures this.input == input && bcryptRounds == Finite(12) && !isProcessing
    {
      this.input := input;
      bcryptRounds := Finite(BcryptRounds.default);
      isProcessing := false;
    }

    /** The parent re-renders the tab with a new `input` prop. */
    method ReceiveInput(value: string)
      modifies this
      ensures input == value && bcryptRounds == old(bcryptRounds) && isProcessing == old(isProcessing)
    {
      input := value;
    }

    /** The rounds field's `onChange`: `parseInt` of the field's text. */
    method SetBcryptRounds(text: string)
      modifies this
      ensures bcryptRounds == ParseInt(text) && input == old(input) && isProcessing == old(isProcessing)
    {
      bcryptRounds := ParseInt(text);
    }

    /** `generateBcryptHash` up to its `await`: a refused press changes
        nothing; an accepted one raises `isProcessing`. */
    method GenerateBegin() returns (s: Submission<BcryptHashParams>)
      modifies this
      ensures s == Guard(old(input), old(bcryptRounds))
      ensures isProcessing == (old(isProcessing) || s.Submitted?)
      ensures input == old(input) && bcryptRounds == old(bcryptRounds)
    {
      s := Guard(input, bcryptRounds);
      if s.Submitted? {
        isProcessing := true;
      }
    }

    /** `generateBcryptHash` after its `await`: the `finally` clears `isProcessing`. */
    method GenerateComplete(outcome: Settled<HashResponse>) returns (forwarded: Option<string>, toast: Toast)
      modifies this
      ensures (forwarded, toast) == Settle(outcome, "Bcrypt hash generated successfully")
      ensures !isProcessing
      ensures input == old(input) && bcryptRounds == old(bcryptRounds)
    {
      var settled := Settle(outcome, "Bcrypt hash generated successfully");
      forwarded, toast := settled.0, settled.1;
      isProcessing := false;
    }
  }
}
