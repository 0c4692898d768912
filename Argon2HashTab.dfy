/** The Argon2 tab: the `validationErrors` list over the payload, the hash
    length and the memory cost, the guards of `generateArgon2Hash` and the
    `isProcessing` flag around the request. */
module Argon2HashTab {

  import opened Wrappers
  import opened Text
  import opened ApiConfig
  import opened ApiService
  import opened HashTabs

  function LengthMessage(): string {
    "Hash length must be between " + NatToString(Argon2Length.min) + " and " + NatToString(Argon2Length.max)
  }

  function MemoryCostMessage(): string {
    "Memory cost must be between " + NatToString(Argon2MemoryCost.min) + " and " + NatToString(Argon2MemoryCost.max)
  }

  /** The three messages differ, already in their first character. */
  lemma MessagesDistinct(n: nat)
    ensures PayloadMessage(n)[0] == 'I' && LengthMessage()[0] == 'H' && MemoryCostMessage()[0] == 'M'
  {
  }

  /** `validationErrors`: each check appends its message independently of the
      others, in the order payload, hash length, memory cost. */
  function ValidationErrors(input: string, length: JsNumber, memoryCost: JsNumber): (errors: seq<string>)
    ensures |errors| <= 3
    ensures PayloadMessage(Utf16Length(input)) in errors <==> Utf16Length(input) > 256
    ensures LengthMessage() in errors <==> OutOfRange(length, Argon2Length)
    ensures MemoryCostMessage() in errors <==> OutOfRange(memoryCost, Argon2MemoryCost)
    ensures forall e :: e in errors ==>
              e == PayloadMessage(Utf16Length(input)) || e == LengthMessage() || e == MemoryCostMessage()
    ensures errors == [] <==>
              Utf16Length(input) <= 256 && !OutOfRange(length, Argon2Length) && !OutOfRange(memoryCost, Argon2MemoryCost)
  {
    MessagesDistinct(Utf16Length(input));
    OptionToSeq(PayloadError(input))
      + (if OutOfRange(length, Argon2Length) then [LengthMessage()] else [])
      + (if OutOfRange(memoryCost, Argon2MemoryCost) then [MemoryCostMessage()] else [])
  }

  /** The first message is that of the first check, in source order, that fails. */
  lemma FirstErrorIsFirstFailingCheck(input: string, length: JsNumber, memoryCost: JsNumber)
    requires ValidationErrors(input, length, memoryCost) != []
    ensures var first := ValidationErrors(input, length, memoryCost)[0];
            if Utf16Length(input) > 256 then first == PayloadMessage(Utf16Length(input))
            else if OutOfRange(length, Argon2Length) then first == LengthMessage()
            else first == MemoryCostMessage()
  {
  }

  /** A message never appears twice, and the messages keep source order:
      payload before length before memory cost. */
  lemma ErrorsInSourceOrder(input: string, length: JsNumber, memoryCost: JsNumber, i: nat, j: nat)
    requires i < j < |ValidationErrors(input, length, memoryCost)|
    ensures var errors := ValidationErrors(input, length, memoryCost);
            errors[i] != errors[j]
            && errors[j] != PayloadMessage(Utf16Length(input))
            && errors[i] != MemoryCostMessage()
  {
    MessagesDistinct(Utf16Length(input));
  }

  /** A value `parseInt` could not read (`NaN`) causes no error, whatever the other fields hold. */
  lemma NaNIsNeverReported(input: string, memoryCost: JsNumber)
    ensures LengthMessage() !in ValidationErrors(input, NaN, memoryCost)
    ensures MemoryCostMessage() !in ValidationErrors(input, memoryCost, NaN)
  {
  }

  /** The default settings never cause an error; a 256-character payload is accepted. */
  lemma DefaultsAccepted(input: string)
    requires Utf16Length(input) <= 256
    ensures ValidationErrors(input, Finite(Argon2Length.default), Finite(Argon2MemoryCost.default)) == []
  {
  }

  /** The guards of `generateArgon2Hash`: an empty input, then the first
      validation error, each refuse with a toast; otherwise the three fields
      are sent as they are. */
  function Guard(input: string, length: JsNumber, memoryCost: JsNumber): (s: Submission<Argon2HashParams>)
    ensures s.Submitted? <==> input != "" && ValidationErrors(input, length, memoryCost) == []
    ensures input == "" ==> s == Blocked(EmptyInputToast)
    ensures input != "" && ValidationErrors(input, length, memoryCost) != [] ==>
              s == Blocked(ValidationErrors(input, length, memoryCost)[0])
    ensures s.Submitted? ==> s.params == Argon2HashParams(input, length, memoryCost)
  {
    var errors := ValidationErrors(input, length, memoryCost);
    if input == [] then Blocked(EmptyInputToast)
    else if |errors| > 0 then Blocked(errors[0])
    else Submitted(Argon2HashParams(input, length, memoryCost))
  }

  /** A request is only ever sent with both numbers in range or unreadable, and with
      a non-empty input of at most 256 UTF-16 code units. */
  lemma SubmittedParamsInRange(input: string, length: JsNumber, memoryCost: JsNumber)
    requires Guard(input, length, memoryCost).Submitted?
    ensures length.Finite? ==> InSetting(Argon2Length, length.value)
    ensures memoryCost.Finite? ==> InSetting(Argon2MemoryCost, memoryCost.value)
    ensures input != [] && Utf16Length(input) <= 256
  {
  }

  /** `disabled={isProcessing || !input || validationErrors.length > 0}`: the
      button is enabled exactly when nothing is in flight, the input is non-empty
      and at most 256 UTF-16 code units long, and no number is out of range. */
  predicate Disabled(isProcessing: bool, input: string, length: JsNumber, memoryCost: JsNumber): (d: bool)
    ensures !d <==> && !isProcessing && input != "" && Utf16Length(input) <= 256
                    && !OutOfRange(length, Argon2Length) && !OutOfRange(memoryCost, Argon2MemoryCost)
  {
    isProcessing || input == [] || |ValidationErrors(input, length, memoryCost)| > 0
  }

  /** The button is enabled exactly when nothing is in flight and a press would send a request. */
  lemma EnabledIffSubmits(isProcessing: bool, input: string, length: JsNumber, memoryCost: JsNumber)
    ensures !Disabled(isProcessing, input, length, memoryCost) <==>
              !isProcessing && Guard(input, length, memoryCost).Submitted?
  {
  }

  /** The component's state: the `input` prop and the three `useState` fields. */
  class Argon2HashTab {
    var input: string
    var argon2Length: JsNumber
    var argon2MemoryCost: JsNumber
    var isProcessing: bool

    constructor (input: string)
      ensures this.input == input && !isProcessing
      ensures argon2Length == Finite(32) && argon2MemoryCost == Finite(65536)
    {
      this.input := input;
      argon2Length := Finite(Argon2Length.default);
      argon2MemoryCost := Finite(Argon2MemoryCost.default);
      isProcessing := false;
    }

    /** The parent re-renders the tab with a new `input` prop. */
    method ReceiveInput(value: string)
      modifies this
      ensures input == value
      ensures argon2Length == old(argon2Length) && argon2MemoryCost == old(argon2MemoryCost)
      ensures isProcessing == old(isProcessing)
    {
      input := value;
    }

    /** The length field's `onChange`: `parseInt` of the field's text. */
    method SetArgon2Length(text: string)
      modifies this
      ensures argon2Length == ParseInt(text)
      ensures input == old(input) && argon2MemoryCost == old(argon2MemoryCost) && isProcessing == old(isProcessing)
    {
      argon2Length := ParseInt(text);
    }

    /** The memory-cost field's `onChange`: `parseInt` of the field's text. */
    method SetArgon2MemoryCost(text: string)
      modifies this
      ensures argon2MemoryCost == ParseInt(text)
      ensures input == old(input) && argon2Length == old(argon2Length) && isProcessing == old(isProcessing)
    {
      argon2MemoryCost := ParseInt(text);
    }

    /** `generateArgon2Hash` up to its `await`: a refused press changes
        nothing; an accepted one raises `isProcessing`. */
    method GenerateBegin() returns (s: Submission<Argon2HashParams>)
      modifies this
      ensures s == Guard(old(input), old(argon2Length), old(argon2MemoryCost))
      ensures isProcessing == (old(isProcessing) || s.Submitted?)
      ensures input == old(input) && argon2Length == old(argon2Length) && argon2MemoryCost == old(argon2MemoryCost)
    {
      s := Guard(input, argon2Length, argon2MemoryCost);
      if s.Submitted? {
        isProcessing := true;
      }
    }

    /** `generateArgon2Hash` after its `await`: the `finally` clears `isProcessing`. */
    method GenerateComplete(outcome: Settled<HashResponse>) returns (forwarded: Option<string>, toast: Toast)
      modifies this
      ensures (forwarded, toast) == Settle(outcome, "Argon2 hash generated successfully")
      ensures !isProcessing
      ensures input == old(input) && argon2Length == old(argon2Length) && argon2MemoryCost == old(argon2MemoryCost)
    {
      var settled := Settle(outcome, "Argon2 hash generated successfully");
      forwarded, toast := settled.0, settled.1;
      isProcessing := false;
    }
  }
}
