/** The key-generation page: one `KeyState` record per key type, the
    password validation effect, the transitions of `generateKeys` and the
    choice of the record that is displayed. */
module KeyGeneration {

  import opened Wrappers
  import opened Text
  import opened ApiConfig
  import opened JsonData
  import opened ApiService
  import opened KeyGenerationForm

  /** `KeyState`: the last key of one kind, whether one is being generated, and the last error. */
  datatype KeyState = KeyState(privateKey: string, isLoading: bool, error: Option<string>)

  const InitialKeyState := KeyState("", false, None)

  /** A record never shows a request in flight together with an error. */
  predicate Coherent(k: KeyState) {
    !(k.isLoading && k.error.Some?)
  }

  /** `{...state, isLoading: true, error: null}`: the key is kept. */
  function Started(k: KeyState): (r: KeyState)
    ensures r.isLoading && r.error.None? && r.privateKey == k.privateKey
    ensures Coherent(r)
  {
    k.(isLoading := true, error := None)
  }

  /** The record after a successful request: the new key, and neither loading nor error. */
  function Succeeded(privateKey: string): (r: KeyState)
    ensures r.privateKey == privateKey && !r.isLoading && r.error.None?
    ensures Coherent(r)
  {
    KeyState(privateKey, false, None)
  }

  /** `{...snapshot, isLoading: false, error: message}`: the key shown before the press is kept. */
  function Failed(snapshot: KeyState, message: string): (r: KeyState)
    ensures r.privateKey == snapshot.privateKey && !r.isLoading && r.error == Some(message)
    ensures Coherent(r)
  {
    snapshot.(isLoading := false, error := Some(message))
  }

  /** A settled request ends a record in one of two exclusive ways: a new key
      without an error, or the old key with the error. */
  lemma SettledRecord(snapshot: KeyState, outcome: Settled<string>)
    ensures var r := if outcome.Fulfilled? then Succeeded(outcome.value) else Failed(snapshot, outcome.message);
            !r.isLoading
            && (r.error.None? <==> outcome.Fulfilled?)
            && (outcome.Rejected? ==> r.privateKey == snapshot.privateKey)
  {
  }

  /** `password || undefined`: an empty password is passed as absent. */
  function PasswordArgument(password: string): (p: Option<string>)
    ensures p.None? <==> password == ""
    ensures p.Some? ==> p.value == password
  {
    if password == "" then None else Some(password)
  }

  /** The request the page makes: either way no empty password reaches the service. */
  datatype KeyRequest =
    | RsaRequest(keySize: RsaKeySizeType, password: Option<string>)
    | Ed25519Request(password: Option<string>)
  {
    function Kind(): KeyType {
      if RsaRequest? then Rsa else Ed25519
    }
  }

  /** The request `generateKeys` sends for a kind, a selected RSA size and a password. */
  function RequestFor(keyType: KeyType, keySize: RsaKeySizeType, password: string): (r: KeyRequest)
    ensures r.Kind() == keyType
    ensures r.password == PasswordArgument(password)
    ensures r.RsaRequest? ==> r.keySize == keySize
  {
    match keyType
    case Rsa => RsaRequest(keySize, PasswordArgument(password))
    case Ed25519 => Ed25519Request(PasswordArgument(password))
  }

  /** The HTTP request the service call makes; the body's `password` is `password || null`. */
  function HttpRequest(base: string, r: KeyRequest): (req: Request)
    ensures req.body.JsonBody? && Member(req.body.json, "password") == Some(PasswordOrNull(r.password))
  {
    match r
    case RsaRequest(keySize, password) => GenerateRsaKey(base, keySize, password)
    case Ed25519Request(password) => GenerateEd25519Key(base, password)
  }

  /** The password field reaches the service as `null` exactly when it is empty,
      and otherwise as the string typed, for both kinds of key. */
  lemma EmptyPasswordSentAsNull(base: string, keyType: KeyType, keySize: RsaKeySizeType, password: string)
    ensures var req := HttpRequest(base, RequestFor(keyType, keySize, password));
            && (Member(req.body.json, "password") == Some(JNull) <==> password == "")
            && (password != "" ==> Member(req.body.json, "password") == Some(JString(password)))
  {
  }

  /** What a press of the generate button does before the `await`: refused
      with the validation message, or started, keeping the closure's copy of
      the record being replaced. */
  datatype Generation = Refused(toast: string) | Requested(request: KeyRequest, snapshot: KeyState)

  /** The page's state. */
  class KeyGeneration {
    var keyType: KeyType
    var rsaKeySize: RsaKeySizeType
    var password: string
    var showPassword: bool
    var validationError: Option<string>
    var rsaKeyState: KeyState
    var ed25519KeyState: KeyState

    constructor ()
      ensures keyType == Rsa && rsaKeySize == Rsa2048 && password == "" && !showPassword
      ensures validationError == None
      ensures rsaKeyState == InitialKeyState && ed25519KeyState == InitialKeyState
    {
      keyType := Rsa;
      rsaKeySize := Rsa2048;
      password := "";
      showPassword := false;
      validationError := None;
      rsaKeyState := InitialKeyState;
      ed25519KeyState := InitialKeyState;
    }

    /** Both records are coherent. */
    predicate Valid()
      reads this
    {
      Coherent(rsaKeyState) && Coherent(ed25519KeyState)
    }

    /** `currentKeyState`: the record of the selected kind. */
    function CurrentKeyState(): (k: KeyState)
      reads this
      ensures k == RecordOf(keyType)
    {
      if keyType == Rsa then rsaKeyState else ed25519KeyState
    }

    function RecordOf(kind: KeyType): KeyState
      reads this
    {
      match kind
      case Rsa => rsaKeyState
      case Ed25519 => ed25519KeyState
    }

    /** What the page hands down: the form's `isLoading`, the display's
        `privateKey` and the error panel's `error`, all of the current record. */
    function Displayed(): (d: (bool, string, Option<string>))
      reads this
      ensures d == (CurrentKeyState().isLoading, CurrentKeyState().privateKey, CurrentKeyState().error)
    {
      var k := CurrentKeyState();
      (k.isLoading, k.privateKey, k.error)
    }

    method HandleKeyTypeChange(value: KeyType)
      modifies this
      ensures keyType == value
      ensures rsaKeySize == old(rsaKeySize) && password == old(password) && showPassword == old(showPassword)
      ensures validationError == old(validationError)
      ensures rsaKeyState == old(rsaKeyState) && ed25519KeyState == old(ed25519KeyState)
    {
      keyType := value;
    }

    method HandleRsaKeySizeChange(value: RsaKeySizeType)
      modifies this
      ensures rsaKeySize == value
      ensures keyType == old(keyType) && password == old(password) && showPassword == old(showPassword)
      ensures validationError == old(validationError)
      ensures rsaKeyState == old(rsaKeyState) && ed25519KeyState == old(ed25519KeyState)
    {
      rsaKeySize := value;
    }

    /** A new password; `validationError` follows only once the effect has run. */
    method HandlePasswordChange(value: string)
      modifies this
      ensures password == value
      ensures keyType == old(keyType) && rsaKeySize == old(rsaKeySize) && showPassword == old(showPassword)
      ensures validationError == old(validationError)
      ensures rsaKeyState == old(rsaKeyState) && ed25519KeyState == old(ed25519KeyState)
    {
      password := value;
    }

    method HandleTogglePasswordVisibility()
      modifies this
      ensures showPassword == !old(showPassword)
      ensures keyType == old(keyType) && rsaKeySize == old(rsaKeySize) && password == old(password)
      ensures validationError == old(validationError)
      ensures rsaKeyState == old(rsaKeyState) && ed25519KeyState == old(ed25519KeyState)
    {
      showPassword := !showPassword;
    }

    /** The effect at lines 39-45. */
    method RunValidationEffect()
      modifies this
      ensures validationError == PasswordError(password)
      ensures keyType == old(keyType) && rsaKeySize == old(rsaKeySize) && password == old(password)
      ensures showPassword == old(showPassword)
      ensures rsaKeyState == old(rsaKeyState) && ed25519KeyState == old(ed25519KeyState)
    {
      validationError := PasswordError(password);
    }

    /** `generateKeys` up to its `await`. With a validation error nothing
        changes; otherwise only the selected kind's record is marked loading,
        and the request carries that kind, the selected size and the password. */
    method GenerateBegin() returns (g: Generation)
      requires Valid()
      modifies this
      ensures Valid()
      ensures old(validationError).Some? ==> g == Refused(old(validationError).value) && unchanged(this)
      ensures old(validationError).None? ==>
                && g == Requested(RequestFor(old(keyType), old(rsaKeySize), old(password)), old(RecordOf(keyType)))
                && RecordOf(old(keyType)) == Started(old(RecordOf(keyType)))
      ensures old(keyType) == Rsa ==> ed25519KeyState == old(ed25519KeyState)
      ensures old(keyType) == Ed25519 ==> rsaKeyState == old(rsaKeyState)
      ensures keyType == old(keyType) && rsaKeySize == old(rsaKeySize) && password == old(password)
      ensures showPassword == old(showPassword) && validationError == old(validationError)
    {
      if validationError.Some? {
        return Refused(validationError.value);
      }
      var request := RequestFor(keyType, rsaKeySize, password);
      if keyType == Rsa {
        g := Requested(request, rsaKeyState);
        rsaKeyState := Started(rsaKeyState);
      } else {
        g := Requested(request, ed25519KeyState);
        ed25519KeyState := Started(ed25519KeyState);
      }
    }

    /** `generateKeys` after its `await`: the record of the kind that was
        requested, whatever kind is selected now, becomes the new key or the
        snapshot with the error; the other record is untouched. */
    method GenerateComplete(request: KeyRequest, snapshot: KeyState, outcome: Settled<string>)
      requires Valid()
      modifies this
      ensures Valid()
      ensures RecordOf(request.Kind()) ==
                if outcome.Fulfilled? then Succeeded(outcome.value) else Failed(snapshot, outcome.message)
      ensures request.Kind() == Rsa ==> ed25519KeyState == old(ed25519KeyState)
      ensures request.Kind() == Ed25519 ==> rsaKeyState == old(rsaKeyState)
      ensures keyType == old(keyType) && rsaKeySize == old(rsaKeySize) && password == old(password)
      ensures showPassword == old(showPassword) && validationError == old(validationError)
    {
      var next := if outcome.Fulfilled? then Succeeded(outcome.value) else Failed(snapshot, outcome.message);
      if request.RsaRequest? {
        rsaKeyState := next;
      } else {
        ed25519KeyState := next;
      }
    }
  }

  /** With the effect settled, an over-long password is refused and leaves
      both records as they were, and an acceptable one starts a request
      whose password is absent exactly when the field is empty. */
  method GenerateAfterEffect(page: KeyGeneration) returns (g: Generation)
    requires page.Valid()
    modifies page
    ensures page.Valid()
    ensures Utf16Length(old(page.password)) > 128 <==> g.Refused?
    ensures g.Refused? ==> g.toast == PasswordMessage()
    ensures g.Refused? ==> page.rsaKeyState == old(page.rsaKeyState) && page.ed25519KeyState == old(page.ed25519KeyState)
    ensures g.Requested? ==> (g.request.password.None? <==> old(page.password) == "")
  {
    page.RunValidationEffect();
    g := page.GenerateBegin();
  }
}
