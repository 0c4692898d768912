/** The key-generation form: the `passwordError` its effect keeps in step
    with the password, `isFormValid`, the length counter's flag, the RSA-only
    key-size selector and the generate button's disabled condition. */
module KeyGenerationForm {

  import opened Wrappers
  import opened Text
  import opened ApiConfig

  /** The `'rsa' | 'ed25519'` key type. */
  datatype KeyType = Rsa | Ed25519

  /** `Password must be at most ${maxPasswordLength} characters`. */
  function PasswordMessage(): string {
    "Password must be at most " + NatToString(KeyPassword.maxLength) + " characters"
  }

  /** What the effect at lines 41-48 stores: the message when `password.length`,
      in UTF-16 code units, exceeds 128, `null` otherwise. */
  function PasswordError(password: string): (e: Option<string>)
    ensures e.Some? <==> Utf16Length(password) > 128
    ensures e.Some? ==> e.value == PasswordMessage()
  {
    if Utf16Length(password) > KeyPassword.maxLength then Some(PasswordMessage()) else None
  }

  /** Without astral characters the limit is 128 characters; with astral
      characters only, 64. */
  lemma PasswordLimitInCharacters(password: string)
    ensures (forall i :: 0 <= i < |password| ==> !IsAstral(password[i])) ==>
              (PasswordError(password).Some? <==> |password| > 128)
    ensures (forall i :: 0 <= i < |password| ==> IsAstral(password[i])) ==>
              (PasswordError(password).Some? <==> |password| > 64)
  {
    if forall i :: 0 <= i < |password| ==> !IsAstral(password[i]) {
      Utf16LengthWithoutAstral(password);
    }
    if forall i :: 0 <= i < |password| ==> IsAstral(password[i]) {
      Utf16LengthOfAstral(password);
    }
  }

  /** The counter `n/128` (line 153) is drawn in the destructive colour
      exactly when the effect reports an error. */
  predicate CounterFlagged(password: string): (f: bool)
    ensures f <==> PasswordError(password).Some?
  {
    Utf16Length(password) > KeyPassword.maxLength
  }

  /** `keyType === 'rsa' && …` (line 107): the key-size selector is rendered
      for RSA keys and never for Ed25519 ones. */
  predicate ShowsKeySizeSelector(keyType: KeyType): (s: bool)
    ensures s <==> keyType.Rsa?
    ensures keyType == Ed25519 ==> !s
  {
    keyType == Rsa
  }

  /** The form: its props and its one state field. */
  class KeyGenerationForm {
    var keyType: KeyType
    var rsaKeySize: RsaKeySizeType
    var password: string
    var isLoading: bool
    var passwordError: Option<string>

    /** The first render: `passwordError` starts `null`, before the effect has run. */
    constructor (keyType: KeyType, rsaKeySize: RsaKeySizeType, password: string, isLoading: bool)
      ensures this.keyType == keyType && this.rsaKeySize == rsaKeySize
      ensures this.password == password && this.isLoading == isLoading
      ensures passwordError == None
    {
      this.keyType := keyType;
      this.rsaKeySize := rsaKeySize;
      this.password := password;
      this.isLoading := isLoading;
      passwordError := None;
    }

    /** The parent re-renders the form with new props; `passwordError` keeps its value until the effect runs. */
    method ReceiveProps(keyType: KeyType, rsaKeySize: RsaKeySizeType, password: string, isLoading: bool)
      modifies this
      ensures this.keyType == keyType && this.rsaKeySize == rsaKeySize
      ensures this.password == password && this.isLoading == isLoading
      ensures passwordError == old(passwordError)
    {
      this.keyType := keyType;
      this.rsaKeySize := rsaKeySize;
      this.password := password;
      this.isLoading := isLoading;
    }

    /** The effect at lines 41-48, run after a render in which the password changed. */
    method RunPasswordEffect()
      modifies this
      ensures passwordError == PasswordError(password)
      ensures keyType == old(keyType) && rsaKeySize == old(rsaKeySize)
      ensures password == old(password) && isLoading == old(isLoading)
    {
      if Utf16Length(password) > KeyPassword.maxLength {
        passwordError := Some(PasswordMessage());
      } else {
        passwordError := None;
      }
    }

    /** `isFormValid = !passwordError`. Once the effect has run, the form is
        valid exactly when the password has at most 128 UTF-16 code units. */
    function IsFormValid(): (v: bool)
      reads this
      ensures v <==> passwordError.None?
      ensures passwordError == PasswordError(password) ==> (v <==> Utf16Length(password) <= 128)
    {
      passwordError.None?
    }

    /** `disabled={isLoading || !isFormValid}`. Once the effect has run, the
        button is enabled exactly when the password has at most 128 UTF-16 code
        units and no key of the current kind is being generated. */
    function GenerateDisabled(): (d: bool)
      reads this
      ensures passwordError == PasswordError(password) ==> (!d <==> !isLoading && Utf16Length(password) <= 128)
    {
      isLoading || !IsFormValid()
    }
  }
}
