/** The key display: the public-key request of `handleGeneratePublicKey`
    and its four state fields, whether anything is rendered, and the rewrite
    of the two-character sequence backslash-n into a line feed for display. */
module KeyDisplay {

  import opened Wrappers
  import opened ApiService

  // ---------------------------------------------------------------------------
  // The newline rewrite

  /** `s` starts with a backslash followed by the letter n. */
  predicate StartsWithEscapedNewline(s: string) {
    |s| >= 2 && s[0] == '\\' && s[1] == 'n'
  }

  /** No backslash in `s` is followed by the letter n. */
  predicate NoEscapedNewline(s: string) {
    forall i :: 0 <= i < |s| - 1 ==> !(s[i] == '\\' && s[i + 1] == 'n')
  }

  /** `s.replace(/\\n/g, '\n')`: a left-to-right scan replacing each backslash-n pair with a line feed. */
  function UnescapeNewlines(s: string): (r: string)
    ensures |r| <= |s|
    ensures NoEscapedNewline(r)
    ensures s == [] <==> r == []
    ensures s != [] ==> r[0] == if StartsWithEscapedNewline(s) then '\n' else s[0]
    decreases |s|
  {
    if s == [] then []
    else if StartsWithEscapedNewline(s) then ['\n'] + UnescapeNewlines(s[2..])
    else
      var rest := UnescapeNewlines(s[1..]);
      assert s[0] == '\\' && rest != [] ==> rest[0] != 'n';
      [s[0]] + rest
  }

  /** Text without a backslash-n pair is displayed as it is. */
  lemma {:induction false} UnescapeWithoutPairs(s: string)
    requires NoEscapedNewline(s)
    ensures UnescapeNewlines(s) == s
    decreases |s|
  {
    if s != [] {
      assert !StartsWithEscapedNewline(s);
      assert NoEscapedNewline(s[1..]) by {
        forall i | 0 <= i < |s[1..]| - 1 ensures !(s[1..][i] == '\\' && s[1..][i + 1] == 'n') {
          assert s[1..][i] == s[i + 1] && s[1..][i + 1] == s[i + 2];
        }
      }
      UnescapeWithoutPairs(s[1..]);
    }
  }

  /** Rewriting twice is rewriting once. */
  lemma UnescapeIdempotent(s: string)
    ensures UnescapeNewlines(UnescapeNewlines(s)) == UnescapeNewlines(s)
  {
    UnescapeWithoutPairs(UnescapeNewlines(s));
  }

  /** A key as the service delivers it: `decode("utf-8")` of the PEM bytes,
      with real line feeds, which `response.json()` keeps as line feeds. PEM
      text holds no backslash, so the rewrite leaves a delivered key as it is. */
  lemma DeliveredKeyShownAsIs(pem: string)
    requires '\\' !in pem
    ensures UnescapeNewlines(pem) == pem
  {
    forall i | 0 <= i < |pem| - 1 ensures !(pem[i] == '\\' && pem[i + 1] == 'n') {
      assert pem[i] in pem;
    }
    UnescapeWithoutPairs(pem);
  }

  /** Only a text holding a literal backslash-n pair is changed: `A\\nB` is shown on two lines. */
  lemma UnescapeExample()
    ensures UnescapeNewlines("A\\nB") == "A\nB"
  {
    assert !StartsWithEscapedNewline("A\\nB");
    assert StartsWithEscapedNewline("\\nB");
    assert "A\\nB"[1..] == "\\nB" && "\\nB"[2..] == "B";
    assert UnescapeNewlines("B") == "B" by {
      assert "B"[1..] == [];
    }
  }

  // ---------------------------------------------------------------------------
  // The component

  /** The public-key service's answer, `{public_key}`. */
  datatype PublicKeyResponse = PublicKeyResponse(publicKey: string)

  /** The display's state: its props and the four fields the public-key request changes. */
  class KeyDisplay {
    var privateKey: string
    var password: Option<string>
    var publicKey: string
    var isGeneratingPublicKey: bool
    var showPublicKey: bool
    var publicKeyError: Option<string>

    constructor (privateKey: string, password: Option<string>)
      ensures this.privateKey == privateKey && this.password == password
      ensures publicKey == "" && !isGeneratingPublicKey && !showPublicKey && publicKeyError.None?
    {
      this.privateKey := privateKey;
      this.password := password;
      publicKey := "";
      isGeneratingPublicKey := false;
      showPublicKey := false;
      publicKeyError := None;
    }

    /** The page re-renders the display with a new key; the public-key fields keep their values. */
    method ReceiveProps(privateKey: string, password: Option<string>)
      modifies this
      ensures this.privateKey == privateKey && this.password == password
      ensures publicKey == old(publicKey) && isGeneratingPublicKey == old(isGeneratingPublicKey)
      ensures showPublicKey == old(showPublicKey) && publicKeyError == old(publicKeyError)
    {
      this.privateKey := privateKey;
      this.password := password;
    }

    /** `if (!privateKey) return null`: the display renders exactly when it holds a private key. */
    function Renders(): (b: bool)
      reads this
      ensures b <==> privateKey != ""
    {
      privateKey != ""
    }

    /** The private key as displayed (line 80): no longer than the key, with no
        backslash-n pair left, and a delivered PEM key shown as it is. */
    function PrivateKeyText(): (t: string)
      reads this
      ensures |t| <= |privateKey| && NoEscapedNewline(t)
      ensures '\\' !in privateKey ==> t == privateKey
    {
      if '\\' !in privateKey then DeliveredKeyShownAsIs(privateKey); UnescapeNewlines(privateKey)
      else UnescapeNewlines(privateKey)
    }

    /** The public key as displayed in its panel (line 119), with the same guarantees. */
    function PublicKeyText(): (t: string)
      reads this
      ensures |t| <= |publicKey| && NoEscapedNewline(t)
      ensures '\\' !in publicKey ==> t == publicKey
    {
      if '\\' !in publicKey then DeliveredKeyShownAsIs(publicKey); UnescapeNewlines(publicKey)
      else UnescapeNewlines(publicKey)
    }

    /** `showPublicKey && publicKey`: the public-key panel shows only once a
        non-empty public key has been received. */
    function PublicKeyPanelVisible(): (v: bool)
      reads this
      ensures v ==> showPublicKey && publicKey != ""
      ensures showPublicKey ==> (v <==> publicKey != "")
    {
      showPublicKey && publicKey != ""
    }

    /** `handleGeneratePublicKey` up to its `await`. Without a private key no
        request is made and nothing changes; otherwise the loading flag rises,
        the old error is cleared and the key with the password is sent. */
    method GeneratePublicKeyBegin() returns (request: Option<GeneratePublicKeyParams>)
      modifies this
      ensures old(privateKey) == "" ==> request.None? && unchanged(this)
      ensures request.Some? <==> old(Renders())
      ensures old(privateKey) != "" ==>
                && request == Some(GeneratePublicKeyParams(old(privateKey), old(password)))
                && isGeneratingPublicKey && publicKeyError.None?
                && publicKey == old(publicKey) && showPublicKey == old(showPublicKey)
      ensures privateKey == old(privateKey) && password == old(password)
    {
      if privateKey == "" {
        return None;
      }
      isGeneratingPublicKey := true;
      publicKeyError := None;
      request := Some(GeneratePublicKeyParams(privateKey, password));
    }

    /** `handleGeneratePublicKey` after its `await`: success stores the key and
        opens the panel, failure stores the message and keeps the old key; the
        `finally` clears the loading flag. */
    method GeneratePublicKeyComplete(outcome: Settled<PublicKeyResponse>)
      modifies this
      ensures !isGeneratingPublicKey
      ensures outcome.Fulfilled? ==>
                publicKey == outcome.value.publicKey && showPublicKey && publicKeyError == old(publicKeyError)
      ensures outcome.Rejected? ==>
                publicKeyError == Some(outcome.message) && publicKey == old(publicKey) && showPublicKey == old(showPublicKey)
      ensures outcome.Fulfilled? ==> (PublicKeyPanelVisible() <==> outcome.value.publicKey != "")
      ensures outcome.Rejected? ==> PublicKeyPanelVisible() == old(PublicKeyPanelVisible())
      ensures privateKey == old(privateKey) && password == old(password)
    {
      match outcome {
        case Fulfilled(response) =>
          publicKey := response.publicKey;
          showPublicKey := true;
        case Rejected(message) =>
          publicKeyError := Some(message);
      }
      isGeneratingPublicKey := false;
    }
  }
}
