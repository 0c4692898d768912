# KeyForge in Dafny

KeyForge is a web tool for hashing text and files and for generating key
pairs. A React front end validates parameters, calls a FastAPI back end, and
tracks each operation's loading, result and error state. The back end
validates the request bodies, selects a hashlib constructor, and hands the
work to the cryptography libraries.

This project models the logic around those library calls:

- the two validation tables, front end (`VALIDATION`) and back end (pydantic
  models), and the proof that they agree;
- the hash tabs' error lists, submit guards and disabled-button conditions;
- the per-operation state of every component. Each component is a class.
  Each `await` is split into a `…Begin` method and a `…Complete(outcome)`
  method; the outcome is an abstract success value or error message;
- the request each service call builds, and what `handleResponse` makes of a
  response;
- the checksum comparison and the display rewrite of `\n`;
- on the back end: the accepted algorithm names and the constructor table, the
  chunk-by-chunk file digest, random token lengths, the substitution of a
  missing payload, the encryption chosen from the password, and the 512 MiB
  file limit.

Digests, key derivation, key generation and randomness are not computed. They
enter as function parameters (`Digest`, `entropy`, `draw`) or appear as the
argument records handed to the library (`BcryptCall`, `Argon2Call`,
`PrivateBytesCall`, `PublicBytesCall`).

Modules follow the source files:

- `ApiConfig` (front-end `config/api.ts`), `ApiService`, `SimpleHashTab`,
  `Argon2HashTab`, `BcryptHashTab`, `KeyGenerationForm`, `KeyGeneration`,
  `KeyDisplay` and `FileChecksum`;
- `Schemas`, `HashEngine`, `KeysEngine` and `Files` on the back end;
- `Agreement`, which relates the two halves;
- helpers: `HashTabs` holds what the three hash tabs share, and `Wrappers`,
  `Text`, `Bytes` and `JsonData` hold options and results, ASCII text, UTF-16
  lengths and decimal numerals, bytes (UTF-8 and hexadecimal), and JSON values.

Behaviour of the code worth knowing:

- A number field that `parseInt` cannot read holds `NaN`. `NaN` fails both
  range comparisons, so the tab reports no error and submits. `JSON.stringify`
  sends it as `null`, and the back end refuses `null` for an integer field.
  See `Argon2HashTab.NaNIsNeverReported` and `Agreement.Argon2NaNRefused`.
- `handleResponse` always reports the generic
  `API Error: <status> <statusText>`, although its own comment, "Try to get
  error details if available" (`frontend/src/services/apiService.ts:7`), and
  its `detail?.[0]?.msg` chain show that the structured message was meant to
  reach the user; see Findings.
- The handlers have no guard against re-submission while a request is in
  flight; only the disabled buttons prevent one. The `…Begin` methods do not
  check the loading flag.
- An over-large file is refused when it is picked
  (`FileChecksum.FileChecksum.HandleFileChange`), not when a checksum is
  requested.

## Model

| member | source | states |
|---|---|---|
| ApiConfig.EndpointUrlShape | frontend/src/config/api.ts:5-14 | every endpoint URL is the base URL, then `/api/`, then the endpoint's name, and distinct endpoints have distinct URLs |
| ApiConfig.EndpointNamesHaveNoQuery | frontend/src/config/api.ts:5-14 | no endpoint name is empty or contains `?` |
| ApiConfig.AlgorithmUnion | frontend/src/config/api.ts:16 | `HashLibAlgorithm` is exactly sha256, sha384, sha512 and md5, and each name reads back to its member |
| ApiConfig.KeySizeUnion | frontend/src/config/api.ts:17 | `RsaKeySizeType` is exactly "1024", "2048", "4096" and "8192" |
| ApiConfig.DefaultsWithinBounds | frontend/src/config/api.ts:25-43 | each numeric default lies within its own inclusive bounds |
| ApiService.NumberJson | frontend/src/services/apiService.ts:49 | a number serialises as itself, and `NaN` as `null` |
| ApiService.PasswordOrNull | frontend/src/services/apiService.ts:105 | a missing or empty password is sent as `null`, any other as the string |
| ApiService.GetRandomToken | frontend/src/services/apiService.ts:23-33 | a GET on the random-token endpoint, with no body |
| ApiService.CreateArgon2Hash | frontend/src/services/apiService.ts:42-53 | a POST to the Argon2 endpoint whose JSON body carries payload, length and memory cost as passed, an unparsable number as `null` |
| ApiService.CreateBcryptHash | frontend/src/services/apiService.ts:61-72 | a POST to the bcrypt endpoint whose JSON body carries payload and rounds as passed |
| ApiService.CreateHashLibHash | frontend/src/services/apiService.ts:80-91 | a POST whose URL ends in `?algorithm=` and the algorithm, and whose body holds the payload and no algorithm |
| ApiService.GenerateRsaKey | frontend/src/services/apiService.ts:98-109 | a POST whose URL ends in `?key_size=` and the size, and whose body holds `password || null` and no key size |
| ApiService.GenerateEd25519Key | frontend/src/services/apiService.ts:116-127 | a POST to the bare Ed25519 endpoint whose body holds `password || null` |
| ApiService.GeneratePublicKey | frontend/src/services/apiService.ts:139-153 | a POST whose body holds the private key and `password || null` |
| ApiService.GetFileChecksum | frontend/src/services/apiService.ts:163-176 | a POST whose URL ends in `?algorithm=` and the algorithm, sending the file in multipart field `file` |
| ApiService.NoQueryWithoutSelector | frontend/src/services/apiService.ts:116-153 | the Ed25519 and public-key URLs carry no query string |
| ApiService.TryBlock | frontend/src/services/apiService.ts:8-14 | on a non-OK response the `try` block never completes normally |
| ApiService.HandleResponse | frontend/src/services/apiService.ts:5-20 | a non-OK response rejects with exactly `API Error: <status> <statusText>`; an OK response yields its parsed body; an unparsable OK body rejects with the parse error |
| ApiService.ApiErrorStatusReadsBack | frontend/src/services/apiService.ts:16 | the generic message starts with `API Error: ` and the status code can be read back from it |
| ApiService.NonOkIgnoresBody | frontend/src/services/apiService.ts:7-17 | two non-OK responses with equal status and status text produce the same error, whatever their bodies |
| ApiService.HandleResponseIntended | frontend/src/services/apiService.ts:8-17 | corrected handler: a structured `detail[0].msg` reaches the caller; only an unparsable body falls back to the generic message; OK responses are handled as before |
| ApiService.StructuredDetailIsDiscarded | frontend/src/services/apiService.ts:8-17 | for a 422 response with `detail[0].msg`, the handler as written loses the message and the corrected one surfaces it |
| HashTabs.PayloadError | frontend/src/components/hash/Argon2HashTab.tsx:29-31 | a payload error exists exactly when `input.length`, counted in UTF-16 code units (two for a character above U+FFFF), exceeds 256, and its message carries that length |
| HashTabs.PayloadMessageInjective | frontend/src/components/hash/Argon2HashTab.tsx:30 | different lengths give different payload messages |
| HashTabs.OutOfRangeMeaning | frontend/src/components/hash/Argon2HashTab.tsx:33 | a range check fails exactly for a number outside the inclusive bounds; `NaN` never fails it |
| HashTabs.FailureToast | frontend/src/components/hash/Argon2HashTab.tsx:68 | the failure toast is an error toast reading `Failed to generate hash: ` followed by the message |
| HashTabs.Settle | frontend/src/components/hash/Argon2HashTab.tsx:64-68 | the hash is forwarded exactly on success, with the success toast; a failure gives the failure toast |
| HashTabs.PayloadLimitInCharacters | frontend/src/components/hash/Argon2HashTab.tsx:29-30 | without characters above U+FFFF the limit is 256 characters; a text of such characters only is refused from 129 characters on and reported with twice its number of characters |
| SimpleHashTab.ValidationError | frontend/src/components/hash/SimpleHashTab.tsx:26-31 | the validation error exists exactly when the input exceeds 256 UTF-16 code units, and it is the payload message with that length |
| SimpleHashTab.SentAlgorithm | frontend/src/components/hash/SimpleHashTab.tsx:48 | the lower-cased algorithm sent is the selected name itself |
| SimpleHashTab.LowerCasingIsIdentity | frontend/src/components/hash/SimpleHashTab.tsx:48 | lower-casing leaves each of the four names unchanged, and the name sent reads back to the selection |
| SimpleHashTab.Guard | frontend/src/components/hash/SimpleHashTab.tsx:34-50 | a request goes out exactly when the input is non-empty and at most 256 UTF-16 code units long; otherwise the toast is the empty-input or the length message |
| SimpleHashTab.EnabledIffSubmits | frontend/src/components/hash/SimpleHashTab.tsx:142 | the button is enabled exactly when nothing is processing and a press would submit |
| SimpleHashTab.Disabled | frontend/src/components/hash/SimpleHashTab.tsx:142 | the button is enabled exactly when nothing is processing and the input is non-empty and at most 256 UTF-16 code units |
| SimpleHashTab.SimpleHashTab.ReceiveInput | frontend/src/components/hash/SimpleHashTab.tsx:16-21 | a new `input` prop replaces the input and keeps the algorithm and the processing flag |
| SimpleHashTab.SimpleHashTab.GenerateBegin | frontend/src/components/hash/SimpleHashTab.tsx:33-44 | the press yields the guard's outcome for the current input, and `isProcessing` rises exactly when it submits |
| SimpleHashTab.SimpleHashTab.GenerateComplete | frontend/src/components/hash/SimpleHashTab.tsx:51-60 | the outcome settles into forwarded hash and toast, and `isProcessing` ends false |
| SimpleHashTab.SimpleHashTab.SetAlgorithm | frontend/src/components/hash/SimpleHashTab.tsx:130-134 | selecting an algorithm changes only the algorithm |
| Argon2HashTab.ValidationErrors | frontend/src/components/hash/Argon2HashTab.tsx:26-42 | each of the three messages is in the list exactly when its check fails (the payload check on UTF-16 code units); the list holds nothing else and is empty exactly when all checks pass |
| Argon2HashTab.FirstErrorIsFirstFailingCheck | frontend/src/components/hash/Argon2HashTab.tsx:26-42 | the first error is that of the first failing check, in the order payload, length, memory cost |
| Argon2HashTab.ErrorsInSourceOrder | frontend/src/components/hash/Argon2HashTab.tsx:26-42 | errors appear in the order of the checks |
| Argon2HashTab.MessagesDistinct | frontend/src/components/hash/Argon2HashTab.tsx:30-38 | the three messages are distinct |
| Argon2HashTab.NaNIsNeverReported | frontend/src/components/hash/Argon2HashTab.tsx:33-39 | a `NaN` length or memory cost produces no error |
| Argon2HashTab.DefaultsAccepted | frontend/src/components/hash/Argon2HashTab.tsx:21-22 | the initial length and memory cost raise no error |
| Argon2HashTab.Guard | frontend/src/components/hash/Argon2HashTab.tsx:45-62 | no request for an empty input or a non-empty error list, whose first error is toasted; otherwise the request carries the input and both numbers |
| Argon2HashTab.SubmittedParamsInRange | frontend/src/components/hash/Argon2HashTab.tsx:45-53 | a submitted request has a non-empty input of at most 256 UTF-16 code units, and numbers within bounds |
| Argon2HashTab.EnabledIffSubmits | frontend/src/components/hash/Argon2HashTab.tsx:207 | the button is enabled exactly when nothing is processing and a press would submit |
| Argon2HashTab.Disabled | frontend/src/components/hash/Argon2HashTab.tsx:207 | the button is enabled exactly when nothing is processing, the input is non-empty and at most 256 UTF-16 code units, and both numbers are in range or unreadable |
| Argon2HashTab.Argon2HashTab.ReceiveInput | frontend/src/components/hash/Argon2HashTab.tsx:15-20 | a new `input` prop replaces the input and keeps both numbers and the processing flag |
| Text.ParseIntOfIntToString | frontend/src/components/hash/Argon2HashTab.tsx:139 | `parseInt` reads back the numeral of every integer, so a number typed in its usual form is stored as that number |
| Text.ParseIntOfEmpty | frontend/src/components/hash/Argon2HashTab.tsx:139 | an empty field parses to `NaN` |
| Argon2HashTab.Argon2HashTab.SetArgon2Length | frontend/src/components/hash/Argon2HashTab.tsx:139 | the length field holds `parseInt` of the text typed |
| Argon2HashTab.Argon2HashTab.SetArgon2MemoryCost | frontend/src/components/hash/Argon2HashTab.tsx:180 | the memory cost field holds `parseInt` of the text typed |
| Argon2HashTab.Argon2HashTab.GenerateBegin | frontend/src/components/hash/Argon2HashTab.tsx:44-55 | the press yields the guard's outcome, and `isProcessing` rises exactly when it submits |
| Argon2HashTab.Argon2HashTab.GenerateComplete | frontend/src/components/hash/Argon2HashTab.tsx:57-71 | success forwards the hash, failure toasts the message, and `isProcessing` ends false |
| BcryptHashTab.ValidationErrors | frontend/src/components/hash/BcryptHashTab.tsx:25-37 | the payload message (checked on UTF-16 code units) and the rounds message are in the list exactly when their checks fail, payload first |
| BcryptHashTab.FirstContaining | frontend/src/components/hash/BcryptHashTab.tsx:158 | `find` yields the first element containing the text, and nothing exactly when none does |
| BcryptHashTab.RoundsAlert | frontend/src/components/hash/BcryptHashTab.tsx:154-158 | the alert is absent exactly when no message mentions `Rounds`; when present it is one of the messages and mentions `Rounds` |
| BcryptHashTab.PayloadMessageLacksRounds | frontend/src/components/hash/BcryptHashTab.tsx:29 | the payload message never contains `Rounds` |
| BcryptHashTab.RoundsMessageHasRounds | frontend/src/components/hash/BcryptHashTab.tsx:33 | the rounds message contains `Rounds` |
| BcryptHashTab.AlertIffRoundsOutOfRange | frontend/src/components/hash/BcryptHashTab.tsx:154-158 | the inline alert appears exactly when the rounds are out of range, and shows the rounds message |
| BcryptHashTab.FirstErrorIsFirstFailingCheck | frontend/src/components/hash/BcryptHashTab.tsx:25-37 | the first error is the payload error if there is one, else the rounds error |
| BcryptHashTab.RoundsBoundaries | frontend/src/components/hash/BcryptHashTab.tsx:32-34 | 8 and 32 are accepted, 7 and 33 refused, and `NaN` raises no error |
| BcryptHashTab.Guard | frontend/src/components/hash/BcryptHashTab.tsx:40-56 | no request for an empty input or any error, the first being toasted; otherwise the request carries the input and rounds |
| BcryptHashTab.EnabledIffSubmits | frontend/src/components/hash/BcryptHashTab.tsx:166 | the button is enabled exactly when nothing is processing and a press would submit |
| BcryptHashTab.Disabled | frontend/src/components/hash/BcryptHashTab.tsx:166 | the button is enabled exactly when nothing is processing, the input is non-empty and at most 256 UTF-16 code units, and the rounds are in range or unreadable |
| BcryptHashTab.BcryptHashTab.ReceiveInput | frontend/src/components/hash/BcryptHashTab.tsx:15-20 | a new `input` prop replaces the input and keeps the rounds and the processing flag |
| BcryptHashTab.BcryptHashTab.SetBcryptRounds | frontend/src/components/hash/BcryptHashTab.tsx:141 | the rounds field holds `parseInt` of the text typed |
| BcryptHashTab.BcryptHashTab.GenerateBegin | frontend/src/components/hash/BcryptHashTab.tsx:39-50 | the press yields the guard's outcome, and `isProcessing` rises exactly when it submits |
| BcryptHashTab.BcryptHashTab.GenerateComplete | frontend/src/components/hash/BcryptHashTab.tsx:52-65 | success forwards the hash, failure toasts the message, and `isProcessing` ends false |
| KeyGenerationForm.PasswordError | frontend/src/components/key/KeyGenerationForm.tsx:41-48 | the error is set exactly when `password.length`, in UTF-16 code units, exceeds 128 |
| KeyGenerationForm.PasswordLimitInCharacters | frontend/src/components/key/KeyGenerationForm.tsx:43 | without characters above U+FFFF the password limit is 128 characters; with such characters only it is 64 |
| KeyGenerationForm.CounterFlagged | frontend/src/components/key/KeyGenerationForm.tsx:153 | the counter is flagged exactly when the effect reports a password error |
| KeyGenerationForm.ShowsKeySizeSelector | frontend/src/components/key/KeyGenerationForm.tsx:107 | the key-size selector is shown exactly for RSA, never for Ed25519 |
| KeyGenerationForm.KeyGenerationForm.RunPasswordEffect | frontend/src/components/key/KeyGenerationForm.tsx:41-48 | the effect makes `passwordError` the error of the current password and changes nothing else |
| KeyGenerationForm.KeyGenerationForm.ReceiveProps | frontend/src/components/key/KeyGenerationForm.tsx:38 | new props leave `passwordError` as it was until the effect runs |
| KeyGenerationForm.KeyGenerationForm.IsFormValid | frontend/src/components/key/KeyGenerationForm.tsx:50 | the form is valid exactly when there is no password error; once the effect has run, exactly when the password has at most 128 UTF-16 code units |
| KeyGenerationForm.KeyGenerationForm.GenerateDisabled | frontend/src/components/key/KeyGenerationForm.tsx:196 | once the effect has run, the button is enabled exactly when the password has at most 128 UTF-16 code units and nothing is loading |
| KeyGeneration.Started | frontend/src/pages/KeyGeneration.tsx:71-75 | a started record is loading without an error and keeps its key |
| KeyGeneration.Succeeded | frontend/src/pages/KeyGeneration.tsx:83-87 | a succeeded record holds the new key, neither loading nor in error |
| KeyGeneration.Failed | frontend/src/pages/KeyGeneration.tsx:91-95 | a failed record holds the message and the key of the pre-press snapshot, not loading |
| KeyGeneration.SettledRecord | frontend/src/pages/KeyGeneration.tsx:83-95 | a settled record is not loading and has an error exactly on failure, never together with a new key |
| KeyGeneration.PasswordArgument | frontend/src/pages/KeyGeneration.tsx:80 | an empty password is passed as absent, any other as itself |
| KeyGeneration.RequestFor | frontend/src/pages/KeyGeneration.tsx:70-108 | the request is of the selected kind, carries the selected size for RSA, and passes the password through `password \|\| undefined` |
| KeyGeneration.HttpRequest | frontend/src/pages/KeyGeneration.tsx:78-108 | the body's `password` is `password \|\| null` of the request's password |
| KeyGeneration.EmptyPasswordSentAsNull | frontend/src/pages/KeyGeneration.tsx:80 | the password reaches the service as `null` exactly when the field is empty, else as typed |
| KeyGeneration.KeyGeneration.CurrentKeyState | frontend/src/pages/KeyGeneration.tsx:36 | the current record is the record of the selected kind |
| KeyGeneration.KeyGeneration.Displayed | frontend/src/pages/KeyGeneration.tsx:157-175 | loading flag, displayed key and error all come from the current record |
| KeyGeneration.KeyGeneration.RunValidationEffect | frontend/src/pages/KeyGeneration.tsx:39-45 | the effect sets `validationError` to the password's error and changes nothing else |
| KeyGeneration.KeyGeneration.HandleKeyTypeChange | frontend/src/pages/KeyGeneration.tsx:47-49 | changing the kind changes only the kind; neither record is touched |
| KeyGeneration.KeyGeneration.HandleRsaKeySizeChange | frontend/src/pages/KeyGeneration.tsx:51-53 | changing the size changes only the size |
| KeyGeneration.KeyGeneration.HandlePasswordChange | frontend/src/pages/KeyGeneration.tsx:55-57 | typing changes only the password; the error follows only once the effect has run |
| KeyGeneration.KeyGeneration.HandleTogglePasswordVisibility | frontend/src/pages/KeyGeneration.tsx:59-61 | the toggle flips visibility only |
| KeyGeneration.KeyGeneration.GenerateBegin | frontend/src/pages/KeyGeneration.tsx:63-75 | with a validation error nothing changes; otherwise only the selected kind's record starts, the other is untouched, and the request and snapshot are returned |
| KeyGeneration.KeyGeneration.GenerateComplete | frontend/src/pages/KeyGeneration.tsx:77-124 | the record of the requested kind becomes the new key or the snapshot with the error; the other record is untouched |
| KeyGeneration.GenerateAfterEffect | frontend/src/pages/KeyGeneration.tsx:39-68 | once the effect has run, a press is refused, with both records unchanged, exactly when the password exceeds 128 UTF-16 code units; otherwise the request's password is absent exactly when the field is empty |
| KeyDisplay.UnescapeNewlines | frontend/src/components/key/KeyDisplay.tsx:80 | the rewrite never lengthens the text and leaves no backslash-n pair |
| KeyDisplay.UnescapeWithoutPairs | frontend/src/components/key/KeyDisplay.tsx:80 | text without a backslash-n pair is displayed as it is |
| KeyDisplay.UnescapeIdempotent | frontend/src/components/key/KeyDisplay.tsx:80 | rewriting twice is rewriting once |
| KeyDisplay.DeliveredKeyShownAsIs | frontend/src/components/key/KeyDisplay.tsx:80 | a key as the service delivers it, with real line feeds and no backslash, is displayed unchanged |
| KeyDisplay.UnescapeExample | frontend/src/components/key/KeyDisplay.tsx:80 | only a literal backslash-n pair is rewritten: the text `A\nB` with such a pair is displayed on two lines |
| KeyDisplay.KeyDisplay.GeneratePublicKeyBegin | frontend/src/components/key/KeyDisplay.tsx:37-47 | without a private key nothing happens; otherwise loading rises, the error clears, and the key and password are sent |
| KeyDisplay.KeyDisplay.GeneratePublicKeyComplete | frontend/src/components/key/KeyDisplay.tsx:49-58 | success stores the public key and opens the panel, which then shows exactly when that key is non-empty; failure stores the message and leaves the key and the panel as they were; loading ends false |
| KeyDisplay.KeyDisplay.ReceiveProps | frontend/src/components/key/KeyDisplay.tsx:18-23 | new props leave the public-key fields as they were |
| KeyDisplay.KeyDisplay.Renders | frontend/src/components/key/KeyDisplay.tsx:61 | the display renders exactly when it holds a private key, which is also exactly when a public-key request can go out |
| KeyDisplay.KeyDisplay.PrivateKeyText | frontend/src/components/key/KeyDisplay.tsx:80 | the shown private key is no longer than the key, holds no backslash-n pair, and equals the key when it has no backslash |
| KeyDisplay.KeyDisplay.PublicKeyText | frontend/src/components/key/KeyDisplay.tsx:119 | the shown public key is no longer than the key, holds no backslash-n pair, and equals the key when it has no backslash |
| KeyDisplay.KeyDisplay.PublicKeyPanelVisible | frontend/src/components/key/KeyDisplay.tsx:114 | the panel shows only with `showPublicKey` and a non-empty public key |
| FileChecksum.Normalize | frontend/src/pages/FileChecksum.tsx:90-91 | a normalised text has no upper case and no whitespace, and is no longer than the original |
| FileChecksum.NormalizeIdempotent | frontend/src/pages/FileChecksum.tsx:90-93 | normalising twice is normalising once |
| FileChecksum.NormalizeIgnoresCase | frontend/src/pages/FileChecksum.tsx:90-93 | lower-casing first changes nothing |
| FileChecksum.NormalizeIgnoresWhitespace | frontend/src/pages/FileChecksum.tsx:90-93 | inserting whitespace anywhere changes nothing |
| FileChecksum.MatchIsEquivalence | frontend/src/pages/FileChecksum.tsx:88-93 | the comparison is reflexive, symmetric and transitive |
| FileChecksum.MatchInsensitive | frontend/src/pages/FileChecksum.tsx:88-93 | the comparison is insensitive to case on either side and to added whitespace |
| FileChecksum.ChecksumsMatch | frontend/src/pages/FileChecksum.tsx:88-93 | two texts match exactly when their lower-cased forms agree once whitespace is removed |
| FileChecksum.MatchExample | frontend/src/pages/FileChecksum.tsx:88-93 | `ab12` matches `AB 12` |
| FileChecksum.VerifyDisabled | frontend/src/pages/FileChecksum.tsx:286 | the verify button is disabled exactly when the comparison text is whitespace only |
| FileChecksum.AutoComparison | frontend/src/pages/FileChecksum.tsx:74-76 | the automatic comparison runs exactly when the comparison text is not blank, and records whether the checksums match; otherwise the previous result stays |
| FileChecksum.FileChecksum.HandleFileChange | frontend/src/pages/FileChecksum.tsx:33-49 | a file over 536870912 bytes, or no file, is refused and nothing changes; an accepted file replaces the old one and clears every result |
| FileChecksum.FileChecksum.CalculateBegin | frontend/src/pages/FileChecksum.tsx:51-61 | without a file nothing happens; otherwise results clear, `isCalculating` rises, and the request captures file, algorithm and comparison text |
| FileChecksum.FileChecksum.CalculateDisabled | frontend/src/pages/FileChecksum.tsx:213 | the calculate button is enabled exactly when a file is chosen and nothing is calculating; pressing it then always sends a request |
| FileChecksum.FileChecksum.ResultsPanel | frontend/src/pages/FileChecksum.tsx:238-255 | the results panel shows exactly when there is a checksum, and then its caption's file information is present |
| FileChecksum.FileChecksum.CalculateComplete | frontend/src/pages/FileChecksum.tsx:62-85 | success stores checksum and file information and compares against the captured comparison text; failure stores the message; `isCalculating` ends false |
| FileChecksum.FileChecksum.Verify | frontend/src/pages/FileChecksum.tsx:88-101 | the result records whether the checksum matches the current comparison text |
| FileChecksum.FileChecksum.SetAlgorithm | frontend/src/pages/FileChecksum.tsx:196-204 | selecting an algorithm changes only the algorithm |
| FileChecksum.FileChecksum.SetCompareValue | frontend/src/pages/FileChecksum.tsx:88 | typing changes only the comparison text |
| JsonData.LastMemberFound | application/core/schemas.py:12-54 | a member found by key is one of the object's members, and a key the object lacks is not found |
| Schemas.DefaultsWithinBounds | application/core/schemas.py:28-54 | every default lies within its bounds, and both minimum lengths are 0 |
| Schemas.OptionalString | application/core/schemas.py:13-17 | absent or `null` yields no value; a string is accepted exactly within its length limits; anything else is refused |
| Schemas.RequiredString | application/core/schemas.py:21 | a required string must be present and a string |
| Schemas.BoundedInt | application/core/schemas.py:37-54 | absent yields the default; a number is accepted exactly within its inclusive bounds; `null` is refused as not an integer |
| Schemas.ErrorOf | application/core/schemas.py:36-54 | a field contributes an error exactly when it fails |
| Schemas.ParsePasswordIn | application/core/schemas.py:12-17 | the body is accepted exactly when its `password` is, with that value, and otherwise reports the password's error; a non-object body is refused |
| Schemas.ParsePrivateKeyIn | application/core/schemas.py:20-21 | `PrivateKeyIn` is `PasswordIn` plus a required `private_key`: accepted exactly when both fields are, with both values; otherwise the password's error and then the key's are reported, a missing key as missing |
| Schemas.ParseBasePayload | application/core/schemas.py:28-33 | the body is accepted exactly when its `payload` is, with that value, so an absent or `null` payload gives `None`; otherwise the payload's error is reported |
| Schemas.ParseArgon2HashParams | application/core/schemas.py:36-46 | accepted exactly when payload, length and memory cost all are, with their values; otherwise every failing field is reported, in declaration order |
| Schemas.ParseBcryptHashParams | application/core/schemas.py:49-54 | accepted exactly when payload and rounds are, with their values; otherwise every failing field is reported, in order |
| Schemas.EmptyBodyTakesDefaults | application/core/schemas.py:36-54 | an empty object takes every default |
| Schemas.RoundsExamples | application/tests/routes/test_hashers.py:36-74 | rounds 4, 7 and 40 are refused and 12, 20 and 32 accepted |
| Schemas.PasswordLimitBoundary | application/core/schemas.py:13-17 | a 128-character password is accepted and a 129-character one refused as too long |
| Schemas.NullHandling | application/core/schemas.py:13-54 | `null` is accepted for an optional string but refused for an integer |
| HashEngine.FromValue | application/core/hashengine.py:15-25 | a value found reads back to its member |
| HashEngine.EnumIsExactlyFour | application/core/hashengine.py:15-25 | the enumeration accepts exactly sha512, sha256, sha384 and md5, and refuses md4 and sha1 |
| HashEngine.TableKeysAreEnumValues | application/core/hashengine.py:35-40 | the table's keys are exactly the enumeration's values, and distinct members reach distinct constructors |
| HashEngine.NewHashLib | application/core/hashengine.py:42-56 | a name in the table selects its constructor; any other fails with the constant text naming `None` |
| HashEngine.UnsupportedNameIsLost | application/core/hashengine.py:52-56 | md4 and sha1 are refused with one and the same text |
| HashEngine.NewHashLibIntended | application/core/hashengine.py:42-56 | corrected lookup: the refusal names the algorithm asked for |
| HashEngine.IntendedNamesTheAlgorithm | application/core/hashengine.py:52-56 | the corrected lookup agrees with the original where it succeeds, and different refused names give different texts |
| HashEngine.HashObject.Update | application/core/hashengine.py:83 | feeding a chunk appends it to what the hasher has seen |
| HashEngine.HashObject.HexDigest | application/core/hashengine.py:84 | two lower-case hexadecimal characters per byte of the digest of everything fed |
| HashEngine.HashFile | application/core/hashengine.py:69-84 | one fresh hasher fed every chunk in order: the result is the hexadecimal digest of all chunks concatenated |
| HashEngine.FlattenAppend | application/core/hashengine.py:82-83 | the bytes of two chunk lists in sequence are the bytes of each, concatenated |
| HashEngine.ChunkingIsIrrelevant | application/core/hashengine.py:82-84 | splitting a chunk in two anywhere gives the same digest |
| HashEngine.Hash | application/core/hashengine.py:58-67 | the lower-case hexadecimal digest of the payload's UTF-8 bytes, two characters per digest byte |
| HashEngine.HashIsFileDigestOfEncoding | application/core/hashengine.py:58-84 | hashing a text is hashing a file holding its UTF-8 bytes, however chunked |
| HashEngine.RandInteger | application/core/hashengine.py:87-96 | the token length lies in 32..128 |
| HashEngine.RandIntegerCoversRange | application/core/hashengine.py:96 | every length from 32 to 128 can be drawn |
| HashEngine.TokenBytes | application/core/hashengine.py:118 | a token of n bytes has n bytes, drawn in order |
| HashEngine.TokenHex | application/core/hashengine.py:146 | a hex token of n bytes has 2n lowercase hexadecimal characters |
| HashEngine.BcryptHash | application/core/hashengine.py:99-123 | a given payload is hashed as text; a missing one is replaced by 32..128 random bytes; rounds and salt go to the library unchanged |
| HashEngine.Argon2Hash | application/core/hashengine.py:126-154 | a given payload is hashed as is; a missing one is replaced by 64..256 hexadecimal characters; length, memory cost and salt go to the library unchanged |
| HashEngine.SubstitutionIgnoresRandomnessWhenGiven | application/core/hashengine.py:117-118 | a given payload makes the call independent of the random draws; a missing one is replaced by the token drawn |
| KeysEngine.SizeFromValue | application/core/keysengine.py:11-15 | a size found reads back to its member |
| KeysEngine.SizesAreExactlyFour | application/core/keysengine.py:11-15 | exactly 1024, 2048, 4096 and 8192 are accepted; 256, 512 and 12288 are refused |
| KeysEngine.EncryptionFor | application/core/keysengine.py:24-29 | no password gives no encryption; a password gives the best available encryption over its UTF-8 bytes |
| KeysEngine.EncryptionDistinguishesPasswords | application/core/keysengine.py:24-29 | an absent and a present password never give the same encryption; an empty password still encrypts |
| KeysEngine.GenRsaPrivateKeyPem | application/core/keysengine.py:18-35 | the RSA key has public exponent 65537 and the requested size, and is encrypted according to the password |
| KeysEngine.GenEd25519PrivateKeyPem | application/core/keysengine.py:49-62 | the Ed25519 key is encrypted according to the password |
| KeysEngine.GenPublicKeyPem | application/core/keysengine.py:38-46 | the public half of exactly the private key given is serialised, as PEM in SubjectPublicKeyInfo format |
| KeysEngine.GeneratorsAgreeOnSerialisation | application/core/keysengine.py:30-34 | both generators serialise as PEM and PKCS8 with the same encryption for the same password |
| Files.UploadFile | application/api/files.py:27-54 | a file over the limit is refused with status 413 and the fixed detail; any other is hashed, and the response echoes filename, algorithm value and size |
| Files.FileSum | application/api/files.py:28 | a query value outside the enumeration is refused before the handler runs; the response's algorithm is the query value |
| Files.LimitIsInclusive | application/api/files.py:36-40 | the limit is 536870912 bytes; exactly 512 MiB is accepted and one byte more refused |
| Files.UnknownAlgorithmsRefused | application/tests/routes/test_hashers.py:100-116 | md4 and sha1 never reach the handler |
| Agreement.TablesAgree | frontend/src/config/api.ts:19-50 | the front-end bounds, defaults and length limits equal the back end's (the payload limit 256, the password limit 128), and both file limits are equal |
| Agreement.AlgorithmsAgree | frontend/src/config/api.ts:16 | the front end's algorithm names are exactly the back end's enumeration values |
| Agreement.KeySizesAgree | frontend/src/config/api.ts:17 | every key size the front end offers reads as an integer that is a member of `RSASizeEnum` |
| Agreement.Argon2SubmissionAccepted | frontend/src/components/hash/Argon2HashTab.tsx:45-62 | an Argon2 request the tab submits with numeric fields passes the back end's validation with the same values |
| Agreement.Argon2NaNRefused | frontend/src/components/hash/Argon2HashTab.tsx:139 | an unreadable length passes the tab, is sent as `null`, and is refused by the back end |
| Agreement.BcryptSubmissionAccepted | frontend/src/components/hash/BcryptHashTab.tsx:40-56 | a bcrypt request the tab submits with numeric rounds passes the back end's validation |
| Agreement.BcryptNaNRefused | frontend/src/components/hash/BcryptHashTab.tsx:141 | unreadable rounds pass the tab and are refused by the back end |
| Agreement.PasswordReachesEngine | frontend/src/pages/KeyGeneration.tsx:78-108 | an accepted password passes `PasswordIn`; an empty one arrives as absent and gives an unencrypted key |
| Agreement.EmptyPasswordNeverSent | frontend/src/services/apiService.ts:105 | the service never receives an empty password string from this front end |
| Agreement.FileLimitsAgree | frontend/src/pages/FileChecksum.tsx:38-41 | the route accepts a file's size exactly when the page does |

## Left out

- Presentation is not modelled: animation, clipboard, copy feedback, themes, and the purely visual components. Toasts are modelled for the three hash tabs and for the key page's validation refusal (`KeyGeneration.Generation.Refused`).
- HashGeneration.tsx, HashResult, RandomTokenGenerator and KeyGenerationError only compose or display results; `getRandomToken` is modelled only as the request it builds.
- `formatFileSize` uses floating-point division and `toFixed`, and is not modelled.
- `fetch`, JSON parsing, `FormData` and request headers are not modelled. A response is an abstract record, the base URL is a parameter, and each `await` is a Begin/Complete pair.
- Interleavings of several requests in flight are not modelled.
- A thrown value that is not an `Error` ("Unknown error" and "Failed to generate public key") is not modelled. Failures arrive as their message.
- The digests, bcrypt and Argon2, RSA and Ed25519 generation, and PEM text are library calls. They are parameters or argument records, and a key or hash is never computed.
- `randint` and `secrets` are parameters (`draw`, `entropy`). `bcrypt.gensalt()` is the `salt` parameter; `argon2hash` also uses a bcrypt salt, which the model passes on unchanged.
- The library's behaviour for an empty encryption password is not modelled. `BestAvailableEncryption` over zero bytes is where the model stops.
- The routers are not modelled: `hashers.py`, `keys.py`, app wiring, telemetry and test fixtures. Only the file route's guard and response are modelled. In `keys.py` the public-key route passes arguments the engine does not take, so that route is not modelled as working. The hashlib route would fail on a missing payload before hashing, which is not modelled either.
- Schemas.BoundedInt: does not model pydantic's lax coercion of numeric strings, booleans or integral floats to integers, because JSON numbers here are integers and the front end only sends integers or `null`.
- Schemas.OptionalString: reports errors by kind only, not with pydantic's message text.
- KeysEngine.EncryptionDistinguishesPasswords: does not prove that two different non-empty passwords give different encryptions, because that needs injectivity of UTF-8 encoding, which is not proved here.
- Upper-casing and whitespace are modelled for ASCII only. JavaScript's Unicode `\s`, the non-ASCII whitespace `parseInt` skips, and `toLowerCase` beyond ASCII are not modelled. `parseInt`'s sign and digits are modelled; only its hexadecimal prefix `0x` is not.
- ApiService.DetailMessage: a `msg` that is not a string counts as absent, where the source would pass any truthy value to `new Error`; FastAPI's validation errors always carry a string `msg`.
- `FileChecksum.FileChecksum.HandleFileChange` keeps only the first selected file; its toasts are not modelled.

## Findings

| source | as written | input that shows it | evidently intended | confidence | as-written member | corrected member |
|---|---|---|---|---|---|---|
| frontend/src/services/apiService.ts:8-17 | the error thrown inside the `try` at line 10 is caught at line 15 and replaced, so every non-OK response gives the generic message | a 422 response with body `{"detail":[{"msg":"Input should be a valid integer"}]}` gives `API Error: 422 Unprocessable Entity` | the structured `detail[0].msg` reaches the user, and the generic message is used only when the body cannot be parsed | not executed | ApiService.HandleResponse | ApiService.HandleResponseIntended |
| application/core/hashengine.py:52-56 | the message interpolates `self.hasher`, which is `None` on that path | `HashLib("md4")` raises `Hash algorithm 'None' is not supported` | the message names the algorithm that was asked for: `Hash algorithm 'md4' is not supported` | not executed | HashEngine.NewHashLib | HashEngine.NewHashLibIntended |
