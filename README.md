# SCCafé token factory — a Dafny model

SCCafé is a browser front end for a simulated CREATE2 token factory on BSC
Testnet. This project models its logic:

- **`Web3Manager`** (js/web3.js) holds the wallet state: `account`,
  `isConnected` and `chainId`. It checks the network and switches to chain
  `0x61`. It derives a placeholder address for a token, simulates the creation
  transaction, and keeps a token history in local storage under `userTokens`.
- **`SCCafeApp`** (js/app.js) validates the create form and guards the address
  preview. It drives creation on submit, computes the dashboard counters and
  tracks the current section.
- **`TranslationManager`** (js/translations.js) holds the Portuguese, English
  and Chinese message tables. It provides `translate` with its fallback chain,
  the language choice kept in local storage under `language`, and the page
  title for each language.

Despite its name, the hash called `keccak256` is a 32-bit string hash,
`h := int32(31·h + code unit)`. Its absolute value is written in lower-case
hex and left-padded to 64 characters. The token address is `"0x"` followed by
the last 40 of those characters, hashed over `name + symbol + salt`. The model
follows this code, not Keccak-256 and not the CREATE2 rule of EIP-1014.

## Modules

- `js_runtime.dfy`, module `JsRuntime`: the JavaScript behaviour the code
  relies on.
  - Strings are sequences of UTF-16 code units.
  - `ToInt32` is defined by congruence modulo 2³².
  - Also modelled: `Math.abs`, `Number.prototype.toString(16)`, `padStart`,
    `slice(0, n)` and `slice(-k)`.
  - `parseInt` is modelled with leading white space, sign, `0x` prefix and
    the longest digit prefix. `NaN` is `None`.
- `token_address.dfy`, module `TokenAddress`: the pure part of web3.js.
  - The hash, both as the loop the source runs and as its specification.
  - The digest, the salt and transaction-hash format, and address
    derivation.
  - `formatAddress`.
- `web3.dfy`, module `Web3`:
  - The history ledger over a storage map.
  - The creation workflow as a function of its inputs.
  - `switchNetwork`.
  - The `Web3Manager` class. Its methods change `account`, `isConnected`,
    `chainId` and `storage` in place.
- `app.dfy`, module `App`:
  - Validation and the dashboard counters.
  - The `SCCafeApp` class. It holds the form inputs, the predicted-address
    text, the counters and `currentSection`.
- `translations.dfy`, module `Translations`:
  - The three tables, written section by section as in the source.
  - `translate`'s lookup and the title choice.
  - The `TranslationManager` class, over `currentLanguage`, the stored
    `language` entry, the title and the text of the translated elements.

Everything the browser, the user or the wallet supplies is a parameter:

- the `Math.random` digits, as 64 values in [0, 16);
- the answer to `confirm`;
- each provider reply, either a value or an error with a code;
- whether a local-storage write succeeds;
- the creation time as text;
- which section ids and `[data-translate]` keys the page has.

Where the source keeps a field unchanged, the model has a `const`. Where the
source changes a field, the model has a `var`, and the methods' `modifies`
clauses list exactly the fields the JavaScript assigns.

## Model

| member | source | states |
|---|---|---|
| `JsRuntime.ToInt32` | js/web3.js:241-242 | the result is a signed 32-bit integer congruent to the input modulo 2³², which is exactly what `<<` and `& hash` compute |
| `JsRuntime.ToInt32Congruent` | js/web3.js:241-242 | ToInt32 depends only on its argument modulo 2³² |
| `JsRuntime.ToInt32OfInt32` | js/web3.js:242 | `hash & hash` leaves a 32-bit value unchanged |
| `JsRuntime.Abs` | js/web3.js:244 | `Math.abs` yields x or -x, never negative |
| `JsRuntime.ToHex` | js/web3.js:244 | `toString(16)` is at least one lower-case hex digit, with no leading zero unless it is the single digit 0 |
| `JsRuntime.HexValueOfToHex` | js/web3.js:244 | reading the hex text back gives the number: `toString(16)` loses nothing |
| `JsRuntime.ToHexLength` | js/web3.js:244 | a number below 16^k takes at most k hex digits |
| `JsRuntime.HexValueLeadingZeros` | js/web3.js:244 | left-padding with '0' does not change the hex value |
| `JsRuntime.ZerosValue` | js/web3.js:244 | a run of '0' digits has value 0 |
| `JsRuntime.PadStart` | js/web3.js:244 | `padStart(len, c)` has length max(len, \|s\|), ends with s, and is filled with c before it |
| `JsRuntime.SliceLast` | js/web3.js:229 | `slice(-k)` is the last min(k, \|s\|) code units of s |
| `JsRuntime.SliceTo` | js/app.js:488 | `slice(0, n)` is the prefix of s with length min(n, \|s\|) |
| `JsRuntime.Repeat` | js/web3.js:244 | n copies of one code unit |
| `JsRuntime.TrimStart` | js/app.js:138 | `parseInt` skips exactly the leading JavaScript white space and line terminators |
| `JsRuntime.DigitPrefix` | js/app.js:138 | `parseInt` reads the longest prefix of digits of the radix, and the next code unit is not one |
| `JsRuntime.Decimal` | js/app.js:138 | the decimal text of a number: digits only, no leading zero |
| `JsRuntime.DecimalValue` | js/app.js:138 | the decimal text reads back as the number |
| `JsRuntime.DigitPrefixAll` | js/app.js:138 | a string made only of digits is read in full |
| `JsRuntime.ParseMagnitudeOfDigits` | js/app.js:138 | an unsigned digit string parses to its value |
| `JsRuntime.ParseIntOfDigits` | js/app.js:138 | `parseInt` of a non-empty digit string is its decimal value |
| `JsRuntime.ParseIntMinus` | js/app.js:138 | a leading '-' negates what the rest parses to, with NaN staying NaN |
| `JsRuntime.TrimStartKeeps` | js/app.js:138 | text that starts with a non-space is not trimmed |
| `JsRuntime.ParseIntOfDecimal` | js/app.js:138 | `parseInt(String(n)) == n` for every natural n |
| `JsRuntime.ParseIntNaN` | js/app.js:138 | text whose first non-space is not a sign or a digit parses to NaN |
| `JsRuntime.ParseInt` | js/app.js:138 | `parseInt` without a radix: text that is empty after its leading white space is NaN, and a negative result needs a leading '-' |
| `TokenAddress.HashOf` | js/web3.js:236-243 | the accumulator after the whole input is a signed 32-bit value |
| `TokenAddress.JsStepIsTimes31` | js/web3.js:241-242 | the JavaScript step `((h << 5) - h) + c` followed by `& hash` equals ToInt32(31·h + c) |
| `TokenAddress.Keccak256` | js/web3.js:236-245 | the loop, run literally with shifts and masks, returns the digest of the specification hash |
| `TokenAddress.HashHexLength` | js/web3.js:244 | \|hash\| ≤ 2³¹, so its hex form has at most 8 digits |
| `TokenAddress.DigestShape` | js/web3.js:244 | the digest is always 64 lower-case hex characters, and the first 56 are '0' |
| `TokenAddress.DigestValue` | js/web3.js:244 | the digest read as hex is \|hash\|: the padding and formatting lose nothing |
| `TokenAddress.Digest` | js/web3.js:244 | `Math.abs(hash).toString(16).padStart(64, '0')` is always exactly 64 characters, because \|hash\| needs at most 8 hex digits |
| `TokenAddress.HexWord` | js/web3.js:232-234 | `generateSalt` (and the transaction hash at js/web3.js:219) is "0x" followed by 64 lower-case hex digits, one per random nibble, and each digit reads back as its nibble |
| `TokenAddress.SaltUsed` | js/web3.js:227 | the salt used is never empty; a given non-empty salt is used as it is, and an empty one is replaced by a fresh "0x" + 64-hex word |
| `TokenAddress.DeriveAddress` | js/web3.js:228-229 | `'0x' + hash.slice(-40)`: 42 characters, "0x" followed by the last 40 characters of the digest of `name + symbol + salt` |
| `TokenAddress.ComputeTokenAddress` | js/web3.js:225-230 | `computeTokenAddress`: a 42-character "0x" address, derived from the token's own salt when it has one and from a freshly generated salt otherwise |
| `TokenAddress.AddressShape` | js/web3.js:228-229 | every address has 42 characters: "0x", then 40 lower-case hex digits, of which the first 32 are always '0' |
| `TokenAddress.AddressValue` | js/web3.js:228-229 | the address's hex value is \|hash(name + symbol + salt)\| |
| `TokenAddress.AddressDependsOnConcatenation` | js/web3.js:225-230 | two tokens with a salt and the same `name + symbol + salt` get the same address, whatever their supply, prefix or split |
| `TokenAddress.Times31Congruent` | js/web3.js:241-242 | wrapping the accumulator before the step does not change the wrapped result |
| `TokenAddress.HashSameSuffix` | js/web3.js:238-243 | inputs with equal hashes keep equal hashes under any common suffix |
| `TokenAddress.HashCollision` | js/web3.js:238-243 | "Aa" and "BB" collide inside any context, so the hash is not injective |
| `TokenAddress.DistinctTokensShareAddress` | js/web3.js:227-229 | two different tokens (name "TAa" and name "TBB", symbol "TK") get the same address for every salt |
| `TokenAddress.FormatAddress` | js/app.js:487-489 | the first 6 code units, "...", then the last 4; a 42-character address gives 13 characters (js/web3.js:296-298 is the same expression) |
| `Web3.SwitchNetwork` | js/web3.js:135-155 | the switch request always goes first; the add request is made if and only if the switch failed with code 4902; every other error is rethrown, and after an add the add's own error is rethrown |
| `Web3.Tokens` | js/web3.js:253-255 | the history is the list stored under `userTokens`, or the empty list when that key is unset (`\|\| '[]'`) |
| `Web3.Saved` | js/web3.js:248-250 | after a save, the `userTokens` key holds the old list with the record pushed at the end, and no other key is added |
| `Web3.SavedAppends` | js/web3.js:247-251 | after a save the list is the old list with the record appended at the end, one longer, and the other storage keys are untouched |
| `Web3.SavedKeepsDuplicates` | js/web3.js:249 | a record already present gains one more occurrence: the history never deduplicates |
| `Web3.SavedAllAppends` | js/web3.js:247-255 | any run of saves appends exactly those records in order; an unset key reads as the empty list |
| `Web3.CreateTokenOutcome` | js/web3.js:157-213 | a result exists if and only if the wallet is connected, the user confirmed and the write succeeded, and a record is written if and only if there is a result. The record's address and tx hash are the returned ones, its creator is the account, and its salt is the one the address was derived from. Its address is derived from name, symbol and salt and has 42 characters. Its other fields are copied from the token data |
| `Web3.RepeatedCreationAppendsTwice` | js/web3.js:193-199 | creating the same token twice appends two records with the same address |
| `Web3.AccountAfter` | js/web3.js:95-110 | an accounts list leaves an account exactly when it is non-empty, and then the first one |
| `Web3.Web3Manager.constructor` | js/web3.js:4-55 | the fields start empty; with a provider, an `eth_accounts` reply with accounts connects the first one; the invariant holds |
| `Web3.Web3Manager.DisconnectWallet` | js/web3.js:87-93 | the account becomes null and `isConnected` false |
| `Web3.Web3Manager.HandleDisconnect` | js/web3.js:118-120 | the same as disconnecting |
| `Web3.Web3Manager.HandleAccountsChanged` | js/web3.js:95-110 | the account becomes the first of the list, or null for an empty list; `isConnected ⇔ account ≠ null` holds afterwards |
| `Web3.Web3Manager.CheckNetwork` | js/web3.js:122-133 | no switch is attempted on chain `0x61`; off that chain the switch requests are made and a failure only warns; a failing `eth_chainId` propagates |
| `Web3.Web3Manager.HandleChainChanged` | js/web3.js:112-116 | only `chainId` changes, and it ends as the id the network check read, or as the event's id when that read fails; the wrong-network warning shows exactly when the chain is not `0x61` and the switch failed |
| `Web3.Web3Manager.ConnectWallet` | js/web3.js:57-85 | it succeeds if and only if there is a provider and neither the accounts request nor the chain-id request throws; on failure before the accounts arrive nothing changes; the invariant is kept |
| `Web3.Web3Manager.GetUserTokens` | js/web3.js:253-255 | the manager's history is the stored list, and it is empty while nothing was saved |
| `Web3.Web3Manager.SaveTokenToHistory` | js/web3.js:247-251 | a successful write stores the old list plus the record; a failed one changes nothing |
| `Web3.Web3Manager.CreateToken` | js/web3.js:157-213 | the in-place workflow returns exactly what CreateTokenOutcome decides and appends exactly its record |
| `Web3.Web3Manager.IsAdmin` | js/web3.js:300-306 | true exactly when the current account is the listed admin address |
| `App.TokenDataOf` | js/app.js:135-141 | the submitted token copies name, symbol, salt and prefix, and its supply is `parseInt` of the supply field |
| `App.ValidateTokenData` | js/app.js:170-192 | accepts exactly the well-formed tokens: name ≥ 3, symbol in 2..5, supply a number ≥ 1 (NaN and 0 refused), salt non-empty. Each refusal names the first failing check in the order name, symbol, supply, salt |
| `App.DecimalSupplyValidation` | js/app.js:138 | with a decimal supply field, validation accepts exactly when name, symbol and salt pass and the number is at least 1 |
| `App.NonNumericSupplyRefused` | js/app.js:181-184 | a supply field that parses to NaN is refused at the supply check |
| `App.AcceptedFormKeepsItsSalt` | js/app.js:144-150 | for a validated form, the created record keeps the form's salt, and its address is the one the preview derives from the same fields |
| `App.CountWithAddress` | js/app.js:274 | the number of tokens with an address is at most the number of tokens, and equal exactly when every token has one |
| `App.DashboardStats` | js/app.js:268-274 | `totalTokens` is the list length, `totalValue` is 100 per token, and `activeContracts` is at most `totalTokens` |
| `App.CountWithAddressAppend` | js/app.js:274 | appending a token adds one to the count exactly when it has an address |
| `App.StatsAfterCreation` | js/app.js:268-274 | a successful creation raises the dashboard by one token, by 100 in value and by one active contract |
| `App.SCCafeApp.constructor` | js/app.js:4-26 | starts on "home", loads the counters from the history and generates a first salt |
| `App.SCCafeApp.ShowSection` | js/app.js:93-123 | `currentSection` changes only to a section that exists, otherwise it stays; the counters reload exactly when the target is "dashboard" |
| `App.SCCafeApp.LoadDashboardData` | js/app.js:268-278 | the counters are those of the current history |
| `App.SCCafeApp.RefreshTokens` | js/app.js:436-439 | the counters are those of the current history |
| `App.SCCafeApp.UpdatePreview` | js/app.js:205-217 | an address is derived only when salt, name and symbol are all non-empty, and it is DeriveAddress of those fields; otherwise the preview stays |
| `App.SCCafeApp.ValidateForm` | js/app.js:194-203 | the preview is refreshed only when name, symbol and supply are filled in, and then only when there is a salt |
| `App.SCCafeApp.GenerateSalt` | js/app.js:219-226 | the salt field gets a fresh `0x` + 64-hex value and the preview follows it |
| `App.SCCafeApp.CalculateAddress` | js/app.js:228-254 | it refuses exactly when one of name, symbol, supply or salt is empty; otherwise it shows the derived address |
| `App.SCCafeApp.HandleCreateToken` | js/app.js:125-168 | disconnected, or refused by validation: nothing changes. Otherwise the history changes exactly as `createToken` decides. On a result the form is reset and gets a new salt; on null the form stays |
| `Translations.SameKeys` | js/translations.js:7-194 | the Portuguese, English and Chinese tables define the same message ids |
| `Translations.LanguageChangedMissing` | js/translations.js:219 | the Portuguese table has no id "language_changed"; because the keys are the same, the other two have none either |
| `Translations.Lookup` | js/translations.js:223-226 | the current table's entry if present and non-empty; otherwise a non-empty fallback; otherwise the key. The result is empty only when all three are |
| `Translations.InitialLanguage` | js/translations.js:5 | the starting language is never empty: the stored language when one is set and non-empty, otherwise "pt" |
| `Translations.PageTitle` | js/translations.js:237-243 | the English title exactly for "en", the Chinese one exactly for "zh", and the Portuguese one for every other language |
| `Translations.TranslationManager.constructor` | js/translations.js:3-198 | the tables are the three source tables, with the same ids and without "language_changed". The language is the stored one, or "pt" when that is unset or empty, accepted without a check |
| `Translations.TranslationManager.Init` | js/translations.js:200-211 | every translated element gets `translate` of its key, and the title follows the language; this needs a supported language unless the page has no such element |
| `Translations.TranslationManager.ApplyTranslations` | js/translations.js:228-244 | element i gets `translate(key i)`, and the title is PageTitle of the current language |
| `Translations.TranslationManager.Translate` | js/translations.js:223-226 | `translate(key, fallback)` returns either the current table's entry, the fallback or the key itself, and never the empty string for a non-empty key |
| `Translations.TranslationManager.ChangeLanguage` | js/translations.js:214-221 | an unsupported language changes nothing and shows nothing. A supported one always becomes the current language. If the storage write then succeeds, it also becomes the stored language, the page is retranslated, and the toast is the raw id "language_changed": `translate` returns the key, so the literal fallback never shows. If the write throws, nothing is stored, retranslated or shown. A supported current language stays supported |

## Left out

- `Web3.CreateTokenOutcome`: assumes the `translate` call at js/web3.js:190 returns. If the current language has no table, that call throws after the confirmation and before the save, so the catch returns null and nothing is recorded; the model records the token anyway.
- `Web3.Web3Manager.CreateToken`: the same assumption about js/web3.js:190 as `Web3.CreateTokenOutcome`.
- `Web3.Web3Manager.ConnectWallet`: assumes the `translate` calls at js/web3.js:59, :75 and, through `disconnectWallet`, :92 return. With an unsupported language, a missing provider throws instead of answering false. A non-empty account list answers false after the account and chain id were already updated. An empty account list answers false once the account is cleared, before `checkNetwork` at js/web3.js:72 reads the chain id, so the chain id stays as it was.
- `Web3.Web3Manager.CheckNetwork`: assumes the `translate` call at js/web3.js:130 returns. With an unsupported language the wrong-network warning throws out of the catch block instead of only warning.
- `Web3.Web3Manager.DisconnectWallet`: assumes the `translate` call at js/web3.js:92 returns. With an unsupported language it rejects after clearing the account; the state it leaves is the one modelled.
- `App.SCCafeApp.GenerateSalt`: assumes the `translate` call at js/app.js:222 returns. With an unsupported language it throws after writing the salt, and the preview is not refreshed.
- `App.SCCafeApp.CalculateAddress`: assumes the `translate` call at js/app.js:249 returns. With an unsupported language the throw is caught at js/app.js:250, an error toast replaces the success toast, and the state it leaves is the one modelled.
- DOM and presentation: `renderTokensList`, `showToast`, the injected CSS,
  `updateUI`, `showLoading`, the loading overlay and `loadAdminData`'s fixed
  figures. `showSection`'s call to `loadAdminData` is not modelled.
- Event wiring: `setupEventListeners`, the provider's `on(...)` registrations
  and the global `window.*` wrappers. They only dispatch to the modelled
  methods.
- Clipboard: `copyToClipboard` and `navigator.clipboard`.
- Timers: the 2-second delay of the simulated transaction and the 2-second
  delayed `showSection('dashboard')` after a creation.
- Vanilla language selection: the `#languageSelect` element that `init` sets
  and listens to.
- Concurrency: overlapping `createToken` calls and other async interleavings.
  Every call runs to completion before the next.
- The signer (ethers `Web3Provider`/`getSigner`) and the unused `provider`,
  `factoryAddress`, `factoryABI` and `chainConfig` values. They do not affect
  any modelled result.
- JSON: `JSON.parse`/`JSON.stringify` of the history. The storage holds
  decoded records, so a corrupt stored value, which would throw, is not
  modelled.
- `toLocaleString` and `Date`: counters are kept as numbers, and `createdAt`
  is an input string.
- `Math.random` is replaced by supplied nibbles. The source's floating-point
  `Math.floor(Math.random() * 16)` always gives a value in [0, 16).
- `SCCafeApp`'s `tokenData` field is never read. It is not modelled.
- `Web3Manager.constructor`: a rejected `eth_accounts` request during `init`
  leaves the manager disconnected in the model. In the source the rejection
  is unhandled and the event listeners are never registered.
- `JsRuntime.ParseInt`: `parseInt` beyond 2⁵³ loses precision in the source.
  The model keeps exact integers. Only the decimal round trip and the
  minus-sign rule are proved, not a round trip for negative numbers.
- `App.SCCafeApp.HandleCreateToken`: `e.target.reset()` is modelled as
  clearing every input to the empty string. The inputs' HTML default values
  are not part of this model. A `createToken` that throws is not modelled:
  every failure inside it returns null (js/web3.js:206-209).
- `Translations.TranslationManager.ChangeLanguage`: the model accepts exactly
  "pt", "en" and "zh". In the source, a name inherited from
  `Object.prototype` (such as "constructor") also passes the
  `this.translations[language]` test. `translate` can likewise return
  inherited properties for such keys.
- `Translations.TranslationManager.constructor`: JavaScript runs `init()` in
  the constructor. Here it is the separate method `Init`, called right
  after construction.
