# near-cli-rs interactive core, modelled in Dafny

This project models three parts of the NEAR command-line tool (`near-cli-rs`)
and proves properties about them:

- **The add-access-key action builder** (`add_access_key_type`). The CLI
  form of an "add access key" action has an optional public key, an
  optional nonce and an optional permission. Building the domain action
  takes each supplied field unchanged and asks the operator for each
  missing one. A missing permission is picked from a two-item menu: a
  function-call permission or a full-access permission. `process` then
  dispatches the action to the processor for its permission.
- **The login flow** (`import_account`). It builds the wallet's
  authorization URL for a newly generated key. Then it loops: read an
  account id, verify the key against it on chain, and on failure ask the
  operator whether to re-enter the id or keep the unverified one. Finally
  it stores the key exactly once, in the macOS keychain or in the legacy
  file store.
- **Viewing an account at a block height** (`block_id_height`). This
  covers the optional height of the CLI form, its argument list and both
  conversions, plus the text printed about the account and its access
  keys: the contract-code line, the permission messages, and the key
  count with its numbered key lines.

Everything outside these rules is an oracle passed in as a parameter:
terminal prompts, RPC answers, key generation, public-key parsing, the
browser and the credential stores. Prompts that the builders may show
are given as the answer the operator would type. Each builder reports
which prompts it actually showed. The login loop's terminal and ledger
are a script of `Attempt`s, one per pass. Running off the end of the
script counts as the input stream closing.

Files:

- `wrappers.dfy`: `Option` and `Result`.
- `primitives.dfy`: the `u64` type, and its decimal `to_string` and parse.
- `add_access_key_type.dfy`: module `AddAccessKeyType`, pure functions.
- `import_account.dfy`: module `ImportAccount`. It holds a mutable `Url`
  class, the loop as a method proved against a recursive specification,
  and `SaveAccessKey` and `Login` as methods.
- `block_id_height.dfy`: module `BlockIdHeightView`. `to_cli_args` and
  the key listing are methods; the conversions and messages are functions.

Three points about what the code does:

- The URL is built with `Url::join("login/")`, not by concatenation.
  `Join` models the join as the merge of section 5.2.3 of RFC 3986 for a
  base whose path is not empty.
- Verification failure is a single "not verified" outcome (`is_err`).
  The code does not tell a missing key from a transport error.
- Choosing the macOS keychain returns early. The file store is then not
  written.

## Model

| member | source | states |
|---|---|---|
| `AddAccessKeyType.ActionFrom` | src/construct_transaction_command/transaction_actions/add_access_key_type/mod.rs:42-62 | each supplied field (public key, nonce, permission) is used unchanged and its prompt is shown iff the field is missing; a missing field takes the operator's answer; any u64 nonce is accepted; the result is always a complete action |
| `AddAccessKeyType.FullySuppliedActionAsksNothing` | src/construct_transaction_command/transaction_actions/add_access_key_type/mod.rs:44-60 | a fully supplied CLI action yields exactly its fields with no prompt at all |
| `AddAccessKeyType.PermissionFrom` | src/construct_transaction_command/transaction_actions/add_access_key_type/mod.rs:108-122 | the CLI permission's variant is kept, and its payload goes to that variant's own conversion |
| `AddAccessKeyType.PermissionLabels` | src/construct_transaction_command/transaction_actions/add_access_key_type/mod.rs:126-130 | one menu label per variant, each variant's message, in the variants' order |
| `AddAccessKeyType.PermissionMenuOrder` | src/construct_transaction_command/transaction_actions/add_access_key_type/mod.rs:33-40 | the menu reads "A permission with function call" then "A permission with full access"; every variant appears once; the default item 0 is function call with default sub-arguments |
| `AddAccessKeyType.ChoosePermission` | src/construct_transaction_command/transaction_actions/add_access_key_type/mod.rs:124-141 | menu item i yields the i-th declared variant with default (nothing supplied) sub-arguments |
| `AddAccessKeyType.MenuChoiceResolvesDefaults` | src/construct_transaction_command/transaction_actions/add_access_key_type/mod.rs:52-60 | a permission picked from the menu is resolved as if that variant had been named with none of its fields supplied |
| `AddAccessKeyType.Process` | src/construct_transaction_command/transaction_actions/add_access_key_type/mod.rs:64-93 | full access goes to the full-access processor and function call to the function-call processor; each gets the action's own nonce and public key, and the transaction and server URL unchanged |
| `AddAccessKeyType.ProcessRoutesBuiltAction` | src/construct_transaction_command/transaction_actions/add_access_key_type/mod.rs:71-92 | building and then processing reaches the processor of the supplied or chosen variant with the supplied or answered nonce and key |
| `ImportAccount.Url.constructor` | src/commands/account/import_account/mod.rs:25 | a new URL has the given base and no query pairs |
| `ImportAccount.Url.AppendPair` | src/commands/account/import_account/mod.rs:26-28 | a pair is added after the existing ones and the base is unchanged |
| `ImportAccount.Join` | src/commands/account/import_account/mod.rs:25 | joining succeeds iff the base has a '/'; the reference replaces what follows the last '/'; a base ending in '/' gets the reference appended |
| `ImportAccount.AccountLoop` | src/commands/account/import_account/mod.rs:41-71 | every pass before the last re-entered after a failed verification; the loop ends with the id read in its last pass, which was either verified or kept with "No", or else with that pass's prompt error |
| `ImportAccount.PromptUntilAccepted` | src/commands/account/import_account/mod.rs:41-71 | the loop's outcome is the one `AccountLoop` specifies |
| `ImportAccount.MenuOnlyAfterFailedVerification` | src/commands/account/import_account/mod.rs:44-70 | menu answers on passes whose id was verified have no effect: the menu is shown only after a failed verification |
| `ImportAccount.SaveAnywayKeepsFirstId` | src/commands/account/import_account/mod.rs:60-67 | a first id that fails verification and is kept with "No" is the id the loop returns |
| `ImportAccount.ChosenBackend` | src/commands/account/import_account/mod.rs:92-117 | without the macOS branch the file store is used unconditionally; with it, the keychain menu's answer (or its error) decides |
| `ImportAccount.Stored` | src/commands/account/import_account/mod.rs:103-126 | a store succeeds iff its write does, with the store's own confirmation message; a failure is the store's error wrapped in the message naming that store |
| `ImportAccount.SaveAccessKey` | src/commands/account/import_account/mod.rs:86-129 | exactly one write, to the chosen backend, with the given account id and key pair; none if the keychain menu failed; success implies a write |
| `ImportAccount.Login` | src/commands/account/import_account/mod.rs:19-80 | the URL shown is the joined "login/" with exactly title=NEAR CLI then public_key=<key>; any earlier error propagates with nothing saved; a loop abort saves nothing; otherwise one write with the account id the loop produced; the browser's outcome changes nothing |
| `BlockIdHeightView.ToCliArgs` | src/commands/view_command/view_account/block_id/block_id_height/mod.rs:14-22 | no height gives no argument; a height gives exactly one argument, its decimal text; parsing the arguments back yields the same CLI value |
| `BlockIdHeightView.CliFrom` | src/commands/view_command/view_account/block_id/block_id_height/mod.rs:24-30 | the CLI form of a height holds exactly that height |
| `BlockIdHeightView.HeightFrom` | src/commands/view_command/view_account/block_id/block_id_height/mod.rs:32-40 | a supplied height is used unchanged and the prompt is consulted iff the height is missing |
| `BlockIdHeightView.HeightRoundTrip` | src/commands/view_command/view_account/block_id/block_id_height/mod.rs:24-40 | height to CLI form and back gives the same height without prompting |
| `BlockIdHeightView.CodeHashMessage` | src/commands/view_command/view_account/block_id/block_id_height/mod.rs:109-116 | "not deployed" iff the hash is the all-zero default; otherwise the checksum line with the hex of the hash |
| `BlockIdHeightView.DisplayAccountInfo` | src/commands/view_command/view_account/block_id/block_id_height/mod.rs:66-118 | fails iff the query failed (with its message) or the answer is of the wrong kind ("Error call result"); otherwise prints the details line (account id, block height and hash, balance, stake, storage), then the contract-code line |
| `BlockIdHeightView.PermissionMessage` | src/commands/view_command/view_account/block_id/block_id_height/mod.rs:153-174 | "full access" exactly for full access; a function call names its methods and receiver, ending "with no limit" or "with an allowance of <balance>" |
| `BlockIdHeightView.DisplayAccessKeyList` | src/commands/view_command/view_account/block_id/block_id_height/mod.rs:120-184 | fails iff the query failed or the answer is of the wrong kind, printing nothing; otherwise one count line and then one line per key, line i+1 describing key i under number i+1 |
| `BlockIdHeightView.ListKeys` | src/commands/view_command/view_account/block_id/block_id_height/mod.rs:151-182 | the listing is the key count followed by exactly one line per key, the line for key i (in list order) carrying number i+1 |
| `BlockIdHeightView.KeyLineNumber` | src/commands/view_command/view_account/block_id/block_id_height/mod.rs:175-181 | the number read at the start of the line for key n (after its padding) is n |
| `BlockIdHeightView.KeyCountReadsBack` | src/commands/view_command/view_account/block_id/block_id_height/mod.rs:151 | the printed key count reads back as the number of keys |
| `BlockIdHeightView.ListingNumbersKeys` | src/commands/view_command/view_account/block_id/block_id_height/mod.rs:152-182 | keys are numbered 1..n in list order, one line each |
| `BlockIdHeightView.Process` | src/commands/view_command/view_account/block_id/block_id_height/mod.rs:54-64 | account details first and then access keys, both queried at the viewed height; a failure in the first stops the second; on success the output is the two account lines, the count line and each key's numbered line; a key-list failure passes its error on unchanged and leaves only the two account lines |
| `Primitives.DecimalString` | src/commands/view_command/view_account/block_id/block_id_height/mod.rs:18 | the decimal text of a height is all digits, non-empty, without a leading zero |
| `Primitives.ParseDecimalString` | src/commands/view_command/view_account/block_id/block_id_height/mod.rs:18 | the decimal text of a number reads back as that number |
| `Primitives.U64TextRoundTrip` | src/commands/view_command/view_account/block_id/block_id_height/mod.rs:18 | every u64 survives to_string followed by parse |

## Left out

- Terminal prompts (`dialoguer`, `inquire`) are left out as behaviour. They are modelled only by the answers they return; re-prompting on unparsable input and the panics of `.unwrap()` are outside the model.
- The per-variant conversions and processors (`function_call_type`, `full_access_type`) are not part of this model. Their conversions are function parameters (`SubBuilders`), and their payloads carry only an allowance, a receiver id and method names.
- RPC (`JsonRpcClient`, `archival_rpc_url`, `verify_account_access_key`) is reduced to the answers it gives. A query's error appears as the text of its Debug rendering.
- Key generation and `PublicKey::from_str` are reduced to their results (`keyGen`, `keyParse`).
- The credential writes to the keychain and the file store are left out. They are represented by their outcome (`StoreOracle`) and by the request handed to them (`SaveRequest`). Atomicity and last-write-wins are properties of code that is not part of this model.
- Opening the browser is left out; the model ignores its result, as the code does.
- Printing is modelled only for the account view, as the returned lines. The login flow's informational messages are not modelled.
- `NearBalance::from_yoctonear`, `hex::encode` and the `{:?}` rendering of method names are uninterpreted functions (`Formatter`).
- Join: models only a path-only reference, ignoring the base's query, fragment and dot segments, and the merge rule's first case (a base with an authority and an empty path gives "/" followed by the reference). A string without any '/' stands for a URL that cannot be a base; this only approximates "cannot be a base": a cannot-be-a-base URL that contains '/' (such as `data:text/plain,x`) is joined by the model, where the code fails.
- Login: the URL is modelled as its base and its ordered query pairs. The form-urlencoding of values and `as_str` serialisation are library behaviour and are left out.
- Login: running out of scripted passes is modelled as an input-stream error, where the real terminal would wait forever.
- Async execution and the clap/interactive_clap wiring are left out.
