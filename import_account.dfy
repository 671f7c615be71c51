/** The `login` flow of `account import-account`: build the wallet's
    authorization URL for a freshly generated key, then ask for an account id
    until it is either verified on chain or accepted by the operator without
    verification, then store the key once, in a backend picked by platform
    and menu choice.

    Every outside collaborator is an oracle given as a parameter: the key
    generator's result, the public-key parser's verdict, the browser, the
    terminal and verifier (one `Attempt` per pass of the loop) and the
    credential stores (`StoreOracle`). */
module ImportAccount {
  import opened Wrappers

  datatype NetworkConfig = NetworkConfig(networkName: string, walletUrl: string)

  /** The generated key pair, by the text forms the flow handles. */
  datatype KeyPairProperties = KeyPairProperties(publicKeyStr: string, secretKeyStr: string)

  /** A URL as the flow uses it: everything before the query, and the
      query's name/value pairs in order (their form-encoding is not modelled). */
  datatype UrlValue = UrlValue(base: string, query: seq<(string, string)>)

  /** The mutable URL that `login` extends with `append_pair`. */
  class Url {
    var base: string
    var query: seq<(string, string)>

    constructor (base: string)
      ensures this.base == base && query == []
    {
      this.base := base;
      query := [];
    }

    /** Adds one query pair after those already present. */
    method AppendPair(name: string, value: string)
      modifies this
      ensures base == old(base)
      ensures query == old(query) + [(name, value)]
    {
      query := query + [(name, value)];
    }

    function Value(): UrlValue
      reads this
    {
      UrlValue(base, query)
    }
  }

  /** The part of `s` up to and including its last '/', or empty. */
  function DirectoryOf(s: string): (d: string)
    ensures d <= s
    ensures d == [] || d[|d| - 1] == '/'
    ensures forall i :: |d| <= i < |s| ==> s[i] != '/'
    ensures d == [] <==> '/' !in s
    decreases |s|
  {
    if s == [] then [] else if s[|s| - 1] == '/' then s else DirectoryOf(s[..|s| - 1])
  }

  /** `Url::join` with a relative path reference: the reference replaces
      whatever follows the base's last '/' (the merge of section 5.2.3 of
      RFC 3986). A base without any '/' stands for one that cannot be a
      base, and joining it fails with the url crate's message for that. */
  function Join(base: string, reference: string): (r: Result<string, string>)
    ensures r.Success? <==> '/' in base
    ensures r.Success? ==> r.value == DirectoryOf(base) + reference
    ensures |base| > 0 && base[|base| - 1] == '/' ==> r == Success(base + reference)
  {
    var dir := DirectoryOf(base);
    if dir == [] then Failure("relative URL with a cannot-be-a-base base")
    else Success(dir + reference)
  }

  const LoginPath := "login/"
  const ProductTitle := "NEAR CLI"

  /** One pass of the account-id loop as the terminal and the ledger answer
      it: the account id typed (or the prompt's error), whether the key
      could be verified for it, and the answer the re-enter menu would get. */
  datatype Attempt = Attempt(
    accountId: Result<string, string>,
    verified: bool,
    reenter: Result<ConfirmOption, string>)

  /** The re-enter menu: "Yes" asks again, "No" keeps the unverified id. */
  datatype ConfirmOption = Yes | No

  /** How the loop ended, and at which pass (counted from 0). */
  datatype LoopExit =
    | Chosen(accountId: string, at: nat)
    | Aborted(error: string, at: nat)

  /** The error reported when the terminal has no more answers. */
  const InputClosed := "input stream closed"

  /** The pass goes round again: an id was typed, could not be verified,
      and the operator chose to re-enter it. */
  predicate Retries(a: Attempt) {
    a.accountId.Success? && !a.verified && a.reenter == Success(Yes)
  }

  /** The pass ends the loop with the id it read. */
  predicate Accepts(a: Attempt) {
    a.accountId.Success? && (a.verified || a.reenter == Success(No))
  }

  /** The pass ends the loop with a prompt error. */
  predicate AbortsWith(a: Attempt, e: string) {
    a.accountId == Failure(e) || (a.accountId.Success? && !a.verified && a.reenter == Failure(e))
  }

  /** The loop, from pass `from` on: every pass before the one that ends it
      went round again; it ends with the id read in its last pass, or with
      that pass's prompt error. */
  function AccountLoop(script: seq<Attempt>, from: nat): (exit: LoopExit)
    requires from <= |script|
    ensures from <= exit.at <= |script|
    ensures forall j :: from <= j < exit.at ==> Retries(script[j])
    ensures exit.Chosen? ==>
      exit.at < |script| && Accepts(script[exit.at]) && script[exit.at].accountId == Success(exit.accountId)
    ensures exit.Aborted? ==>
      (exit.at == |script| && exit.error == InputClosed) ||
      (exit.at < |script| && AbortsWith(script[exit.at], exit.error))
    decreases |script| - from
  {
    if from == |script| then Aborted(InputClosed, from)
    else
      var a := script[from];
      match a.accountId
      case Failure(e) => Aborted(e, from)
      case Success(id) =>
        if a.verified then Chosen(id, from)
        else
          match a.reenter
          case Failure(e) => Aborted(e, from)
          case Success(No) => Chosen(id, from)
          case Success(Yes) => AccountLoop(script, from + 1)
  }

  /** The `loop` of `login`: read an id, verify it, and on failure ask
      whether to re-enter it. */
  method PromptUntilAccepted(script: seq<Attempt>) returns (exit: LoopExit)
    ensures exit == AccountLoop(script, 0)
  {
    var k := 0;
    while true
      invariant k <= |script|
      invariant AccountLoop(script, k) == AccountLoop(script, 0)
      decreases |script| - k
    {
      if k == |script| {
        return Aborted(InputClosed, k);
      }
      var attempt := script[k];
      match attempt.accountId {
        case Failure(e) =>
          return Aborted(e, k);
        case Success(id) =>
          if attempt.verified {
            return Chosen(id, k);
          }
          match attempt.reenter {
            case Failure(e) =>
              return Aborted(e, k);
            case Success(choice) =>
              if choice == No {
                return Chosen(id, k);
              }
          }
      }
      k := k + 1;
    }
  }

  /** Two scripts that differ only in menu answers of passes whose id was
      verified: the menu is never shown after a successful verification. */
  predicate SameExceptUnusedMenus(s1: seq<Attempt>, s2: seq<Attempt>) {
    && |s1| == |s2|
    && forall j :: 0 <= j < |s1| ==>
         && s1[j].accountId == s2[j].accountId
         && s1[j].verified == s2[j].verified
         && (!s1[j].verified ==> s1[j].reenter == s2[j].reenter)
  }

  /** (It follows from the characterisation in `AccountLoop`'s contract,
      which pins down the exit from the scripts' shared parts alone.) */
  lemma MenuOnlyAfterFailedVerification(s1: seq<Attempt>, s2: seq<Attempt>, from: nat)
    requires SameExceptUnusedMenus(s1, s2)
    requires from <= |s1|
    ensures AccountLoop(s1, from) == AccountLoop(s2, from)
  {
  }

  /** The two stores the macOS keychain menu offers. */
  datatype Keychain = MacosKeychain | LegacyKeychain

  /** The platform and the stores: whether the macOS branch is compiled in,
      the keychain menu's answer, and how each store's write turns out
      (a confirmation message, or the store's error). */
  datatype StoreOracle = StoreOracle(
    isMacos: bool,
    keychainChoice: Result<Keychain, string>,
    keychainWrite: Result<string, string>,
    fileWrite: Result<string, string>)

  /** A write handed to a credential store. */
  datatype SaveRequest =
    | KeychainSave(network: NetworkConfig, keyPair: KeyPairProperties, accountId: string)
    | FileSave(network: NetworkConfig, credentialsHome: string, keyPair: KeyPairProperties, accountId: string)

  /** The backend used: the legacy file store unless the macOS branch is
      compiled in, in which case the operator's menu answer (or its error). */
  function ChosenBackend(store: StoreOracle): (r: Result<Keychain, string>)
    ensures !store.isMacos ==> r == Success(LegacyKeychain)
    ensures store.isMacos ==> r == store.keychainChoice
  {
    if store.isMacos then store.keychainChoice else Success(LegacyKeychain)
  }

  function RequestFor(backend: Keychain, accountId: string, keyPair: KeyPairProperties,
                      network: NetworkConfig, credentialsHome: string): SaveRequest
  {
    match backend
    case MacosKeychain => KeychainSave(network, keyPair, accountId)
    case LegacyKeychain => FileSave(network, credentialsHome, keyPair, accountId)
  }

  /** A store's outcome, its error wrapped in the message naming the store. */
  function Stored(backend: Keychain, store: StoreOracle): (r: Result<string, string>)
    ensures backend == MacosKeychain ==> r.Success? == store.keychainWrite.Success?
    ensures backend == LegacyKeychain ==> r.Success? == store.fileWrite.Success?
    ensures backend == MacosKeychain && store.keychainWrite.Failure? ==>
      r == Failure("Failed to save the access key to the keychain: " + store.keychainWrite.error)
    ensures backend == LegacyKeychain && store.fileWrite.Failure? ==>
      r == Failure("Failed to save a file with access key: " + store.fileWrite.error)
    ensures r.Success? ==>
      r.value == (if backend == MacosKeychain then store.keychainWrite.value else store.fileWrite.value)
  {
    match backend
    case MacosKeychain =>
      (match store.keychainWrite
       case Success(message) => Success(message)
       case Failure(e) => Failure("Failed to save the access key to the keychain: " + e))
    case LegacyKeychain =>
      (match store.fileWrite
       case Success(message) => Success(message)
       case Failure(e) => Failure("Failed to save a file with access key: " + e))
  }

  /** `save_access_key`: exactly one write, to the chosen backend, unless
      the keychain menu itself failed; on success the store's confirmation
      message is what gets printed. */
  method SaveAccessKey(accountId: string, keyPair: KeyPairProperties, network: NetworkConfig,
                       credentialsHome: string, store: StoreOracle)
    returns (written: Option<SaveRequest>, r: Result<string, string>)
    ensures ChosenBackend(store).Failure? ==>
      written == None && r == Failure(ChosenBackend(store).error)
    ensures ChosenBackend(store).Success? ==>
      && written == Some(RequestFor(ChosenBackend(store).value, accountId, keyPair, network, credentialsHome))
      && r == Stored(ChosenBackend(store).value, store)
    ensures written.Some? ==> written.value.accountId == accountId && written.value.keyPair == keyPair
    ensures written.Some? && written.value.KeychainSave? ==> store.isMacos
    ensures r.Success? ==> written.Some?
  {
    if store.isMacos {
      match store.keychainChoice {
        case Failure(e) =>
          return None, Failure(e);
        case Success(selection) =>
          if selection == MacosKeychain {
            written := Some(KeychainSave(network, keyPair, accountId));
            r := Stored(MacosKeychain, store);
            return;
          }
      }
    }
    written := Some(FileSave(network, credentialsHome, keyPair, accountId));
    r := Stored(LegacyKeychain, store);
  }

  /** The steps before the loop all succeed. */
  predicate ReachesLoop(network: NetworkConfig, keyGen: Result<KeyPairProperties, string>, keyParse: Result<(), string>) {
    keyGen.Success? && Join(network.walletUrl, LoginPath).Success? && keyParse.Success?
  }

  /** `login`. `shown` is the URL printed and handed to the browser,
      `written` the one store write, `r` the outcome (on success, the
      store's confirmation message). Whether the browser opened has no
      bearing on any of them. */
  method Login(network: NetworkConfig, credentialsHome: string,
               keyGen: Result<KeyPairProperties, string>, keyParse: Result<(), string>,
               browserOpened: bool, script: seq<Attempt>, store: StoreOracle)
    returns (shown: Option<UrlValue>, written: Option<SaveRequest>, r: Result<string, string>)
    ensures keyGen.Failure? ==> shown == None && written == None && r == Failure(keyGen.error)
    ensures keyGen.Success? && Join(network.walletUrl, LoginPath).Failure? ==>
      shown == None && written == None && r == Failure(Join(network.walletUrl, LoginPath).error)
    ensures keyGen.Success? && Join(network.walletUrl, LoginPath).Success? ==>
      shown == Some(UrlValue(Join(network.walletUrl, LoginPath).value,
                             [("title", ProductTitle), ("public_key", keyGen.value.publicKeyStr)]))
    ensures keyGen.Success? && Join(network.walletUrl, LoginPath).Success? && keyParse.Failure? ==>
      written == None && r == Failure(keyParse.error)
    ensures ReachesLoop(network, keyGen, keyParse) && AccountLoop(script, 0).Aborted? ==>
      written == None && r == Failure(AccountLoop(script, 0).error)
    ensures ReachesLoop(network, keyGen, keyParse) && AccountLoop(script, 0).Chosen? ==>
      var id := AccountLoop(script, 0).accountId;
      match ChosenBackend(store)
      case Failure(e) => written == None && r == Failure(e)
      case Success(b) =>
        written == Some(RequestFor(b, id, keyGen.value, network, credentialsHome)) && r == Stored(b, store)
    ensures written.Some? ==>
      && ReachesLoop(network, keyGen, keyParse) && AccountLoop(script, 0).Chosen?
      && written.value.accountId == AccountLoop(script, 0).accountId
      && written.value.keyPair == keyGen.value
    ensures r.Success? ==> written.Some?
  {
    shown, written := None, None;
    if keyGen.Failure? {
      r := Failure(keyGen.error);
      return;
    }
    var keyPair := keyGen.value;
    var joined := Join(network.walletUrl, LoginPath);
    if joined.Failure? {
      r := Failure(joined.error);
      return;
    }
    var url := new Url(joined.value);
    url.AppendPair("title", ProductTitle);
    url.AppendPair("public_key", keyPair.publicKeyStr);
    assert url.query == [("title", ProductTitle), ("public_key", keyPair.publicKeyStr)];
    shown := Some(url.Value());
    // The browser is asked to open `url`; its answer is dropped.
    if keyParse.Failure? {
      r := Failure(keyParse.error);
      return;
    }
    var exit := PromptUntilAccepted(script);
    if exit.Aborted? {
      r := Failure(exit.error);
      return;
    }
    written, r := SaveAccessKey(exit.accountId, keyPair, network, credentialsHome, store);
  }

  /** A first pass whose id cannot be verified, answered with "No", ends
      the loop with that very id, whatever the rest of the script holds. */
  lemma SaveAnywayKeepsFirstId(id: string, rest: seq<Attempt>)
    ensures AccountLoop([Attempt(Success(id), false, Success(No))] + rest, 0) == Chosen(id, 0)
  {
  }
}
