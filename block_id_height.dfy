/** Viewing an account at a given block height: the optional height of the
    CLI form and its conversions, and what is printed about the account and
    its access keys. The RPC answers are given as values, and the formatting
    helpers (`NearBalance`, `hex::encode`, `{:?}` of a list) as functions in
    a `Formatter`. */
module BlockIdHeightView {
  import opened Wrappers
  import opened Primitives

  datatype CliBlockIdHeight = CliBlockIdHeight(blockIdHeight: Option<u64>)

  datatype BlockIdHeight = BlockIdHeight(blockIdHeight: u64)

  /** `to_cli_args`: the height, if any, as the one argument, in decimal;
      reading the arguments back gives the same CLI value. */
  method ToCliArgs(cli: CliBlockIdHeight) returns (args: seq<string>)
    ensures cli.blockIdHeight.None? ==> args == []
    ensures cli.blockIdHeight.Some? ==> args == [DecimalString(cli.blockIdHeight.value as nat)]
    ensures ParseCliArgs(args) == Success(cli)
  {
    args := [];
    if cli.blockIdHeight.Some? {
      var height := cli.blockIdHeight.value;
      args := [DecimalString(height as nat)] + args;
      U64TextRoundTrip(height);
    }
  }

  /** Reading the optional positional height back from arguments. */
  function ParseCliArgs(args: seq<string>): (r: Result<CliBlockIdHeight, string>)
    ensures r.Success? ==> |args| <= 1
    ensures args == [] ==> r == Success(CliBlockIdHeight(None))
  {
    if args == [] then Success(CliBlockIdHeight(None))
    else if |args| > 1 then Failure("unexpected argument")
    else
      match ParseU64(args[0])
      case Success(height) => Success(CliBlockIdHeight(Some(height)))
      case Failure(e) => Failure(e)
  }

  /** `From<BlockIdHeight> for CliBlockIdHeight`. */
  function CliFrom(b: BlockIdHeight): (c: CliBlockIdHeight)
    ensures c.blockIdHeight == Some(b.blockIdHeight)
  {
    CliBlockIdHeight(Some(b.blockIdHeight))
  }

  /** `From<CliBlockIdHeight> for BlockIdHeight`: the supplied height, or the
      height typed at the prompt; the flag tells whether it was asked. */
  function HeightFrom(item: CliBlockIdHeight, typed: u64): (r: (BlockIdHeight, bool))
    ensures r.1 <==> item.blockIdHeight.None?
    ensures item.blockIdHeight.Some? ==> r.0.blockIdHeight == item.blockIdHeight.value
    ensures item.blockIdHeight.None? ==> r.0.blockIdHeight == typed
  {
    match item.blockIdHeight
    case Some(height) => (BlockIdHeight(height), false)
    case None => (BlockIdHeight(typed), true)
  }

  /** Going to the CLI form and back keeps the height and asks nothing. */
  lemma HeightRoundTrip(b: BlockIdHeight, typed: u64)
    ensures HeightFrom(CliFrom(b), typed) == (b, false)
  {
  }

  /** The queries made, each at the block of the viewed height. */
  datatype QueryRequest = ViewAccount(accountId: string) | ViewAccessKeyList(accountId: string)

  datatype RpcQuery = RpcQuery(atHeight: u64, request: QueryRequest)

  type CryptoHash = s: seq<bv8> | |s| == 32 witness seq(32, _ => 0 as bv8)

  const DefaultCryptoHash: CryptoHash := seq(32, _ => 0 as bv8)

  datatype AccountView = AccountView(amount: nat, locked: nat, codeHash: CryptoHash, storageUsage: u64)

  datatype AccessKeyPermissionView =
    | FullAccess
    | FunctionCall(allowance: Option<nat>, receiverId: string, methodNames: seq<string>)

  datatype AccessKeyInfoView = AccessKeyInfoView(publicKey: string, nonce: u64, permission: AccessKeyPermissionView)

  datatype QueryResponseKind =
    | ViewAccountKind(account: AccountView)
    | AccessKeyListKind(keys: seq<AccessKeyInfoView>)
    | OtherKind

  datatype QueryResponse = QueryResponse(kind: QueryResponseKind, blockHeight: u64, blockHash: string)

  /** Rendering helpers from other crates. */
  datatype Formatter = Formatter(
    balance: nat -> string,
    hex: CryptoHash -> string,
    debugList: seq<string> -> string)

  const NotDeployedMessage := "Contract code is not deployed to this account."
  const ChecksumPrefix := "Contract code SHA-256 checksum (hex): "
  const WrongKindError := "Error call result"

  /** The contract line: "not deployed" exactly for the all-zero hash. */
  function CodeHashMessage(hash: CryptoHash, fmt: Formatter): (m: string)
    ensures m == NotDeployedMessage <==> hash == DefaultCryptoHash
    ensures hash != DefaultCryptoHash ==> m == ChecksumPrefix + fmt.hex(hash)
  {
    if hash == DefaultCryptoHash then NotDeployedMessage
    else
      assert (ChecksumPrefix + fmt.hex(hash))[14] != NotDeployedMessage[14];
      ChecksumPrefix + fmt.hex(hash)
  }

  function AccountDetails(accountId: string, response: QueryResponse, account: AccountView, fmt: Formatter): string {
    "Account details for '" + accountId + "' at block #" + DecimalString(response.blockHeight as nat)
    + " (" + response.blockHash + ")\n"
    + "Native account balance: " + fmt.balance(account.amount) + "\n"
    + "Validator stake: " + fmt.balance(account.locked) + "\n"
    + "Storage used by the account: " + DecimalString(account.storageUsage as nat) + " bytes"
  }

  /** `display_account_info` from the RPC answer on: a transport error or an
      answer of another kind fails with its message; otherwise the details
      and then the contract line are printed. */
  function DisplayAccountInfo(accountId: string, response: Result<QueryResponse, string>, fmt: Formatter)
    : (r: Result<seq<string>, string>)
    ensures r.Failure? <==> response.Failure? || !response.value.kind.ViewAccountKind?
    ensures response.Failure? ==> r.error == "Failed to fetch query for view account: " + response.error
    ensures response.Success? && !response.value.kind.ViewAccountKind? ==> r.error == WrongKindError
    ensures r.Success? ==>
      && |r.value| == 2
      && r.value[0] == AccountDetails(accountId, response.value, response.value.kind.account, fmt)
      && r.value[1] == CodeHashMessage(response.value.kind.account.codeHash, fmt)
  {
    match response
    case Failure(e) => Failure("Failed to fetch query for view account: " + e)
    case Success(answer) =>
      match answer.kind
      case ViewAccountKind(account) =>
        Success([AccountDetails(accountId, answer, account, fmt), CodeHashMessage(account.codeHash, fmt)])
      case _ => Failure(WrongKindError)
  }

  predicate StartsWith(s: string, prefix: string) {
    |prefix| <= |s| && s[..|prefix|] == prefix
  }

  predicate EndsWith(s: string, suffix: string) {
    |suffix| <= |s| && s[|s| - |suffix|..] == suffix
  }

  /** What a key is granted: "full access", or which calls on which receiver
      with which allowance ("with no limit" when there is none). */
  function PermissionMessage(p: AccessKeyPermissionView, fmt: Formatter): (m: string)
    ensures m == "full access" <==> p.FullAccess?
    ensures p.FunctionCall? ==>
      StartsWith(m, "only do " + fmt.debugList(p.methodNames) + " function calls on " + p.receiverId + " ")
    ensures p.FunctionCall? && p.allowance.None? ==> EndsWith(m, "with no limit")
    ensures p.FunctionCall? && p.allowance.Some? ==>
      EndsWith(m, "with an allowance of " + fmt.balance(p.allowance.value))
  {
    match p
    case FullAccess => "full access"
    case FunctionCall(allowance, receiverId, methodNames) =>
      var head := "only do " + fmt.debugList(methodNames) + " function calls on " + receiverId + " ";
      var tail := match allowance
        case Some(amount) => "with an allowance of " + fmt.balance(amount)
        case None => "with no limit";
      assert (head + tail)[0] == 'o';
      assert (head + tail)[..|head|] == head;
      assert (head + tail)[|head + tail| - |tail|..] == tail;
      head + tail
  }

  function Spaces(k: nat): (s: string)
    ensures |s| == k && forall i :: 0 <= i < k ==> s[i] == ' '
  {
    seq(k, _ => ' ')
  }

  /** `{: >4}`: right-aligned in a field four characters wide. */
  function PadLeft(s: string, width: nat): string {
    if |s| < width then Spaces(width - |s|) + s else s
  }

  function KeyCountLine(count: nat): string {
    "Number of access keys: " + DecimalString(count)
  }

  /** `{: >4}. {} (nonce: {}) is granted to {}` for key number `number`. */
  function KeyLine(number: nat, key: AccessKeyInfoView, fmt: Formatter): string {
    PadLeft(DecimalString(number), 4) + KeyDescription(key, fmt)
  }

  function KeyDescription(key: AccessKeyInfoView, fmt: Formatter): (d: string)
    ensures d != [] && d[0] == '.'
  {
    var d := ". " + key.publicKey + " (nonce: " + DecimalString(key.nonce as nat)
      + ") is granted to " + PermissionMessage(key.permission, fmt);
    assert d[0] == '.';
    d
  }

  /** `display_access_key_list` from the RPC answer on: the key count, then
      one line per key, numbered from 1 in list order. */
  method DisplayAccessKeyList(response: Result<QueryResponse, string>, fmt: Formatter)
    returns (lines: seq<string>, r: Result<(), string>)
    ensures r.Failure? <==> response.Failure? || !response.value.kind.AccessKeyListKind?
    ensures response.Failure? ==> r.error == "Failed to fetch query for view key list: " + response.error
    ensures response.Success? && !response.value.kind.AccessKeyListKind? ==> r.error == WrongKindError
    ensures r.Failure? ==> lines == []
    ensures r.Success? ==>
      var keys := response.value.kind.keys;
      && |lines| == |keys| + 1
      && lines[0] == KeyCountLine(|keys|)
      && forall i :: 0 <= i < |keys| ==> lines[i + 1] == KeyLine(i + 1, keys[i], fmt)
  {
    lines := [];
    if response.Failure? {
      return lines, Failure("Failed to fetch query for view key list: " + response.error);
    }
    if !response.value.kind.AccessKeyListKind? {
      return lines, Failure(WrongKindError);
    }
    lines := ListKeys(response.value.kind.keys, fmt);
    r := Success(());
  }

  /** The loop of `display_access_key_list`: the count, then each key under
      its 1-based position. */
  method ListKeys(keys: seq<AccessKeyInfoView>, fmt: Formatter) returns (lines: seq<string>)
    ensures |lines| == |keys| + 1
    ensures lines[0] == KeyCountLine(|keys|)
    ensures forall i :: 0 <= i < |keys| ==> lines[i + 1] == KeyLine(i + 1, keys[i], fmt)
  {
    lines := [KeyCountLine(|keys|)];
    for index := 0 to |keys|
      invariant |lines| == index + 1
      invariant lines[0] == KeyCountLine(|keys|)
      invariant forall i :: 0 <= i < index ==> lines[i + 1] == KeyLine(i + 1, keys[i], fmt)
    {
      lines := lines + [KeyLine(index + 1, keys[index], fmt)];
    }
  }

  /** `BlockIdHeight::process`: the account's details, then its access keys,
      both queried at the viewed height; the first failure stops the rest. */
  method Process(self: BlockIdHeight, accountId: string,
                 accountResponse: Result<QueryResponse, string>,
                 keysResponse: Result<QueryResponse, string>, fmt: Formatter)
    returns (queries: seq<RpcQuery>, output: seq<string>, r: Result<(), string>)
    ensures |queries| >= 1 && queries[0] == RpcQuery(self.blockIdHeight, ViewAccount(accountId))
    ensures DisplayAccountInfo(accountId, accountResponse, fmt).Failure? ==>
      && queries == [RpcQuery(self.blockIdHeight, ViewAccount(accountId))]
      && output == []
      && r == Failure(DisplayAccountInfo(accountId, accountResponse, fmt).error)
    ensures DisplayAccountInfo(accountId, accountResponse, fmt).Success? ==>
      && queries == [RpcQuery(self.blockIdHeight, ViewAccount(accountId)),
                     RpcQuery(self.blockIdHeight, ViewAccessKeyList(accountId))]
      && |output| >= 2 && output[..2] == DisplayAccountInfo(accountId, accountResponse, fmt).value
    ensures r.Success? ==>
      && DisplayAccountInfo(accountId, accountResponse, fmt).Success?
      && keysResponse.Success? && keysResponse.value.kind.AccessKeyListKind?
      && |output| == 3 + |keysResponse.value.kind.keys|
      && output[2] == KeyCountLine(|keysResponse.value.kind.keys|)
      && var keys := keysResponse.value.kind.keys;
         forall i :: 0 <= i < |keys| ==> output[3 + i] == KeyLine(i + 1, keys[i], fmt)
    ensures DisplayAccountInfo(accountId, accountResponse, fmt).Success? && keysResponse.Failure? ==>
      && output == DisplayAccountInfo(accountId, accountResponse, fmt).value
      && r == Failure("Failed to fetch query for view key list: " + keysResponse.error)
    ensures DisplayAccountInfo(accountId, accountResponse, fmt).Success? && keysResponse.Success?
            && !keysResponse.value.kind.AccessKeyListKind? ==>
      && output == DisplayAccountInfo(accountId, accountResponse, fmt).value
      && r == Failure(WrongKindError)
  {
    queries := [RpcQuery(self.blockIdHeight, ViewAccount(accountId))];
    output := [];
    var info := DisplayAccountInfo(accountId, accountResponse, fmt);
    if info.Failure? {
      return queries, output, Failure(info.error);
    }
    output := info.value;
    queries := queries + [RpcQuery(self.blockIdHeight, ViewAccessKeyList(accountId))];
    var keyLines;
    keyLines, r := DisplayAccessKeyList(keysResponse, fmt);
    output := output + keyLines;
  }

  /** Skipping leading spaces and reading the digits that follow: how a
      reader recovers a line's number. */
  function DropSpaces(s: string): string
    decreases |s|
  {
    if s != [] && s[0] == ' ' then DropSpaces(s[1..]) else s
  }

  function DigitPrefix(s: string): (d: string)
    ensures AllDigits(d)
    decreases |s|
  {
    if s != [] && IsDigit(s[0]) then [s[0]] + DigitPrefix(s[1..]) else []
  }

  function LeadingNumber(line: string): nat {
    ParseDecimal(DigitPrefix(DropSpaces(line)))
  }

  lemma {:induction false} DropSpacesOfPadding(k: nat, s: string)
    requires s != [] && s[0] != ' '
    ensures DropSpaces(Spaces(k) + s) == s
    decreases k
  {
    if k > 0 {
      assert (Spaces(k) + s)[1..] == Spaces(k - 1) + s;
      DropSpacesOfPadding(k - 1, s);
    }
  }

  lemma {:induction false} DigitPrefixStopsAtNonDigit(d: string, rest: string)
    requires AllDigits(d)
    requires rest != [] && !IsDigit(rest[0])
    ensures DigitPrefix(d + rest) == d
    decreases |d|
  {
    if d != [] {
      assert (d + rest)[1..] == d[1..] + rest;
      DigitPrefixStopsAtNonDigit(d[1..], rest);
    } else {
      assert d + rest == rest;
    }
  }

  /** Each key line carries its own number: reading the number at the start
      of line `n` gives back `n`. */
  lemma KeyLineNumber(n: nat, key: AccessKeyInfoView, fmt: Formatter)
    ensures LeadingNumber(KeyLine(n, key, fmt)) == n
  {
    var digits := DecimalString(n);
    var rest := KeyDescription(key, fmt);
    var pad := if |digits| < 4 then 4 - |digits| else 0;
    assert PadLeft(digits, 4) == Spaces(pad) + digits;
    assert KeyLine(n, key, fmt) == Spaces(pad) + (digits + rest);
    DropSpacesOfPadding(pad, digits + rest);
    DigitPrefixStopsAtNonDigit(digits, rest);
    ParseDecimalString(n);
  }

  /** The printed key count reads back as the number of keys. */
  lemma KeyCountReadsBack(count: nat)
    ensures ParseDecimal(KeyCountLine(count)[|"Number of access keys: "|..]) == count
  {
    assert KeyCountLine(count)[|"Number of access keys: "|..] == DecimalString(count);
    ParseDecimalString(count);
  }

  /** The listing numbers its keys 1..n in list order: line `i + 1` after
      the count carries the number `i + 1`. */
  lemma ListingNumbersKeys(keys: seq<AccessKeyInfoView>, lines: seq<string>, fmt: Formatter)
    requires |lines| == |keys| + 1
    requires forall i :: 0 <= i < |keys| ==> lines[i + 1] == KeyLine(i + 1, keys[i], fmt)
    ensures forall j :: 1 <= j < |lines| ==> LeadingNumber(lines[j]) == j
  {
    forall j | 1 <= j < |lines| ensures LeadingNumber(lines[j]) == j {
      KeyLineNumber(j, keys[j - 1], fmt);
    }
  }
}
