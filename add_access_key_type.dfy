/** The "add access key" action builder: the CLI form of the action, where
    every field may be missing, is resolved into the domain form by taking
    each supplied field unchanged and asking the operator for each missing
    one. Prompts are not behaviour here: the operator's answers are given as
    an `Answers` value, and each resolution reports which prompts it showed. */
module AddAccessKeyType {
  import opened Wrappers
  import opened Primitives

  /** A public key, by its canonical text (parsing lives in another crate). */
  datatype PublicKey = PublicKey(text: string)

  /** Payloads of the two permission variants. The CLI forms leave every
      field optional; `Default` is the form with nothing supplied. */
  datatype CliFunctionCallType = CliFunctionCallType(
    allowance: Option<nat>,
    receiverId: Option<string>,
    methodNames: Option<seq<string>>)

  datatype FunctionCallType = FunctionCallType(
    allowance: Option<nat>,
    receiverId: string,
    methodNames: seq<string>)

  datatype CliFullAccessType = CliFullAccessType

  datatype FullAccessType = FullAccessType

  const DefaultCliFunctionCall: CliFunctionCallType := CliFunctionCallType(None, None, None)

  const DefaultCliFullAccess: CliFullAccessType := CliFullAccessType

  /** The per-variant conversions `FunctionCallType::from` and
      `FullAccessType::from`, which belong to files outside this model. */
  datatype SubBuilders = SubBuilders(
    functionCall: CliFunctionCallType -> FunctionCallType,
    fullAccess: CliFullAccessType -> FullAccessType)

  datatype CliAccessKeyPermission =
    | CliFunctionCallAction(cliFunctionCall: CliFunctionCallType)
    | CliFullAccessAction(cliFullAccess: CliFullAccessType)

  datatype AccessKeyPermission =
    | FunctionCallAction(functionCall: FunctionCallType)
    | FullAccessAction(fullAccess: FullAccessType)

  /** The discriminant of a permission (strum's `AccessKeyPermissionDiscriminants`). */
  datatype PermissionKind = FunctionCallKind | FullAccessKind

  datatype CliAddAccessKeyAction = CliAddAccessKeyAction(
    publicKey: Option<PublicKey>,
    nonce: Option<u64>,
    permission: Option<CliAccessKeyPermission>)

  datatype AddAccessKeyAction = AddAccessKeyAction(
    publicKey: PublicKey,
    nonce: u64,
    permission: AccessKeyPermission)

  /** The prompts the builder can show. */
  datatype Prompt = PublicKeyPrompt | NoncePrompt | PermissionMenu

  /** A position in the permission menu; the menu widget only returns one
      of its items. */
  type MenuIndex = i: nat | i < |PermissionVariants|

  /** What the operator would type at each prompt, were it shown. */
  datatype Answers = Answers(publicKey: PublicKey, nonce: u64, permission: MenuIndex)

  /** A resolved action together with the prompts shown, in order. */
  datatype Built = Built(action: AddAccessKeyAction, prompts: seq<Prompt>)

  /** A call into one of the per-variant processors, with what it is given. */
  datatype ProcessorCall<Tx> =
    | FullAccessProcess(fullAccess: FullAccessType, nonce: u64, transaction: Tx,
                        serverUrl: Option<string>, publicKey: PublicKey)
    | FunctionCallProcess(functionCall: FunctionCallType, nonce: u64, transaction: Tx,
                          serverUrl: Option<string>, publicKey: PublicKey)

  function Kind(p: AccessKeyPermission): PermissionKind {
    match p
    case FunctionCallAction(_) => FunctionCallKind
    case FullAccessAction(_) => FullAccessKind
  }

  function CliKind(p: CliAccessKeyPermission): PermissionKind {
    match p
    case CliFunctionCallAction(_) => FunctionCallKind
    case CliFullAccessAction(_) => FullAccessKind
  }

  /** The variants in declaration order, as the discriminants' iterator yields them. */
  const PermissionVariants: seq<PermissionKind> := [FunctionCallKind, FullAccessKind]

  /** The menu label attached to each variant. */
  function Message(k: PermissionKind): string {
    match k
    case FunctionCallKind => "A permission with function call"
    case FullAccessKind => "A permission with full access"
  }

  /** The item the permission menu starts on. */
  const DefaultSelection: MenuIndex := 0

  /** The menu items: one label per variant, in the variants' order. */
  function PermissionLabels(): (labels: seq<string>)
    ensures |labels| == |PermissionVariants|
    ensures forall i :: 0 <= i < |labels| ==> labels[i] == Message(PermissionVariants[i])
  {
    seq(|PermissionVariants|, i requires 0 <= i < |PermissionVariants| => Message(PermissionVariants[i]))
  }

  /** The CLI permission for the selected menu item, with the variant's
      default (nothing supplied) sub-arguments. */
  function ChoosePermission(selected: MenuIndex): (p: CliAccessKeyPermission)
    ensures CliKind(p) == PermissionVariants[selected]
    ensures p.CliFunctionCallAction? ==> p.cliFunctionCall == DefaultCliFunctionCall
    ensures p.CliFullAccessAction? ==> p.cliFullAccess == DefaultCliFullAccess
  {
    match PermissionVariants[selected]
    case FunctionCallKind => CliFunctionCallAction(DefaultCliFunctionCall)
    case FullAccessKind => CliFullAccessAction(DefaultCliFullAccess)
  }

  /** `From<CliAccessKeyPermission>`: the variant is kept and its payload is
      handed to that variant's own conversion. */
  function PermissionFrom(item: CliAccessKeyPermission, sub: SubBuilders): (p: AccessKeyPermission)
    ensures Kind(p) == CliKind(item)
    ensures item.CliFunctionCallAction? ==> p.functionCall == sub.functionCall(item.cliFunctionCall)
    ensures item.CliFullAccessAction? ==> p.fullAccess == sub.fullAccess(item.cliFullAccess)
  {
    match item
    case CliFunctionCallAction(cli) => FunctionCallAction(sub.functionCall(cli))
    case CliFullAccessAction(cli) => FullAccessAction(sub.fullAccess(cli))
  }

  /** `From<CliAddAccessKeyAction>`: public key, nonce and permission are each
      taken as supplied, or else asked for (public key, then nonce, then the
      permission menu). Any `u64` nonce is accepted. */
  function ActionFrom(item: CliAddAccessKeyAction, answers: Answers, sub: SubBuilders): (r: Built)
    ensures item.publicKey.Some? ==> r.action.publicKey == item.publicKey.value
    ensures item.publicKey.None? ==> r.action.publicKey == answers.publicKey
    ensures PublicKeyPrompt in r.prompts <==> item.publicKey.None?
    ensures item.nonce.Some? ==> r.action.nonce == item.nonce.value
    ensures item.nonce.None? ==> r.action.nonce == answers.nonce
    ensures NoncePrompt in r.prompts <==> item.nonce.None?
    ensures item.permission.Some? ==> r.action.permission == PermissionFrom(item.permission.value, sub)
    ensures item.permission.None? ==>
      Kind(r.action.permission) == PermissionVariants[answers.permission]
    ensures PermissionMenu in r.prompts <==> item.permission.None?
    ensures |r.prompts| <= 3
  {
    var (publicKey, keyPrompts) := match item.publicKey
      case Some(k) => (k, [])
      case None => (answers.publicKey, [PublicKeyPrompt]);
    var (nonce, noncePrompts) := match item.nonce
      case Some(n) => (n, [])
      case None => (answers.nonce, [NoncePrompt]);
    var (cliPermission, menuPrompts) := match item.permission
      case Some(p) => (p, [])
      case None => (ChoosePermission(answers.permission), [PermissionMenu]);
    Built(AddAccessKeyAction(publicKey, nonce, PermissionFrom(cliPermission, sub)),
          keyPrompts + noncePrompts + menuPrompts)
  }

  /** `AddAccessKeyAction::process`: dispatch on the permission to the
      matching processor, passing the action's own nonce and public key and
      the caller's transaction and server URL through unchanged. */
  function Process<Tx>(action: AddAccessKeyAction, transaction: Tx, serverUrl: Option<string>): (call: ProcessorCall<Tx>)
    ensures call.FullAccessProcess? <==> action.permission.FullAccessAction?
    ensures call.FullAccessProcess? ==> call.fullAccess == action.permission.fullAccess
    ensures call.FunctionCallProcess? ==> call.functionCall == action.permission.functionCall
    ensures call.nonce == action.nonce && call.publicKey == action.publicKey
    ensures call.transaction == transaction && call.serverUrl == serverUrl
  {
    match action.permission
    case FullAccessAction(fullAccess) =>
      FullAccessProcess(fullAccess, action.nonce, transaction, serverUrl, action.publicKey)
    case FunctionCallAction(functionCall) =>
      FunctionCallProcess(functionCall, action.nonce, transaction, serverUrl, action.publicKey)
  }

  /** The menu lists function call first and full access second, one label
      per variant, and starts on the function-call item. */
  lemma PermissionMenuOrder()
    ensures PermissionLabels() == ["A permission with function call", "A permission with full access"]
    ensures forall k: PermissionKind :: k in PermissionVariants
    ensures PermissionVariants[0] != PermissionVariants[1]
    ensures ChoosePermission(DefaultSelection) == CliFunctionCallAction(DefaultCliFunctionCall)
  {
    assert PermissionLabels()[0] == Message(FunctionCallKind);
    assert PermissionLabels()[1] == Message(FullAccessKind);
    forall k: PermissionKind ensures k in PermissionVariants {
      assert PermissionVariants[if k == FunctionCallKind then 0 else 1] == k;
    }
  }

  /** A fully supplied CLI action is resolved without a single prompt into
      exactly the supplied fields, whatever the operator would have typed. */
  lemma FullySuppliedActionAsksNothing(
    key: PublicKey, nonce: u64, permission: CliAccessKeyPermission, answers: Answers, sub: SubBuilders)
    ensures ActionFrom(CliAddAccessKeyAction(Some(key), Some(nonce), Some(permission)), answers, sub)
         == Built(AddAccessKeyAction(key, nonce, PermissionFrom(permission, sub)), [])
  {
  }

  /** When the permission comes from the menu, the chosen variant's
      sub-fields are resolved exactly as if the operator had named that
      variant on the command line and supplied none of its fields. */
  lemma MenuChoiceResolvesDefaults(item: CliAddAccessKeyAction, answers: Answers, sub: SubBuilders)
    requires item.permission.None?
    ensures var p := ActionFrom(item, answers, sub).action.permission;
      match PermissionVariants[answers.permission]
      case FunctionCallKind => p == FunctionCallAction(sub.functionCall(DefaultCliFunctionCall))
      case FullAccessKind => p == FullAccessAction(sub.fullAccess(DefaultCliFullAccess))
  {
  }

  /** Building an action and processing it reaches the processor of the
      variant that was supplied (or chosen) with the supplied (or answered)
      nonce and public key. */
  lemma ProcessRoutesBuiltAction<Tx>(
    item: CliAddAccessKeyAction, answers: Answers, sub: SubBuilders, transaction: Tx, serverUrl: Option<string>)
    ensures var call := Process(ActionFrom(item, answers, sub).action, transaction, serverUrl);
      && call.nonce == (if item.nonce.Some? then item.nonce.value else answers.nonce)
      && call.publicKey == (if item.publicKey.Some? then item.publicKey.value else answers.publicKey)
      && (call.FullAccessProcess? <==>
            (if item.permission.Some? then CliKind(item.permission.value)
             else PermissionVariants[answers.permission]) == FullAccessKind)
  {
  }
}
