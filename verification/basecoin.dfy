/**
  The Basecoin application as the consensus engine sees it: the TMSP façade that
  routes options, transactions and queries to the account state, the plugins and
  the merkle store.

  Everything the façade calls but does not define — transaction execution, the
  binary and JSON decoders, the store client, the plugins — is a function held in
  an `Env`. A stateful collaborator answers as a function of the trace of calls the
  façade has made so far, and every such call appends one `Event` to that trace, so
  the order in which the façade talks to its collaborators is part of each result.
*/
module Basecoin {
  import opened Wrappers
  import opened Tmsp
  import opened Keys
  import opened HexFormat
  import opened Plugins

  const Version := "0.1"

  /** The largest transaction, in bytes, that CheckTx and AppendTx accept. */
  const MaxTxSize := 10240

  const PluginTypeByteBase: Byte := 0x01
  const PluginTypeByteEyes: Byte := 0x02
  const PluginTypeByteGov: Byte := 0x03

  const PluginNameBase := "base"
  const PluginNameEyes := "eyes"
  const PluginNameGov := "gov"

  /** A decoded transaction; its structure belongs to the executor. */
  type Tx(==)

  /** A genesis account, and the address its public key derives. */
  type Account(==)
  type Address(==)

  /** The parts of the account state the façade writes directly. */
  datatype BaseState = BaseState(chainId: string, accounts: map<Address, Account>)

  /** The block-lifecycle and commit calls made on a plugin. */
  datatype Hook =
    | InitChainHook(validators: seq<Validator>)
    | BeginBlockHook(height: Uint64)
    | EndBlockHook(height: Uint64)
    | CommitHook

  /** One call from the façade to a collaborator. */
  datatype Event =
    | SetChainId(chainId: string)
    | SetAccount(address: Address, account: Account)
    | PluginSetOption(plugin: string, key: string, value: string)
    | ExecTx(tx: Tx, isCheckOnly: bool)
    | StoreQuery(query: Bytes)
    | GovQuery(query: Bytes)
    | ResetCacheState
    | PluginHook(plugin: string, hook: Hook)
    | StoreCommit

  type Trace = seq<Event>

  /** The collaborators, each answering from the trace of calls made before it. */
  datatype Env = Env(
    decodeTx: Bytes -> Decoded<Tx>,
    decodeAccount: string -> Decoded<Account>,
    addressOf: Account -> Address,
    execTx: (BaseState, Registry, Trace, Tx, bool) -> (Result, BaseState),
    resetCache: (BaseState, Trace) -> BaseState,
    pluginSetOption: (string, Trace, string, string) -> string,
    pluginCommit: (string, Trace) -> Result,
    pluginEndBlock: (string, Trace, Uint64) -> seq<Validator>,
    storeQuery: (Trace, Bytes) -> Result,
    storeCommit: Trace -> Result,
    govQuery: (Trace, Bytes) -> Result
  )

  /** The application: account state, plugin registry, and the calls made so far. */
  datatype App = App(base: BaseState, registry: Registry, trace: Trace)

  /** A protocol answer together with the application after the call. */
  datatype Reply<T> = Reply(value: T, app: App)

  /** The events a call added to the trace. */
  function NewEvents(before: App, after: App): Trace
    requires |before.trace| <= |after.trace|
  {
    after.trace[|before.trace|..]
  }

  /** The application after a call that only appended `events` to the trace. */
  predicate OnlyRecorded(before: App, after: App, events: Trace) {
    after == before.(trace := before.trace + events)
  }

  /** A fresh application: the given account state and a registry holding only governance. */
  function NewBasecoin(initial: BaseState): (app: App)
    ensures ValidRegistry(app.registry)
    ensures |app.registry| == 1 && app.trace == [] && app.base == initial
    ensures GetByName(app.registry, PluginNameGov) == Some(PluginEntry(PluginTypeByteGov, PluginNameGov, Governmint))
    ensures LastGovIndex(app.registry) == Some(0)
  {
    App(initial, [PluginEntry(PluginTypeByteGov, PluginNameGov, Governmint)], [])
  }

  /** The version descriptor; it depends on nothing. */
  function Info(): (s: string)
    ensures s == "Basecoin v0.1"
  {
    "Basecoin v" + Version
  }

  // ---------------------------------------------------------------- SetOption

  /**
    Genesis configuration. A key "<scope>/<subkey>" whose scope is not "base" is
    forwarded, subkey and value, to the plugin of that name; scope "base" sets the
    chain ID or loads one JSON-encoded account. The answer is a log line.
  */
  function SetOption(env: Env, app: App, key: string, value: string): (r: Reply<string>)
    ensures r.app.registry == app.registry
    ensures r.app == app || |r.app.trace| == |app.trace| + 1
    ensures r.app.base.chainId != app.base.chainId ==> key == "base/chainID"
    ensures r.app.base.accounts != app.base.accounts ==> key == "base/account"
    ensures r.app.base != app.base ==> r.value == "Success"
  {
    var (scope, subkey) := SplitKey(key);
    assert scope == PluginNameBase && subkey == "chainID" ==> key == "base/chainID" by {
      if scope == PluginNameBase && subkey == "chainID" { BaseKey(key, subkey); }
    }
    assert scope == PluginNameBase && subkey == "account" ==> key == "base/account" by {
      if scope == PluginNameBase && subkey == "account" { BaseKey(key, subkey); }
    }
    if scope != PluginNameBase then
      match GetByName(app.registry, scope)
      case None => Reply("Invalid plugin name: " + scope, app)
      case Some(_) =>
        Reply(env.pluginSetOption(scope, app.trace, subkey, value),
              app.(trace := app.trace + [PluginSetOption(scope, subkey, value)]))
    else if subkey == "chainID" then
      Reply("Success", app.(base := app.base.(chainId := value), trace := app.trace + [SetChainId(value)]))
    else if subkey == "account" then
      match env.decodeAccount(value)
      case DecodeError(e) => Reply("Error decoding acc message: " + e, app)
      case Decoded(acc) =>
        var addr := env.addressOf(acc);
        Reply("Success", app.(base := app.base.(accounts := app.base.accounts[addr := acc]),
                              trace := app.trace + [SetAccount(addr, acc)]))
    else
      Reply("Unrecognized option key " + subkey, app)
  }

  /** A key whose scope is "base" and whose subkey is non-empty is literally "base/" + subkey. */
  lemma BaseKey(key: string, subkey: string)
    requires SplitKey(key) == (PluginNameBase, subkey) && subkey != ""
    ensures key == PluginNameBase + [Separator] + subkey
  {
  }

  /** "base/chainID" sets the chain ID and nothing else. */
  lemma SetOptionChainId(env: Env, app: App, value: string)
    ensures SetOption(env, app, "base/chainID", value)
            == Reply("Success", app.(base := app.base.(chainId := value), trace := app.trace + [SetChainId(value)]))
  {
    assert "base/chainID" == PluginNameBase + [Separator] + "chainID";
    SplitKeyJoin(PluginNameBase, "chainID");
  }

  /** "base/account" with text the JSON decoder rejects reports the decoder's error and changes nothing. */
  lemma SetOptionBadAccount(env: Env, app: App, value: string)
    requires env.decodeAccount(value).DecodeError?
    ensures SetOption(env, app, "base/account", value)
            == Reply("Error decoding acc message: " + env.decodeAccount(value).message, app)
  {
    assert "base/account" == PluginNameBase + [Separator] + "account";
    SplitKeyJoin(PluginNameBase, "account");
  }

  /** "base/account" with a decodable account stores it under its own address. */
  lemma SetOptionAccount(env: Env, app: App, value: string)
    requires env.decodeAccount(value).Decoded?
    ensures var acc := env.decodeAccount(value).value;
            var r := SetOption(env, app, "base/account", value);
            && r.value == "Success"
            && r.app.base.chainId == app.base.chainId
            && r.app.base.accounts == app.base.accounts[env.addressOf(acc) := acc]
            && OnlyRecorded(app, r.app.(base := app.base), [SetAccount(env.addressOf(acc), acc)])
  {
    assert "base/account" == PluginNameBase + [Separator] + "account";
    SplitKeyJoin(PluginNameBase, "account");
  }

  /** Any other subkey under "base" is rejected, naming the subkey, with no change. */
  lemma SetOptionUnknownBaseKey(env: Env, app: App, subkey: string, value: string)
    requires subkey != "chainID" && subkey != "account"
    ensures SetOption(env, app, "base/" + subkey, value) == Reply("Unrecognized option key " + subkey, app)
  {
    assert "base/" + subkey == PluginNameBase + [Separator] + subkey;
    SplitKeyJoin(PluginNameBase, subkey);
  }

  /** The bare key "base" reaches the base branch with an empty subkey, which is unrecognised. */
  lemma SetOptionBareBase(env: Env, app: App, value: string)
    ensures SetOption(env, app, "base", value) == Reply("Unrecognized option key ", app)
  {
    assert Separator !in "base" by {
      assert forall i :: 0 <= i < |"base"| ==> "base"[i] != Separator;
    }
    assert SplitKey("base") == ("base", "");
    assert "Unrecognized option key " + "" == "Unrecognized option key ";
  }

  /** A scope other than "base" that names no plugin is rejected, naming the scope, with no change. */
  lemma SetOptionUnknownPlugin(env: Env, app: App, scope: string, subkey: string, value: string)
    requires Separator !in scope && scope != PluginNameBase
    requires GetByName(app.registry, scope).None?
    ensures SetOption(env, app, scope + "/" + subkey, value) == Reply("Invalid plugin name: " + scope, app)
  {
    assert scope + "/" + subkey == scope + [Separator] + subkey;
    SplitKeyJoin(scope, subkey);
  }

  /** A key without a separator that names no plugin (and is not "base") is rejected whole, with no change. */
  lemma SetOptionUnknownBareKey(env: Env, app: App, key: string, value: string)
    requires Separator !in key && key != PluginNameBase
    requires GetByName(app.registry, key).None?
    ensures SetOption(env, app, key, value) == Reply("Invalid plugin name: " + key, app)
  {
  }

  /** A key without a separator that names a plugin forwards an empty subkey and the value to it. */
  lemma SetOptionForwardsBareKey(env: Env, app: App, key: string, value: string)
    requires Separator !in key && key != PluginNameBase
    requires GetByName(app.registry, key).Some?
    ensures var r := SetOption(env, app, key, value);
            && r.value == env.pluginSetOption(key, app.trace, "", value)
            && OnlyRecorded(app, r.app, [PluginSetOption(key, "", value)])
  {
  }

  /**
    A scope naming a registered plugin forwards exactly the rest of the key (which may
    contain further separators) and the value, and answers with the plugin's own log.
  */
  lemma SetOptionForwardsToPlugin(env: Env, app: App, scope: string, subkey: string, value: string)
    requires Separator !in scope && scope != PluginNameBase
    requires GetByName(app.registry, scope).Some?
    ensures var r := SetOption(env, app, scope + "/" + subkey, value);
            && r.value == env.pluginSetOption(scope, app.trace, subkey, value)
            && OnlyRecorded(app, r.app, [PluginSetOption(scope, subkey, value)])
  {
    assert scope + "/" + subkey == scope + [Separator] + subkey;
    SplitKeyJoin(scope, subkey);
  }

  // ------------------------------------------------------- CheckTx / AppendTx

  /** The executor's answer for `tx` on the current application. */
  function Exec(env: Env, app: App, tx: Tx, isCheckOnly: bool): (Result, BaseState) {
    env.execTx(app.base, app.registry, app.trace, tx, isCheckOnly)
  }

  /** Whether `txBytes` passes the size ceiling and the decoder, so that the executor runs. */
  predicate Admitted(env: Env, txBytes: Bytes) {
    |txBytes| <= MaxTxSize && env.decodeTx(txBytes).Decoded?
  }

  /**
    The front end CheckTx and AppendTx share: size ceiling, then decoding, then the
    executor; an executor error gets `context` in front of its log, any success is a
    plain OK.
  */
  function TxFrontEnd(env: Env, app: App, txBytes: Bytes, isCheckOnly: bool, context: string): (r: Reply<Result>)
  {
    if |txBytes| > MaxTxSize then
      Reply(ErrBaseEncodingError.AppendLog("Tx size exceeds maximum"), app)
    else
      match env.decodeTx(txBytes)
      case DecodeError(e) => Reply(ErrBaseEncodingError.AppendLog("Error decoding tx: " + e), app)
      case Decoded(tx) =>
        var (res, base') := Exec(env, app, tx, isCheckOnly);
        var app' := app.(base := base', trace := app.trace + [ExecTx(tx, isCheckOnly)]);
        if res.IsErr() then Reply(res.PrependLog(context), app') else Reply(Ok, app')
  }

  /** The contract both CheckTx and AppendTx meet, for their own flag and context. */
  ghost predicate TxFrontEndContract(env: Env, app: App, txBytes: Bytes, isCheckOnly: bool, context: string, r: Reply<Result>) {
    && r.app.registry == app.registry
    // rejected before the executor: an encoding error, nothing called, nothing changed
    && (|txBytes| > MaxTxSize ==> r == Reply(Result(BaseEncodingError, [], ["Tx size exceeds maximum"]), app))
    && (!Admitted(env, txBytes) ==> r.app == app && r.value.code == BaseEncodingError)
    && (|txBytes| <= MaxTxSize && env.decodeTx(txBytes).DecodeError? ==>
          r.value.log == ["Error decoding tx: " + env.decodeTx(txBytes).message])
    // admitted: exactly one call to the executor, with this flag, and its verdict
    && (Admitted(env, txBytes) ==>
          var tx := env.decodeTx(txBytes).value;
          var (res, base') := Exec(env, app, tx, isCheckOnly);
          && r.app == app.(base := base', trace := app.trace + [ExecTx(tx, isCheckOnly)])
          && (r.value.code == OK <==> !res.IsErr())
          && (res.IsErr() ==> r.value == res.(log := [context] + res.log))
          && (!res.IsErr() ==> r.value == Result(OK, [], [])))
  }

  lemma TxFrontEndMeetsContract(env: Env, app: App, txBytes: Bytes, isCheckOnly: bool, context: string)
    ensures TxFrontEndContract(env, app, txBytes, isCheckOnly, context, TxFrontEnd(env, app, txBytes, isCheckOnly, context))
  {
    assert ErrBaseEncodingError.AppendLog("Tx size exceeds maximum").log == ["Tx size exceeds maximum"];
  }

  /** Mempool validation: the executor runs in check-only mode. */
  function CheckTx(env: Env, app: App, txBytes: Bytes): (r: Reply<Result>)
    ensures TxFrontEndContract(env, app, txBytes, true, "Error in CheckTx", r)
  {
    TxFrontEndMeetsContract(env, app, txBytes, true, "Error in CheckTx");
    TxFrontEnd(env, app, txBytes, true, "Error in CheckTx")
  }

  /** Block execution: the executor runs with effect. */
  function AppendTx(env: Env, app: App, txBytes: Bytes): (r: Reply<Result>)
    ensures TxFrontEndContract(env, app, txBytes, false, "Error in AppendTx", r)
  {
    TxFrontEndMeetsContract(env, app, txBytes, false, "Error in AppendTx");
    TxFrontEnd(env, app, txBytes, false, "Error in AppendTx")
  }

  /**
    CheckTx and AppendTx reject exactly the same inputs before execution, with the same
    answer, and otherwise hand the executor the same transaction, differing only in the flag.
  */
  lemma CheckAndAppendAgree(env: Env, app: App, txBytes: Bytes)
    ensures !Admitted(env, txBytes) ==> CheckTx(env, app, txBytes) == AppendTx(env, app, txBytes)
    ensures Admitted(env, txBytes) ==>
              var tx := env.decodeTx(txBytes).value;
              && NewEvents(app, CheckTx(env, app, txBytes).app) == [ExecTx(tx, true)]
              && NewEvents(app, AppendTx(env, app, txBytes).app) == [ExecTx(tx, false)]
  {
  }

  /** A transaction of exactly the ceiling's size is not refused for its size. */
  lemma MaxSizeIsAccepted(env: Env, app: App, txBytes: Bytes)
    requires |txBytes| == MaxTxSize
    ensures env.decodeTx(txBytes).Decoded? ==>
              NewEvents(app, AppendTx(env, app, txBytes).app) == [ExecTx(env.decodeTx(txBytes).value, false)]
    ensures env.decodeTx(txBytes).DecodeError? ==>
              AppendTx(env, app, txBytes).value.log == ["Error decoding tx: " + env.decodeTx(txBytes).message]
  {
  }

  // -------------------------------------------------------------------- Query

  /**
    Queries: the first byte selects the destination — base state (not supported),
    the merkle store, or governance — and the remaining bytes go there unchanged.
  */
  function Query(env: Env, app: App, query: Bytes): (r: Reply<Result>)
    ensures r.app.base == app.base && r.app.registry == app.registry
    ensures |query| == 0 ==> r == Reply(Result(EncodingError, [], ["Query cannot be zero length"]), app)
    ensures |query| > 0 && query[0] == PluginTypeByteEyes ==>
              r == Reply(env.storeQuery(app.trace, query[1..]), app.(trace := app.trace + [StoreQuery(query[1..])]))
    ensures |query| > 0 && query[0] == PluginTypeByteGov ==>
              r == Reply(env.govQuery(app.trace, query[1..]), app.(trace := app.trace + [GovQuery(query[1..])]))
    ensures |query| > 0 && query[0] !in {PluginTypeByteEyes, PluginTypeByteGov} ==> r.app == app
  {
    if |query| == 0 then
      Reply(ErrEncodingError.SetLog("Query cannot be zero length"), app)
    else
      var typeByte := query[0];
      var rest := query[1..];
      if typeByte == PluginTypeByteBase then
        Reply(Ok.SetLog("This type of query not yet supported"), app)
      else if typeByte == PluginTypeByteEyes then
        Reply(env.storeQuery(app.trace, rest), app.(trace := app.trace + [StoreQuery(rest)]))
      else if typeByte == PluginTypeByteGov then
        Reply(env.govQuery(app.trace, rest), app.(trace := app.trace + [GovQuery(rest)]))
      else
        Reply(ErrBaseUnknownPlugin.SetLog("Unknown plugin with type byte " + UpperHex(typeByte)), app)
  }

  /** A query tagged for the base state succeeds without an answer and changes nothing. */
  lemma QueryBaseUnsupported(env: Env, app: App, payload: Bytes)
    ensures Query(env, app, [PluginTypeByteBase] + payload)
            == Reply(Result(OK, [], ["This type of query not yet supported"]), app)
  {
  }

  /** A tag byte followed by a payload: the store and governance receive exactly the payload. */
  lemma QueryForwardsPayload(env: Env, app: App, tag: Byte, payload: Bytes)
    requires tag == PluginTypeByteEyes || tag == PluginTypeByteGov
    ensures var r := Query(env, app, [tag] + payload);
            && (tag == PluginTypeByteEyes ==>
                  r.value == env.storeQuery(app.trace, payload) && OnlyRecorded(app, r.app, [StoreQuery(payload)]))
            && (tag == PluginTypeByteGov ==>
                  r.value == env.govQuery(app.trace, payload) && OnlyRecorded(app, r.app, [GovQuery(payload)]))
  {
    assert ([tag] + payload)[1..] == payload;
  }

  /**
    Any other tag is an unknown-plugin error that changes nothing; its log names the
    tag in hexadecimal, from which the tag can be read back.
  */
  lemma QueryUnknownTag(env: Env, app: App, tag: Byte, payload: Bytes)
    requires tag !in {PluginTypeByteBase, PluginTypeByteEyes, PluginTypeByteGov}
    ensures var r := Query(env, app, [tag] + payload);
            var prefix := "Unknown plugin with type byte ";
            && r.app == app
            && r.value.code == BaseUnknownPlugin
            && |r.value.log| == 1
            && |prefix| < |r.value.log[0]| <= |prefix| + 2
            && r.value.log[0][..|prefix|] == prefix
            && ParseHex(r.value.log[0][|prefix|..]) == tag
  {
    var prefix := "Unknown plugin with type byte ";
    var line := prefix + UpperHex(tag);
    assert line[|prefix|..] == UpperHex(tag);
    assert line[..|prefix|] == prefix;
    ParseUpperHex(tag);
    UpperHexOfByte(tag);
  }
}
