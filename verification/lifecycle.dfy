/**
  The block lifecycle of the Basecoin application: genesis validators, the start and
  end of a block, and the two-phase commit. Each walks the plugin registry in
  registration order; plugin i answers from the trace left by the calls to plugins
  0 .. i-1, which is what makes the order observable.
*/
module Lifecycle {
  import opened Wrappers
  import opened Tmsp
  import opened Plugins
  import opened Basecoin

  /** The calls of one hook on the named plugins, in order. */
  function HookEvents(names: seq<string>, hook: Hook): (r: Trace)
    ensures |r| == |names|
    ensures forall i :: 0 <= i < |names| ==> r[i] == PluginHook(names[i], hook)
  {
    seq(|names|, i requires 0 <= i < |names| => PluginHook(names[i], hook))
  }

  lemma HookEventsSnoc(names: seq<string>, extra: seq<string>, hook: Hook)
    ensures HookEvents(names + extra, hook) == HookEvents(names, hook) + HookEvents(extra, hook)
  {
  }

  /** The trace after the hook has visited the aware plugins among the first `n` entries. */
  function AwareHooked(app: App, hook: Hook, n: nat): Trace
    requires n <= |app.registry|
  {
    app.trace + HookEvents(AwareNames(app.registry[..n]), hook)
  }

  /** One more registry entry visited: the trace grows by that entry's hook call, if it is aware. */
  lemma AwareHookedStep(app: App, hook: Hook, i: nat)
    requires i < |app.registry|
    ensures AwareHooked(app, hook, i + 1)
            == AwareHooked(app, hook, i) + (if app.registry[i].BlockchainAware() then [PluginHook(app.registry[i].name, hook)] else [])
  {
    var e := app.registry[i];
    AwareNamesSnoc(app.registry, i);
    HookEventsSnoc(AwareNames(app.registry[..i]), if e.BlockchainAware() then [e.name] else [], hook);
  }

  /** Calls `hook` on every block-lifecycle-aware plugin in registry order, starting from `trace`. */
  method VisitAware(app: App, hook: Hook) returns (trace: Trace)
    ensures trace == AwareHooked(app, hook, |app.registry|)
  {
    var reg := app.registry;
    trace := app.trace;
    var i := 0;
    while i < |reg|
      invariant 0 <= i <= |reg|
      invariant trace == AwareHooked(app, hook, i)
    {
      AwareHookedStep(app, hook, i);
      if reg[i].BlockchainAware() {
        trace := trace + [PluginHook(reg[i].name, hook)];
      }
      i := i + 1;
    }
    assert reg[..|reg|] == reg;
  }

  // ---------------------------------------------------------------- InitChain

  /** Hands the genesis validators to every aware plugin, in registry order. */
  method InitChain(app: App, validators: seq<Validator>) returns (next: App)
    ensures next.base == app.base && next.registry == app.registry
    ensures next.trace == app.trace + HookEvents(AwareNames(app.registry), InitChainHook(validators))
  {
    var trace := VisitAware(app, InitChainHook(validators));
    assert app.registry[..|app.registry|] == app.registry;
    next := app.(trace := trace);
  }

  // --------------------------------------------------------------- BeginBlock

  /**
    Starts a block: the account cache is reset once, before anything else, and then
    every aware plugin hears the height, in registry order.
  */
  method BeginBlock(env: Env, app: App, height: Uint64) returns (next: App)
    ensures next.base == env.resetCache(app.base, app.trace) && next.registry == app.registry
    ensures next.trace == app.trace + [ResetCacheState] + HookEvents(AwareNames(app.registry), BeginBlockHook(height))
    ensures var events := next.trace[|app.trace|..];
            && events[0] == ResetCacheState
            && forall i :: 0 < i < |events| ==> events[i].PluginHook? && events[i].hook == BeginBlockHook(height)
  {
    var reset := app.(base := env.resetCache(app.base, app.trace), trace := app.trace + [ResetCacheState]);
    var trace := VisitAware(reset, BeginBlockHook(height));
    assert app.registry[..|app.registry|] == app.registry;
    next := reset.(trace := trace);
    assert next.trace[|app.trace|..] == [ResetCacheState] + HookEvents(AwareNames(app.registry), BeginBlockHook(height));
  }

  // ----------------------------------------------------------------- EndBlock

  /**
    The validator set reported after the first `n` registry entries have been visited:
    the answer of the last governance plugin among them, or none.
  */
  function GovValidators(env: Env, app: App, height: Uint64, n: nat): seq<Validator>
    requires n <= |app.registry|
  {
    match LastGovIndex(app.registry[..n])
    case None => []
    case Some(k) =>
      env.pluginEndBlock(app.registry[k].name, AwareHooked(app, EndBlockHook(height), k), height)
  }

  /**
    Ends a block: every aware plugin hears the height in registry order, and only the
    governance plugin's answer is returned as the validator set.
  */
  method EndBlock(env: Env, app: App, height: Uint64) returns (r: Reply<seq<Validator>>)
    ensures r.app.base == app.base && r.app.registry == app.registry
    ensures r.app.trace == app.trace + HookEvents(AwareNames(app.registry), EndBlockHook(height))
    ensures LastGovIndex(app.registry).None? ==> r.value == []
    ensures LastGovIndex(app.registry).Some? ==>
              var k := LastGovIndex(app.registry).value;
              r.value == env.pluginEndBlock(app.registry[k].name,
                                            app.trace + HookEvents(AwareNames(app.registry[..k]), EndBlockHook(height)),
                                            height)
  {
    var reg := app.registry;
    var hook := EndBlockHook(height);
    var trace := app.trace;
    var vals: seq<Validator> := [];
    var i := 0;
    while i < |reg|
      invariant 0 <= i <= |reg|
      invariant trace == AwareHooked(app, hook, i)
      invariant vals == GovValidators(env, app, height, i)
    {
      AwareHookedStep(app, hook, i);
      assert reg[..i + 1][..i] == reg[..i];
      if reg[i].kind.Governmint? {
        vals := env.pluginEndBlock(reg[i].name, trace, height);
        trace := trace + [PluginHook(reg[i].name, hook)];
      } else if reg[i].BlockchainAware() {
        // the plugin's answer is discarded; only the call is recorded
        trace := trace + [PluginHook(reg[i].name, hook)];
      }
      i := i + 1;
    }
    assert reg[..|reg|] == reg;
    r := Reply(vals, app.(trace := trace));
  }

  // ------------------------------------------------------------------- Commit

  /** Why the process halts during commit. */
  datatype FaultCause =
    | PluginCommitFailed(index: nat, plugin: string)
    | StoreCommitFailed(result: Result)

  /** A commit either yields the store's result (carrying the new state hash) or is a fatal fault. */
  datatype CommitOutcome =
    | Committed(result: Result, app: App)
    | Fault(cause: FaultCause, app: App)

  /** The trace after the first `n` plugins have been committed. */
  function CommitTrace(app: App, n: nat): Trace
    requires n <= |app.registry|
  {
    app.trace + HookEvents(Names(app.registry[..n]), CommitHook)
  }

  /** Plugin `i` commits successfully when asked after plugins 0 .. i-1. */
  predicate PluginCommitOk(env: Env, app: App, i: nat)
    requires i < |app.registry|
  {
    !env.pluginCommit(app.registry[i].name, CommitTrace(app, i)).IsErr()
  }

  lemma CommitTraceStep(app: App, i: nat)
    requires i < |app.registry|
    ensures CommitTrace(app, i + 1) == CommitTrace(app, i) + [PluginHook(app.registry[i].name, CommitHook)]
  {
  }

  /**
    Two-phase commit: every plugin commits in registry order, then the store. The first
    plugin that fails halts everything after it; a failing store commit halts too.
  */
  method Commit(env: Env, app: App) returns (r: CommitOutcome)
    ensures r.app.base == app.base && r.app.registry == app.registry
    ensures r.Committed? <==>
              && (forall i :: 0 <= i < |app.registry| ==> PluginCommitOk(env, app, i))
              && !env.storeCommit(CommitTrace(app, |app.registry|)).IsErr()
    ensures r.Committed? ==>
              && r.result == env.storeCommit(CommitTrace(app, |app.registry|))
              && r.app.trace == CommitTrace(app, |app.registry|) + [StoreCommit]
    ensures r.Fault? && r.cause.PluginCommitFailed? ==>
              var k := r.cause.index;
              && k < |app.registry|
              && r.cause.plugin == app.registry[k].name
              && (forall i :: 0 <= i < k ==> PluginCommitOk(env, app, i))
              && !PluginCommitOk(env, app, k)
              && r.app.trace == CommitTrace(app, k + 1)
    ensures r.Fault? && r.cause.StoreCommitFailed? ==>
              && (forall i :: 0 <= i < |app.registry| ==> PluginCommitOk(env, app, i))
              && r.cause.result == env.storeCommit(CommitTrace(app, |app.registry|))
              && r.app.trace == CommitTrace(app, |app.registry|) + [StoreCommit]
  {
    var reg := app.registry;
    var trace := app.trace;
    var i := 0;
    while i < |reg|
      invariant 0 <= i <= |reg|
      invariant trace == CommitTrace(app, i)
      invariant forall j :: 0 <= j < i ==> PluginCommitOk(env, app, j)
    {
      CommitTraceStep(app, i);
      var res := env.pluginCommit(reg[i].name, trace);
      trace := trace + [PluginHook(reg[i].name, CommitHook)];
      if res.IsErr() {
        assert !PluginCommitOk(env, app, i);
        return Fault(PluginCommitFailed(i, reg[i].name), app.(trace := trace));
      }
      i := i + 1;
    }
    var res := env.storeCommit(trace);
    trace := trace + [StoreCommit];
    if res.IsErr() {
      return Fault(StoreCommitFailed(res), app.(trace := trace));
    }
    return Committed(res, app.(trace := trace));
  }

  /**
    A fault at plugin k leaves the plugins after it and the store uncommitted: in a
    registry with unique names, none of them appears among the commit calls made.
  */
  lemma CommitHaltsAtFault(app: App, k: nat)
    requires ValidRegistry(app.registry) && k < |app.registry|
    ensures var made := CommitTrace(app, k + 1)[|app.trace|..];
            && StoreCommit !in made
            && forall j :: k < j < |app.registry| ==> PluginHook(app.registry[j].name, CommitHook) !in made
  {
  }
}
