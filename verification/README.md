# Basecoin application façade — a Dafny model

This project models `Basecoin`, the TMSP-facing controller of a Basecoin blockchain
node (`app/app.go`). The consensus engine drives it through a fixed request/response
protocol. `Basecoin` sits between that engine and three collaborators: the account
state, the plugin registry (governance and any other plugin) and the merkleeyes
store client. It routes genesis options, transactions and queries. It fans the block
lifecycle out to the plugins in registration order. It runs the two-phase commit:
first every plugin, then the store. A failure in either phase halts the process.

## How the model is built

- Immutable datatypes hold the state. `App` is the account state the façade writes
  (chain ID, genesis accounts), the ordered plugin registry, and a trace of every call
  the façade has made to a collaborator.
- The collaborators the façade calls but does not define are function fields of
  `Env`. That covers `state.ExecTx`, the go-wire binary and JSON decoders, the
  address derivation of an account, `ResetCacheState`, each plugin's `SetOption`,
  `Commit` and `EndBlock`, the merkleeyes `QuerySync` and `CommitSync`, and
  governmint's `Query`. The two account-state writes the façade makes directly,
  `SetChainID` and `SetAccount`, are modelled concretely on `BaseState`.
- Each stateful collaborator (the executor, the cache reset, the plugins, the store
  and governance) receives the trace of calls made so far, so it can answer from its
  whole call history. The decoders and the address derivation are stateless. Every call appends one
  `Event`, which makes call order part of each result.
- Protocol results (`Tmsp.Result`) carry a code, a payload and a log. The log is kept
  as its ordered list of segments, so `AppendLog`, `PrependLog` and `SetLog` are exact.
- `PanicSanity` during commit is the `Fault` outcome of `Lifecycle.Commit`. It is a
  value, not an abort.
- The fan-outs (`InitChain`, `BeginBlock`, `EndBlock`, `Commit`) are loops over the
  registry. Plugin *i* answers from the trace left by the calls to plugins 0 .. *i*-1.
  Their contracts compare the loop's trace with reference definitions on registry
  prefixes (`HookEvents`, `AwareNames`, `CommitTrace`, `LastGovIndex`).

Files: `wrappers.dfy` (Option, decoder outcome), `tmsp.dfy` (bytes, codes, results),
`keys.dfy` (option-key splitting), `hex.dfy` (the `%X` rendering of a type byte),
`plugins.dfy` (the registry), `basecoin.dfy` (state, collaborators, SetOption,
CheckTx/AppendTx, Query), `lifecycle.dfy` (InitChain, BeginBlock, EndBlock, Commit).

The model records these facts about the code:
- `SetOption` overwrites the chain ID on every `base/chainID` option
  (app/app.go:66-68); nothing in the façade enforces setting it only once.
- Query tag 0x03 goes straight to the governance object (app/app.go:133-134), not
  through a registry lookup.
- `EndBlock` returns the answer of the registry entry that *is* the governance
  object (app/app.go:179-180). If that entry is absent, `EndBlock` returns nothing.
- `CheckTx` passes the live state to `state.ExecTx` with the check-only flag
  (app/app.go:114). Whether that leaves state untouched is up to the executor.

## Model

| member | source | states |
|---|---|---|
| Keys.IndexOfSeparator | app/app.go:195-196 | finds no position exactly when the key has no '/'; otherwise finds a '/' with none before it |
| Keys.SplitKey | app/app.go:194-200 | a key containing '/' yields a prefix without '/', with prefix + "/" + suffix == key; a key without '/' yields (key, "") |
| Keys.SplitKeyJoin | app/app.go:196-197 | splitting scope + "/" + rest, with a '/'-free scope, gives back exactly (scope, rest), even when rest holds more '/' |
| Keys.ScopeDecompositionUnique | app/app.go:196-197 | a key has only one decomposition as '/'-free scope, '/', rest, so the split is determined by the key |
| HexFormat.UpperHex | app/app.go:136-137 | `%X` of the type byte uses only hex digits, has a leading '0' only for zero, and is one digit exactly below 16 |
| HexFormat.ParseUpperHex | app/app.go:136-137 | the digits printed for a number read back as that number, so the unknown-plugin log identifies the byte |
| HexFormat.UpperHexOfByte | app/app.go:136-137 | a type byte prints as one or two digits |
| Plugins.GetByName | app/app.go:58-61 | finds nothing exactly when no entry has that name; otherwise returns a registered entry with that name |
| Plugins.AwareNames | app/app.go:159-162 | every name visited by a lifecycle hook is the name of a blockchain-aware entry, and there are no more names than entries |
| Plugins.AwareNamesSnoc | app/app.go:169-172 | visiting one more entry adds its name exactly when it is blockchain-aware, so visits follow registry order |
| Plugins.AllAwareVisitsAll | app/app.go:169-172 | when every plugin is blockchain-aware, the hooks visit all plugins in registry order |
| Plugins.UnawareNeverVisited | app/app.go:170-171 | with unique names, a plugin that is not blockchain-aware never receives a lifecycle hook |
| Plugins.LastGovIndex | app/app.go:178-180 | finds nothing exactly when no entry is the governance plugin; otherwise the last entry that is |
| Basecoin.NewBasecoin | app/app.go:35-46 | a new application has a valid registry holding only governance, under type byte 0x03 and name "gov", and an empty trace |
| Basecoin.Info | app/app.go:48-51 | the descriptor is "Basecoin v0.1" whatever the state |
| Basecoin.SetOption | app/app.go:54-81 | never changes the registry; makes at most one collaborator call; only "base/chainID" changes the chain ID and only "base/account" changes accounts, both answering "Success" |
| Basecoin.SetOptionChainId | app/app.go:66-68 | "base/chainID" sets the chain ID to the value, records one call, and answers "Success" |
| Basecoin.SetOptionBadAccount | app/app.go:69-74 | "base/account" with undecodable JSON answers "Error decoding acc message: " plus the decoder's error and changes nothing |
| Basecoin.SetOptionAccount | app/app.go:69-77 | "base/account" with a decodable account stores it under its own address, keeps the chain ID, and answers "Success" |
| Basecoin.SetOptionUnknownBaseKey | app/app.go:79 | any other subkey under "base" answers "Unrecognized option key " plus the subkey and changes nothing |
| Basecoin.SetOptionBareBase | app/app.go:199 | the key "base" (no '/') has an empty subkey, so it answers "Unrecognized option key " and changes nothing |
| Basecoin.SetOptionUnknownPlugin | app/app.go:55-60 | a non-base scope naming no plugin answers "Invalid plugin name: " plus the scope and changes nothing |
| Basecoin.SetOptionUnknownBareKey | app/app.go:55-60 | a key with no '/' that is not "base" and names no plugin answers "Invalid plugin name: " plus the whole key and changes nothing |
| Basecoin.SetOptionForwardsBareKey | app/app.go:55-62 | a key with no '/' naming a registered plugin forwards an empty subkey and the value to it, and its log is returned verbatim |
| Basecoin.SetOptionForwardsToPlugin | app/app.go:55-62 | a registered non-base scope receives exactly the rest of the key and the value, and its log is returned verbatim |
| Basecoin.CheckTx | app/app.go:103-119 | over 10240 bytes or undecodable: an encoding error with no executor call; otherwise one executor call with check-only true; OK iff the executor succeeded, else its result with "Error in CheckTx" prepended |
| Basecoin.AppendTx | app/app.go:84-100 | the same front end with check-only false and "Error in AppendTx" prepended to executor errors |
| Basecoin.CheckAndAppendAgree | app/app.go:85-93 | CheckTx and AppendTx refuse the same inputs with identical answers, and otherwise call the executor on the same transaction, differing only in the flag |
| Basecoin.MaxSizeIsAccepted | app/app.go:85-86 | a transaction of exactly 10240 bytes passes the size check: it reaches the decoder and, when decodable, the executor |
| Basecoin.Query | app/app.go:122-138 | never changes account state or registry; an empty query is an encoding error; tags 0x02 and 0x03 forward query[1:] to the store and governance and return their answer; other tags call nothing |
| Basecoin.QueryBaseUnsupported | app/app.go:129-130 | tag 0x01 answers OK with the "not yet supported" log and changes nothing |
| Basecoin.QueryForwardsPayload | app/app.go:126-134 | for tag 0x02 or 0x03 followed by a payload, the store or governance receives exactly the payload, and only that call is recorded |
| Basecoin.QueryUnknownTag | app/app.go:136-137 | any other tag is an unknown-plugin error that changes nothing; its one log line names the tag in hex, from which the tag reads back |
| Lifecycle.InitChain | app/app.go:158-164 | every blockchain-aware plugin receives the genesis validators once, in registry order, and nothing else changes |
| Lifecycle.BeginBlock | app/app.go:167-174 | the cache is reset exactly once, as the first call; then every aware plugin receives the height, in registry order |
| Lifecycle.EndBlock | app/app.go:177-188 | every aware plugin receives the height in registry order; the result is the governance plugin's answer, or empty without one |
| Lifecycle.Commit | app/app.go:141-155 | committed iff every plugin commit (in order) and then the store commit succeed; the result is the store's; the first failing plugin is a fault after which nothing more is called; a failing store commit is a fault |
| Lifecycle.CommitHaltsAtFault | app/app.go:143-148 | after a fault at plugin k, with unique names, no later plugin and not the store were asked to commit |

## Left out

- `state.ExecTx` is an opaque function of the state, the registry, the trace, the
  transaction and the check-only flag. Signature, sequence and balance rules, and
  plugin `RunTx`, live in the `state` package, which is not part of this model. So
  are the account, sequence, replay and balance scenarios built on them.
- `ResetCacheState` is an opaque function of the account state and the call trace. The cache overlay
  belongs to the `state` package.
- `SetChainID` and `SetAccount` are modelled by their visible effect: overwrite the
  chain ID, store the account under its address.
- The go-wire decoders are opaque functions that either decode or report an error
  text. A JSON account that decodes to a nil pointer is not modelled, and neither is
  the nil dereference that would follow in `SetOption`.
- Predefined protocol results (`OK`, `ErrEncodingError`, `ErrBaseEncodingError`,
  `ErrBaseUnknownPlugin`) are a code with an empty payload and an empty log. The
  protocol library is not part of this model.
- `Tmsp.Code` does not carry the protocol's numeric code values. `OtherCode(tag)`
  stands for any error code other than the three named ones; its tag is an abstract
  identifier, not the wire number, and code 0 is `OK`.
- Strings are sequences of characters, while Go strings are byte strings. This does
  not change any result here: the separator and every key literal are ASCII.
- How log segments are joined into one string is not modelled. Nor is the exact text
  of the two `PanicSanity` messages. The fault records the failing plugin's index and
  name, or the store's result.
- The merkleeyes client, governmint and every plugin answer as functions of the call
  trace. Their internals, the hash the store computes, and its determinism ("two
  commits give one hash") are outside the model.
- Plugin registration (`RegisterPlugin`) and the uniqueness it may enforce belong to
  the `types` package. `ValidRegistry` is assumed only by the lemmas that need unique
  names. `GetByName` returns the first entry with the name.
- The per-block order of protocol calls is the consensus engine's business. The
  source does not enforce it, so the model does not either.
- The process abort of `PanicSanity` is the `Fault` value, not termination.
- The CLI, REST and integration-test files are outside the core and not modelled.
