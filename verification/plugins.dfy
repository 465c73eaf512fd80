/**
  The plugin registry the application dispatches to: an ordered list of
  (type byte, name, plugin) entries. Registration order is observable, because
  commit and the block-lifecycle hooks visit plugins in that order.
*/
module Plugins {
  import opened Wrappers
  import opened Tmsp

  /**
    What the application can tell about a plugin. `Governmint` is the governance
    plugin the application creates itself (it implements the block-lifecycle
    interface); any other plugin may or may not implement it.
  */
  datatype PluginKind = Governmint | Generic(blockchainAware: bool)

  datatype PluginEntry = PluginEntry(typeByte: Byte, name: string, kind: PluginKind) {
    /** Whether the plugin receives InitChain, BeginBlock and EndBlock. */
    predicate BlockchainAware() {
      kind.Governmint? || kind.blockchainAware
    }
  }

  type Registry = seq<PluginEntry>

  /** Type bytes and names are unique across the registry. */
  predicate ValidRegistry(reg: Registry) {
    forall i, j :: 0 <= i < j < |reg| ==> reg[i].name != reg[j].name && reg[i].typeByte != reg[j].typeByte
  }

  /** Looks a plugin up by its registered name. */
  function GetByName(reg: Registry, name: string): (r: Option<PluginEntry>)
    ensures r.None? <==> forall i :: 0 <= i < |reg| ==> reg[i].name != name
    ensures r.Some? ==> r.value in reg && r.value.name == name
  {
    if |reg| == 0 then None
    else if reg[0].name == name then Some(reg[0])
    else GetByName(reg[1..], name)
  }

  /** The names of all plugins, in registry order. */
  function Names(reg: Registry): (names: seq<string>)
    ensures |names| == |reg|
    ensures forall i :: 0 <= i < |reg| ==> names[i] == reg[i].name
  {
    seq(|reg|, i requires 0 <= i < |reg| => reg[i].name)
  }

  /** The names of the block-lifecycle-aware plugins, in registry order. */
  function AwareNames(reg: Registry): (names: seq<string>)
    ensures |names| <= |reg|
    ensures forall n :: n in names ==> exists i :: 0 <= i < |reg| && reg[i].name == n && reg[i].BlockchainAware()
  {
    if |reg| == 0 then []
    else
      var last := reg[|reg| - 1];
      var prefix := AwareNames(reg[..|reg| - 1]);
      assert forall n :: n in prefix ==> exists i :: 0 <= i < |reg| - 1 && reg[i].name == n && reg[i].BlockchainAware();
      prefix + (if last.BlockchainAware() then [last.name] else [])
  }

  /** Extending a registry prefix by one entry extends its aware names by that entry, if aware. */
  lemma {:induction false} AwareNamesSnoc(reg: Registry, i: nat)
    requires i < |reg|
    ensures AwareNames(reg[..i + 1]) == AwareNames(reg[..i]) + (if reg[i].BlockchainAware() then [reg[i].name] else [])
  {
    assert reg[..i + 1][..i] == reg[..i];
  }

  /** When every plugin is block-lifecycle aware, every plugin is visited. */
  lemma {:induction false} AllAwareVisitsAll(reg: Registry)
    requires forall i :: 0 <= i < |reg| ==> reg[i].BlockchainAware()
    ensures AwareNames(reg) == Names(reg)
    decreases |reg|
  {
    if |reg| > 0 {
      var k := |reg| - 1;
      AllAwareVisitsAll(reg[..k]);
      assert Names(reg) == Names(reg[..k]) + [reg[k].name];
    }
  }

  /** A plugin that is not block-lifecycle aware is never visited by the lifecycle hooks. */
  lemma UnawareNeverVisited(reg: Registry, i: nat)
    requires ValidRegistry(reg)
    requires i < |reg| && !reg[i].BlockchainAware()
    ensures reg[i].name !in AwareNames(reg)
  {
  }

  /** The index of the last governance plugin in the registry, if there is one. */
  function LastGovIndex(reg: Registry): (r: Option<nat>)
    ensures r.None? <==> forall i :: 0 <= i < |reg| ==> !reg[i].kind.Governmint?
    ensures r.Some? ==> r.value < |reg| && reg[r.value].kind.Governmint?
                        && forall i :: r.value < i < |reg| ==> !reg[i].kind.Governmint?
  {
    if |reg| == 0 then None
    else if reg[|reg| - 1].kind.Governmint? then Some(|reg| - 1)
    else LastGovIndex(reg[..|reg| - 1])
  }
}
