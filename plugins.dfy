/**
 * Plugins as a table of optional hooks, the pipelines the virtualizer runs
 * over them, and the record of the hook calls that only have side effects.
 */
module Plugins {
  import opened Wrappers
  import opened Types

  /**
   * One plugin. Hooks that compute something are optional functions; hooks
   * that only act (`onInit`, `afterStateChange`, `onDestroy`) are flags, and the
   * virtualizer records each call it makes to them.
   * `beforeStateChange` returns None for a void or falsy result.
   */
  datatype Plugin = Plugin(
    name: string,
    onInit: bool,
    beforeStateChange: Option<VirtualizerState -> Option<VirtualizerState>>,
    afterStateChange: bool,
    onRangeCalculated: Option<(Range, int) -> Range>,
    onDestroy: bool)

  /** A call the virtualizer makes to a side-effecting hook; plugins are named by registration position. */
  datatype HookCall =
    | OnInit(plugin: nat)
    | AfterStateChange(plugin: nat, state: VirtualizerState)
    | OnChange(state: VirtualizerState)
    | OnDestroy(plugin: nat)

  predicate HasAfterStateChange(p: Plugin) { p.afterStateChange }

  predicate HasOnDestroy(p: Plugin) { p.onDestroy }

  /** Positions of the plugins that implement a hook, in registration order. */
  function HookIndices(plugins: seq<Plugin>, has: Plugin -> bool): (r: seq<nat>)
    decreases |plugins|
  {
    if plugins == [] then []
    else
      var n := |plugins| - 1;
      HookIndices(plugins[..n], has) + (if has(plugins[n]) then [n] else [])
  }

  /**
   * Exactly the plugins implementing the hook are listed, each once and in
   * registration order.
   */
  lemma {:induction false} HookIndicesAreThePluginsWithTheHook(plugins: seq<Plugin>, has: Plugin -> bool)
    ensures var r := HookIndices(plugins, has);
            && (forall k :: k in r <==> 0 <= k < |plugins| && has(plugins[k]))
            && (forall i, j :: 0 <= i < j < |r| ==> r[i] < r[j])
    decreases |plugins|
  {
    if plugins != [] {
      var n := |plugins| - 1;
      HookIndicesAreThePluginsWithTheHook(plugins[..n], has);
      var prefix := HookIndices(plugins[..n], has);
      assert forall k :: k in prefix ==> k < n;
      var r := HookIndices(plugins, has);
      forall i, j | 0 <= i < j < |r| ensures r[i] < r[j] {
        if j < |prefix| {
          assert r[i] == prefix[i] && r[j] == prefix[j];
        } else {
          assert r[i] == prefix[i] && prefix[i] in prefix && r[j] == n;
        }
      }
    }
  }

  /** The calls made to the plugins at `indices`, in that order. */
  function Calls(indices: seq<nat>, call: nat -> HookCall): (r: seq<HookCall>)
  {
    seq(|indices|, m requires 0 <= m < |indices| => call(indices[m]))
  }

  function AfterStateChangeCall(s: VirtualizerState): nat -> HookCall
  {
    (k: nat) => AfterStateChange(k, s)
  }

  function OnDestroyCall(): nat -> HookCall
  {
    (k: nat) => OnDestroy(k)
  }

  /** `afterStateChange(s)` on every plugin that has it, in registration order. */
  function AfterStateChangeCalls(plugins: seq<Plugin>, s: VirtualizerState): seq<HookCall>
  {
    Calls(HookIndices(plugins, HasAfterStateChange), AfterStateChangeCall(s))
  }

  /** `onDestroy()` on every plugin that has it, in registration order. */
  function OnDestroyCalls(plugins: seq<Plugin>): seq<HookCall>
  {
    Calls(HookIndices(plugins, HasOnDestroy), OnDestroyCall())
  }

  /** Extending the plugin list by one extends the calls by that plugin's call, if it has the hook. */
  lemma CallsOfPrefix(plugins: seq<Plugin>, k: nat, has: Plugin -> bool, call: nat -> HookCall)
    requires k < |plugins|
    ensures Calls(HookIndices(plugins[..k + 1], has), call)
            == Calls(HookIndices(plugins[..k], has), call) + (if has(plugins[k]) then [call(k)] else [])
  {
    assert plugins[..k + 1][..k] == plugins[..k];
  }

  /** Every plugin with `afterStateChange` observes exactly the stored state, once; nobody else is called. */
  lemma AfterStateChangeReachesEveryObserver(plugins: seq<Plugin>, s: VirtualizerState)
    ensures var calls := AfterStateChangeCalls(plugins, s);
            && (forall k :: 0 <= k < |plugins| && plugins[k].afterStateChange ==> AfterStateChange(k, s) in calls)
            && (forall c :: c in calls ==>
                  (c.AfterStateChange? && c.state == s && c.plugin < |plugins| && plugins[c.plugin].afterStateChange))
            && (forall i, j :: 0 <= i < j < |calls| ==> calls[i].plugin < calls[j].plugin)
  {
    HookIndicesAreThePluginsWithTheHook(plugins, HasAfterStateChange);
    var indices := HookIndices(plugins, HasAfterStateChange);
    var calls := AfterStateChangeCalls(plugins, s);
    forall k | 0 <= k < |plugins| && plugins[k].afterStateChange
      ensures AfterStateChange(k, s) in calls
    {
      var m :| 0 <= m < |indices| && indices[m] == k;
      assert calls[m] == AfterStateChange(k, s);
    }
    forall c | c in calls
      ensures c.plugin in indices
    {
      var m :| 0 <= m < |calls| && calls[m] == c;
      assert c.plugin == indices[m];
    }
    forall i, j | 0 <= i < j < |calls| ensures calls[i].plugin < calls[j].plugin {
      assert calls[i].plugin == indices[i] && calls[j].plugin == indices[j];
    }
  }

  /** Every plugin with `onDestroy` is called exactly once, in registration order; nobody else is called. */
  lemma OnDestroyReachesEveryPlugin(plugins: seq<Plugin>)
    ensures var calls := OnDestroyCalls(plugins);
            && (forall k :: 0 <= k < |plugins| && plugins[k].onDestroy ==> OnDestroy(k) in calls)
            && (forall c :: c in calls ==> c.OnDestroy? && c.plugin < |plugins| && plugins[c.plugin].onDestroy)
            && (forall i, j :: 0 <= i < j < |calls| ==> calls[i].plugin < calls[j].plugin)
  {
    HookIndicesAreThePluginsWithTheHook(plugins, HasOnDestroy);
    var indices := HookIndices(plugins, HasOnDestroy);
    var calls := OnDestroyCalls(plugins);
    forall k | 0 <= k < |plugins| && plugins[k].onDestroy
      ensures OnDestroy(k) in calls
    {
      var m :| 0 <= m < |indices| && indices[m] == k;
      assert calls[m] == OnDestroy(k);
    }
    forall c | c in calls
      ensures c.plugin in indices
    {
      var m :| 0 <= m < |calls| && calls[m] == c;
      assert c.plugin == indices[m];
    }
    forall i, j | 0 <= i < j < |calls| ensures calls[i].plugin < calls[j].plugin {
      assert calls[i].plugin == indices[i] && calls[j].plugin == indices[j];
    }
  }

  // ----- beforeStateChange: a left-to-right chain -----

  /** One plugin's step of the chain: its result replaces the state unless it returns nothing. */
  function BeforeStateChangeStep(p: Plugin, s: VirtualizerState): VirtualizerState
  {
    if p.beforeStateChange.None? then s
    else p.beforeStateChange.value(s).GetOr(s)
  }

  /** The state after every plugin's `beforeStateChange`, each given its predecessor's result. */
  function BeforeStateChangeChain(plugins: seq<Plugin>, s: VirtualizerState): VirtualizerState
    decreases |plugins|
  {
    if plugins == [] then s
    else
      var n := |plugins| - 1;
      BeforeStateChangeStep(plugins[n], BeforeStateChangeChain(plugins[..n], s))
  }

  /** The chain composes: running two plugin lists in a row is running their concatenation. */
  lemma {:induction false} BeforeStateChangeComposes(first: seq<Plugin>, second: seq<Plugin>, s: VirtualizerState)
    ensures BeforeStateChangeChain(first + second, s)
            == BeforeStateChangeChain(second, BeforeStateChangeChain(first, s))
    decreases |second|
  {
    if second == [] {
      assert first + second == first;
    } else {
      var n := |second| - 1;
      assert (first + second)[..|first + second| - 1] == first + second[..n];
      BeforeStateChangeComposes(first, second[..n], s);
    }
  }

  /** Plugins without `beforeStateChange`, or whose hook returns nothing, leave the state as it is. */
  lemma {:induction false} BeforeStateChangeWithoutEffectIsIdentity(plugins: seq<Plugin>, s: VirtualizerState)
    requires forall k :: 0 <= k < |plugins| ==>
               plugins[k].beforeStateChange.None? || plugins[k].beforeStateChange.value(s).None?
    ensures BeforeStateChangeChain(plugins, s) == s
    decreases |plugins|
  {
    if plugins != [] {
      var n := |plugins| - 1;
      BeforeStateChangeWithoutEffectIsIdentity(plugins[..n], s);
    }
  }

  // ----- onRangeCalculated: the last implementer wins -----

  /**
   * The render range after the `onRangeCalculated` loop: each implementer is
   * given the original visible range and overwrites the result.
   */
  function RangeAfterPlugins(plugins: seq<Plugin>, visible: Range, count: int, initial: Range): Range
    decreases |plugins|
  {
    if plugins == [] then initial
    else
      var n := |plugins| - 1;
      if plugins[n].onRangeCalculated.Some? then plugins[n].onRangeCalculated.value(visible, count)
      else RangeAfterPlugins(plugins[..n], visible, count, initial)
  }

  /**
   * Last wins, not a fold: the result is what the last implementer returns for
   * the original visible range, whatever the plugins before it return; with
   * no implementer the initial range stands.
   */
  lemma {:induction false} LastRangePluginWins(plugins: seq<Plugin>, visible: Range, count: int, initial: Range, k: nat)
    requires k < |plugins| && plugins[k].onRangeCalculated.Some?
    requires forall j :: k < j < |plugins| ==> plugins[j].onRangeCalculated.None?
    ensures RangeAfterPlugins(plugins, visible, count, initial) == plugins[k].onRangeCalculated.value(visible, count)
    decreases |plugins|
  {
    var n := |plugins| - 1;
    if k < n {
      LastRangePluginWins(plugins[..n], visible, count, initial, k);
    }
  }

  lemma {:induction false} NoRangePluginKeepsInitial(plugins: seq<Plugin>, visible: Range, count: int, initial: Range)
    requires forall j :: 0 <= j < |plugins| ==> plugins[j].onRangeCalculated.None?
    ensures RangeAfterPlugins(plugins, visible, count, initial) == initial
    decreases |plugins|
  {
    if plugins != [] {
      NoRangePluginKeepsInitial(plugins[..|plugins| - 1], visible, count, initial);
    }
  }
}
