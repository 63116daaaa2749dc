/**
 The life of plugins over the hook manager. Plugin operations run one at a time; a plugin registers
 handlers for itself only, and only in onLoad, onEnable and onDisable.
 */
module Plugins {
  import opened Strings
  import opened HookInterfaces
  import opened StableSort
  import opened Hooks

  datatype PluginStatus = Installed | Enabled | Disabled | Error

  // `loaded` says that the plugin's instance exists.
  datatype Plugin = Plugin(status: PluginStatus, loaded: bool)

  datatype HookRequest = HookRequest(event: HookEvent, handler: nat, priority: int, now: string)

  // What a lifecycle callback does: some registrations, and then it returns or throws.
  datatype Callback = Callback(requests: seq<HookRequest>, throws: bool)

  datatype Outcome = Ok | NotFound | Failed

  predicate PrintedClock(c: Callback) {
    forall k :: 0 <= k < |c.requests| ==> NoColon(c.requests[k].now)
  }

  // The registrations that these requests of a plugin make.
  function Made(pluginId: string, requests: seq<HookRequest>): seq<Registration> {
    seq(|requests|, k requires 0 <= k < |requests| =>
      Registration(HookId(pluginId, requests[k].event, requests[k].now), pluginId,
                   requests[k].event, requests[k].handler, requests[k].priority))
  }

  // What enabling registers: onEnable is called only if the module is there and onLoad returns.
  function MadeByEnabling(pluginId: string, there: bool, onLoad: Callback, onEnable: Callback): seq<Registration> {
    if !there then []
    else Made(pluginId, onLoad.requests) + if onLoad.throws then [] else Made(pluginId, onEnable.requests)
  }

  // Behind what was live there are these requests of the plugin, in order.
  predicate Registered(before: seq<Registration>, pluginId: string, requests: seq<HookRequest>,
                       after: seq<Registration>) {
    && before <= after && |after| == |before| + |requests|
    && forall k :: 0 <= k < |requests| ==>
         after[|before| + k] == Registration(HookId(pluginId, requests[k].event, requests[k].now), pluginId,
                                             requests[k].event, requests[k].handler, requests[k].priority)
  }

  lemma MadeRegistered(live: seq<Registration>, pluginId: string, requests: seq<HookRequest>)
    ensures Registered(live, pluginId, requests, live + Made(pluginId, requests))
  {
  }

  lemma EnablingRegisters(live: seq<Registration>, pluginId: string, there: bool, onLoad: Callback, onEnable: Callback)
    ensures Registered(live, pluginId,
                       if !there then []
                       else if onLoad.throws then onLoad.requests else onLoad.requests + onEnable.requests,
                       live + MadeByEnabling(pluginId, there, onLoad, onEnable))
  {
  }

  // Some live registration belongs to the plugin.
  ghost predicate HasHandlers(live: seq<Registration>, pluginId: string) {
    exists k :: 0 <= k < |live| && live[k].pluginId == pluginId
  }

  lemma NoneLeft(live: seq<Registration>, pluginId: string, q: string)
    ensures HasHandlers(Filter(live, NotOf(pluginId)), q) <==> q != pluginId && HasHandlers(live, q)
  {
    var rest := Filter(live, NotOf(pluginId));
    if HasHandlers(rest, q) {
      var k :| 0 <= k < |rest| && rest[k].pluginId == q;
      FilterIn(live, NotOf(pluginId), rest[k]);
      var j :| 0 <= j < |live| && live[j] == rest[k];
    }
    if q != pluginId && HasHandlers(live, q) {
      var j :| 0 <= j < |live| && live[j].pluginId == q;
      FilterIn(live, NotOf(pluginId), live[j]);
      var k :| 0 <= k < |rest| && rest[k] == live[j];
    }
  }

  predicate OwnedBy(more: seq<Registration>, pluginId: string) {
    forall k :: 0 <= k < |more| ==> more[k].pluginId == pluginId
  }

  // No disabled plugin has a handler.
  ghost predicate Silent(plugins: map<string, Plugin>, live: seq<Registration>) {
    forall p :: p in plugins && plugins[p].status == Disabled ==> !HasHandlers(live, p)
  }

  // All other plugins have handlers just when they had.
  ghost predicate OthersKeep(before: seq<Registration>, after: seq<Registration>, pluginId: string) {
    forall q :: q != pluginId ==> (HasHandlers(after, q) <==> HasHandlers(before, q))
  }

  // What one plugin registers changes nothing for the others.
  lemma OthersStay(live: seq<Registration>, more: seq<Registration>, pluginId: string)
    requires OwnedBy(more, pluginId)
    ensures forall q :: q != pluginId ==> (HasHandlers(live + more, q) <==> HasHandlers(live, q))
  {
    forall q | q != pluginId ensures HasHandlers(live + more, q) <==> HasHandlers(live, q) {
      if HasHandlers(live + more, q) {
        var k :| 0 <= k < |live + more| && (live + more)[k].pluginId == q;
        assert live[k].pluginId == q;
      }
      if HasHandlers(live, q) {
        var k :| 0 <= k < |live| && live[k].pluginId == q;
        assert (live + more)[k].pluginId == q;
      }
    }
  }

  lemma SilentGrown(plugins: map<string, Plugin>, live: seq<Registration>, more: seq<Registration>, pluginId: string,
                    p: Plugin)
    requires Silent(plugins, live) && OwnedBy(more, pluginId) && p.status != Disabled
    ensures Silent(plugins[pluginId := p], live + more)
    ensures OthersKeep(live, live + more, pluginId)
  {
    OthersStay(live, more, pluginId);
  }

  lemma SilentPurged(plugins: map<string, Plugin>, live: seq<Registration>, more: seq<Registration>, pluginId: string,
                     p: Plugin)
    requires Silent(plugins, live) && OwnedBy(more, pluginId)
    ensures var left := Filter(live + more, NotOf(pluginId));
      && Silent(plugins[pluginId := p], left) && !HasHandlers(left, pluginId)
      && OthersKeep(live, left, pluginId)
  {
    OthersStay(live, more, pluginId);
    forall q
      ensures HasHandlers(Filter(live + more, NotOf(pluginId)), q) <==> q != pluginId && HasHandlers(live + more, q)
    {
      NoneLeft(live + more, pluginId, q);
    }
  }

  // What disabling an enabled plugin does.
  ghost predicate WasDisabled(before: map<string, Plugin>, after: map<string, Plugin>, pluginId: string,
                              onDisable: Callback, saved: bool, live: seq<Registration>, live': seq<Registration>,
                              r: Outcome)
    requires pluginId in before
  {
    && (r == Ok <==> !onDisable.throws && saved)
    && after == before[pluginId := before[pluginId].(status := if r == Ok then Disabled else PluginStatus.Error)]
    && (if onDisable.throws then Registered(live, pluginId, onDisable.requests, live')
        else live' == Filter(live, NotOf(pluginId)) && !HasHandlers(live', pluginId))
  }

  // What the plugin registers on the way is gone with the rest.
  lemma OwnGone(live: seq<Registration>, pluginId: string, requests: seq<HookRequest>)
    ensures Filter(live + Made(pluginId, requests), NotOf(pluginId)) == Filter(live, NotOf(pluginId))
  {
    FilterConcat(live, Made(pluginId, requests), NotOf(pluginId));
    FilterNone(Made(pluginId, requests), NotOf(pluginId));
  }

  lemma MadePush(pluginId: string, requests: seq<HookRequest>, n: nat)
    requires n < |requests|
    ensures Made(pluginId, requests[..n + 1]) == Made(pluginId, requests[..n]) + [Made(pluginId, requests)[n]]
  {
  }

  class PluginLoader {
    var plugins: map<string, Plugin>
    const hookManager: HookManager

    ghost predicate Valid()
      reads this, hookManager
    {
      && hookManager.Valid()
      && (forall p :: p in plugins && plugins[p].status == Enabled ==> plugins[p].loaded)
    }

    // No disabled plugin has a handler in any chain.
    ghost predicate DisabledAreSilent()
      reads this, hookManager
    {
      Silent(plugins, hookManager.live)
    }

    // So whatever event is emitted, its chain calls no handler of a disabled plugin.
    lemma DisabledNeverCalled(pluginId: string, event: HookEvent)
      requires Valid() && DisabledAreSilent() && pluginId in plugins && plugins[pluginId].status == Disabled
      ensures forall i :: 0 <= i < |hookManager.List(event)| ==> hookManager.List(event)[i].pluginId != pluginId
    {
      assert hookManager.List(event) == ListOf(hookManager.live, event);
      forall i | 0 <= i < |hookManager.List(event)| ensures hookManager.List(event)[i].pluginId != pluginId {
        var k := ListedIsLive(hookManager.live, event, i);
      }
    }

    constructor (hookManager: HookManager)
      requires hookManager.Valid()
      ensures this.hookManager == hookManager && plugins == map[] && Valid() && DisabledAreSilent()
    {
      this.hookManager := hookManager;
      plugins := map[];
    }

    // A lifecycle callback.
    method Call(pluginId: string, callback: Callback) returns (ok: bool)
      requires Valid() && PrintedClock(callback)
      modifies hookManager
      ensures Valid() && ok == !callback.throws
      ensures hookManager.live == old(hookManager.live) + Made(pluginId, callback.requests)
    {
      for n := 0 to |callback.requests|
        invariant Valid()
        invariant hookManager.live == old(hookManager.live) + Made(pluginId, callback.requests[..n])
      {
        var r := callback.requests[n];
        var _ := hookManager.Register(pluginId, r.event, r.handler, r.priority, r.now);
        MadePush(pluginId, callback.requests, n);
      }
      assert callback.requests[..|callback.requests|] == callback.requests;
      ok := !callback.throws;
    }

    // loadPlugin: a plugin that is not known yet becomes installed.
    method LoadPlugin(pluginId: string) returns (r: Outcome)
      requires Valid() && DisabledAreSilent()
      modifies this`plugins
      ensures Valid() && DisabledAreSilent()
      ensures if pluginId in old(plugins) then r == Failed && plugins == old(plugins)
              else r == Ok && plugins == old(plugins)[pluginId := Plugin(Installed, false)]
    {
      if pluginId in plugins {
        return Failed;
      }
      plugins := plugins[pluginId := Plugin(Installed, false)];
      r := Ok;
    }

    // registerBuiltInPlugin: whatever was there is replaced.
    method RegisterBuiltInPlugin(pluginId: string)
      requires Valid() && DisabledAreSilent()
      modifies this`plugins
      ensures Valid() && DisabledAreSilent()
      ensures plugins == old(plugins)[pluginId := Plugin(Installed, true)]
    {
      plugins := plugins[pluginId := Plugin(Installed, true)];
    }

    // `required` says whether the plugin's module could be loaded, `saved` whether the new status could be
    // stored: storing it is part of the try block.
    method EnablePlugin(pluginId: string, required: bool, onLoad: Callback, onEnable: Callback, saved: bool)
        returns (r: Outcome)
      requires Valid() && DisabledAreSilent() && PrintedClock(onLoad) && PrintedClock(onEnable)
      modifies this`plugins, hookManager
      ensures Valid() && DisabledAreSilent()
      ensures plugins.Keys == old(plugins.Keys)
      ensures forall q :: q in plugins && q != pluginId ==> plugins[q] == old(plugins)[q]
      ensures r == NotFound <==> pluginId !in plugins
      ensures r == Ok ==> plugins[pluginId].status == Enabled
      ensures r == Failed ==> plugins[pluginId].status == PluginStatus.Error
      ensures if pluginId !in plugins || old(plugins)[pluginId].status == Enabled
        then (pluginId in plugins ==> r == Ok) && plugins == old(plugins) && hookManager.live == old(hookManager.live)
        else
          var there := required || old(plugins)[pluginId].loaded;
          && plugins[pluginId].loaded == there
          && (r == Ok <==> there && !onLoad.throws && !onEnable.throws && saved)
          && Registered(old(hookManager.live), pluginId,
                        if !there then []
                        else if onLoad.throws then onLoad.requests else onLoad.requests + onEnable.requests,
                        hookManager.live)
    {
      if pluginId !in plugins {
        return NotFound;
      }
      var plugin := plugins[pluginId];
      if plugin.status == Enabled {
        return Ok;
      }
      var ok := plugin.loaded || required;
      plugin := plugin.(loaded := ok);
      ghost var there := ok;
      if ok {
        ok := Call(pluginId, onLoad);
        if ok {
          ok := Call(pluginId, onEnable);
        }
      }
      if ok {
        plugin := plugin.(status := Enabled);
        ok := saved;
      }
      if !ok {
        plugin := plugin.(status := PluginStatus.Error);
      }
      ghost var made := MadeByEnabling(pluginId, there, onLoad, onEnable);
      assert hookManager.live == old(hookManager.live) + made;
      EnablingRegisters(old(hookManager.live), pluginId, there, onLoad, onEnable);
      SilentGrown(plugins, old(hookManager.live), made, pluginId, plugin);
      plugins := plugins[pluginId := plugin];
      r := if ok then Ok else Failed;
    }

    // If the plugin was enabled and onDisable returns, its handlers are gone; it is disabled if that can be
    // stored, too.
    method DisablePlugin(pluginId: string, onDisable: Callback, saved: bool) returns (r: Outcome)
      requires Valid() && DisabledAreSilent() && PrintedClock(onDisable)
      modifies this`plugins, hookManager
      ensures Valid() && DisabledAreSilent()
      ensures r == NotFound <==> pluginId !in old(plugins)
      ensures OthersKeep(old(hookManager.live), hookManager.live, pluginId)
      ensures if pluginId in old(plugins) && old(plugins)[pluginId].status == Enabled
        then WasDisabled(old(plugins), plugins, pluginId, onDisable, saved, old(hookManager.live), hookManager.live, r)
        else plugins == old(plugins) && hookManager.live == old(hookManager.live) && (r == NotFound || r == Ok)
    {
      if pluginId !in plugins {
        return NotFound;
      }
      if plugins[pluginId].status != Enabled {
        return Ok;
      }
      r := TryDisable(pluginId, onDisable, saved);
    }

    // Behind the checks of disablePlugin: the try block and its catch.
    method TryDisable(pluginId: string, onDisable: Callback, saved: bool) returns (r: Outcome)
      requires Valid() && DisabledAreSilent() && PrintedClock(onDisable)
      requires pluginId in plugins && plugins[pluginId].status == Enabled
      modifies this`plugins, hookManager
      ensures Valid() && DisabledAreSilent() && (r == Ok || r == Failed)
      ensures OthersKeep(old(hookManager.live), hookManager.live, pluginId)
      ensures WasDisabled(old(plugins), plugins, pluginId, onDisable, saved, old(hookManager.live), hookManager.live, r)
    {
      var plugin := plugins[pluginId];
      ghost var made := Made(pluginId, onDisable.requests);
      var ok := Call(pluginId, onDisable);
      if ok {
        hookManager.UnregisterPlugin(pluginId);
        OwnGone(old(hookManager.live), pluginId, onDisable.requests);
        plugin := plugin.(status := if saved then Disabled else PluginStatus.Error);
        SilentPurged(plugins, old(hookManager.live), made, pluginId, plugin);
      } else {
        plugin := plugin.(status := PluginStatus.Error);
        SilentGrown(plugins, old(hookManager.live), made, pluginId, plugin);
        MadeRegistered(old(hookManager.live), pluginId, onDisable.requests);
      }
      plugins := plugins[pluginId := plugin];
      r := if ok && saved then Ok else Failed;
    }

    // unloadPlugin forgets the plugin. Its handlers are gone exactly if it was enabled before, or had
    // none: a plugin whose enabling or disabling failed keeps them, and nothing will remove them.
    method UnloadPlugin(pluginId: string, onDisable: Callback, saved: bool, onUnloadThrows: bool) returns (r: Outcome)
      requires Valid() && DisabledAreSilent() && PrintedClock(onDisable)
      modifies this`plugins, hookManager
      ensures Valid() && DisabledAreSilent()
      ensures r == NotFound <==> pluginId !in old(plugins)
      ensures r == Ok <==> pluginId in old(plugins) && pluginId !in plugins
      ensures forall q :: q != pluginId ==> (q in plugins <==> q in old(plugins))
      ensures forall q :: q != pluginId && q in plugins ==> plugins[q] == old(plugins)[q]
      ensures OthersKeep(old(hookManager.live), hookManager.live, pluginId)
      ensures r == Ok && old(plugins)[pluginId].status != Enabled ==> hookManager.live == old(hookManager.live)
      ensures r == Ok && old(plugins)[pluginId].status == Enabled ==>
        hookManager.live == Filter(old(hookManager.live), NotOf(pluginId))
      ensures r == Ok ==>
        (!HasHandlers(hookManager.live, pluginId)
         <==> old(plugins)[pluginId].status == Enabled || !HasHandlers(old(hookManager.live), pluginId))
    {
      if pluginId !in plugins {
        return NotFound;
      }
      var plugin := plugins[pluginId];
      if plugin.status == Enabled {
        var disabled := DisablePlugin(pluginId, onDisable, saved);
        if disabled != Ok {
          return Failed;
        }
      }
      if plugin.loaded && onUnloadThrows {
        return Failed;
      }
      plugins := plugins - {pluginId};
      r := Ok;
    }
  }
}
