/**
 The hook manager: a list of registrations per event, kept sorted by priority, and the hook ids of each
 plugin. Its contents are the live registrations in the order they were made; each list is their stable
 sort.
 */
module Hooks {
  import opened Strings
  import opened HookInterfaces
  import opened StableSort

  function InEvent(e: HookEvent): Test {
    (r: Registration) => r.event == e
  }

  function NotOf(pluginId: string): Test {
    (r: Registration) => r.pluginId != pluginId
  }

  // The list of an event: its registrations, sorted by priority, equal priorities in order of arrival.
  function ListOf(live: seq<Registration>, e: HookEvent): seq<Registration> {
    Sort(Filter(live, InEvent(e)))
  }

  // Ids are made by HookId, so one id belongs to one plugin and one event.
  ghost predicate MadeId(r: Registration) {
    exists now :: NoColon(now) && r.id == HookId(r.pluginId, r.event, now)
  }

  // Of the registrations with this id, number k is first by priority, and of those first to arrive.
  predicate FirstWithId(live: seq<Registration>, k: nat, hookId: string) {
    && k < |live| && live[k].id == hookId
    && forall m :: 0 <= m < |live| && live[m].id == hookId ==>
         live[k].priority < live[m].priority || (live[k].priority == live[m].priority && k <= m)
  }

  lemma SameIdSameEvent(a: Registration, b: Registration)
    requires MadeId(a) && MadeId(b) && a.id == b.id
    ensures a.event == b.event && a.pluginId == b.pluginId
  {
    var t :| NoColon(t) && a.id == HookId(a.pluginId, a.event, t);
    var u :| NoColon(u) && b.id == HookId(b.pluginId, b.event, u);
    HookIdDetermines(a.pluginId, a.event, t, b.pluginId, b.event, u);
  }

  // ---------- What the operations do to the lists ----------

  lemma PushList(live: seq<Registration>, r: Registration, e: HookEvent)
    ensures ListOf(live + [r], e) == if r.event == e then Sort(ListOf(live, e) + [r]) else ListOf(live, e)
  {
    FilterPush(live, r, InEvent(e));
    SortPush(Filter(live, InEvent(e)), r);
    assert Filter(live, InEvent(e)) + [] == Filter(live, InEvent(e));
  }

  // A list holds nothing but live registrations of its event.
  lemma ListedIsLive(live: seq<Registration>, e: HookEvent, i: nat) returns (k: nat)
    requires i < |ListOf(live, e)|
    ensures k < |live| && live[k] == ListOf(live, e)[i] && live[k].event == e
  {
    var mine := Filter(live, InEvent(e));
    SortIsStable(mine);
    var j := InBoth(Sort(mine), mine, i);
    k := FilterIndex(live, j, InEvent(e));
  }

  // In its event's list, what has the lower priority number, or the same and arrived earlier, comes first.
  lemma RunsBefore(live: seq<Registration>, m: nat, k: nat) returns (x: nat, i: nat)
    requires m < |live| && k < |live| && live[m].event == live[k].event
    requires live[m].priority < live[k].priority || (live[m].priority == live[k].priority && m < k)
    ensures x < i < |ListOf(live, live[k].event)|
    ensures ListOf(live, live[k].event)[x] == live[m] && ListOf(live, live[k].event)[i] == live[k]
  {
    var keep := InEvent(live[k].event);
    var mine := Filter(live, keep);
    var m1, k1 := |Filter(live[..m], keep)|, |Filter(live[..k], keep)|;
    FilterAt(live, m, keep);
    FilterAt(live, k, keep);
    x := PlaceInSort(mine, m1);
    i := PlaceInSort(mine, k1);
    if live[m].priority == live[k].priority {
      RankGrows(live, m, k, keep);
      RankOrder(mine, m1, x, k1, i);
    } else {
      PriorityOrder(Sort(mine), mine, x, i);
    }
  }

  lemma RankGrows(live: seq<Registration>, m: nat, k: nat, keep: Test)
    requires m < k <= |live| && keep(live[m])
    ensures |Filter(live[..m], keep)| < |Filter(live[..k], keep)|
  {
    assert live[..m + 1] == live[..m] + [live[m]];
    FilterPush(live[..m], live[m], keep);
    FilterMonotone(live, m + 1, k, keep);
  }

  lemma FilterList(live: seq<Registration>, keep: Test, e: HookEvent)
    ensures ListOf(Filter(live, keep), e) == Filter(ListOf(live, e), keep)
  {
    FilterTwice(live, keep, InEvent(e));
    SortFilter(Filter(live, InEvent(e)), keep);
  }

  // Taking entry i out of the list of e is taking one registration out of the live ones.
  lemma TakeOutOfList(live: seq<Registration>, e: HookEvent, i: nat) returns (k: nat, k1: nat)
    requires i < |ListOf(live, e)|
    ensures k < |live| && live[k] == ListOf(live, e)[i] && live[k].event == e
    ensures forall f :: ListOf(Without(live, k), f) == if f == e then Without(ListOf(live, e), i) else ListOf(live, f)
    ensures k1 == |Filter(live[..k], InEvent(e))| && SameRank(Filter(live, InEvent(e)), k1, i)
  {
    var mine := Filter(live, InEvent(e));
    k1 := SortWithout(mine, i);
    k := FilterIndex(live, k1, InEvent(e));
    forall f ensures ListOf(Without(live, k), f) == if f == e then Without(ListOf(live, e), i) else ListOf(live, f) {
      FilterWithout(live, k, InEvent(f));
    }
  }

  // If entry i is the first of its list with that id, its original is the first by priority and arrival.
  lemma FirstInList(live: seq<Registration>, hookId: string, i: nat, k: nat, k1: nat)
    requires forall r :: r in live ==> MadeId(r)
    requires k < |live| && live[k].id == hookId && k1 == |Filter(live[..k], InEvent(live[k].event))|
    requires SameRank(Filter(live, InEvent(live[k].event)), k1, i)
    requires ListOf(live, live[k].event)[i] == live[k]
    requires forall x :: 0 <= x < i ==> ListOf(live, live[k].event)[x].id != hookId
    ensures FirstWithId(live, k, hookId)
  {
    forall m | 0 <= m < |live| && live[m].id == hookId
      ensures live[k].priority < live[m].priority || (live[k].priority == live[m].priority && k <= m)
    {
      SameIdSameEvent(live[k], live[m]);
      NotBefore(live, live[k].event, i, k, k1, m);
    }
  }

  lemma NotBefore(live: seq<Registration>, e: HookEvent, i: nat, k: nat, k1: nat, m: nat)
    requires k < |live| && m < |live| && live[k].event == e && live[m].event == e && live[k].id == live[m].id
    requires k1 == |Filter(live[..k], InEvent(e))| && SameRank(Filter(live, InEvent(e)), k1, i)
    requires ListOf(live, e)[i] == live[k]
    requires forall x :: 0 <= x < i ==> ListOf(live, e)[x].id != live[k].id
    ensures live[k].priority < live[m].priority || (live[k].priority == live[m].priority && k <= m)
  {
    var mine, keep := Filter(live, InEvent(e)), InEvent(e);
    FilterAt(live, m, keep);
    var m1 := |Filter(live[..m], keep)|;
    NotEarlier(mine, m1, k1, i);
    if m < k { RankGrows(live, m, k, keep); }
  }

  lemma NotEarlier(mine: seq<Registration>, m: nat, k: nat, i: nat)
    requires SameRank(mine, k, i) && m < |mine|
    requires forall x :: 0 <= x < i ==> Sort(mine)[x].id != mine[m].id
    ensures mine[k].priority < mine[m].priority || (mine[k].priority == mine[m].priority && k <= m)
  {
    if mine[m].priority < mine[k].priority || (mine[m].priority == mine[k].priority && m < k) {
      EarlierInSort(mine, m, k, i);
    }
  }

  // ---------- The manager's maps ----------

  function At(hooks: map<HookEvent, seq<Registration>>, e: HookEvent): seq<Registration> {
    if e in hooks then hooks[e] else []
  }

  // Every list is the stable sort of the event's live registrations.
  ghost predicate ListsOk(hooks: map<HookEvent, seq<Registration>>, live: seq<Registration>) {
    forall e :: At(hooks, e) == ListOf(live, e)
  }

  // Every live registration's plugin is known to pluginHooks, and its id was made by HookId.
  ghost predicate OwnersOk(pluginHooks: map<string, set<string>>, live: seq<Registration>) {
    forall k :: 0 <= k < |live| ==> live[k].pluginId in pluginHooks && MadeId(live[k])
  }

  lemma PushLists(hooks: map<HookEvent, seq<Registration>>, live: seq<Registration>, r: Registration)
    requires ListsOk(hooks, live)
    ensures ListsOk(hooks[r.event := Sort(At(hooks, r.event) + [r])], live + [r])
  {
    var hooks' := hooks[r.event := Sort(At(hooks, r.event) + [r])];
    forall e ensures At(hooks', e) == ListOf(live + [r], e) {
      PushList(live, r, e);
    }
  }

  lemma OwnersPush(pluginHooks: map<string, set<string>>, pluginHooks': map<string, set<string>>,
                   live: seq<Registration>, r: Registration)
    requires OwnersOk(pluginHooks, live) && pluginHooks.Keys <= pluginHooks'.Keys
    requires r.pluginId in pluginHooks' && MadeId(r)
    ensures OwnersOk(pluginHooks', live + [r])
  {
  }

  lemma SpliceFirst(live: seq<Registration>, e: HookEvent, i: nat, hookId: string) returns (k: nat)
    requires i < |ListOf(live, e)| && ListOf(live, e)[i].id == hookId
    requires forall x :: 0 <= x < i ==> ListOf(live, e)[x].id != hookId
    requires forall k :: 0 <= k < |live| ==> MadeId(live[k])
    ensures FirstWithId(live, k, hookId)
    ensures forall f :: ListOf(Without(live, k), f) == if f == e then Without(ListOf(live, e), i) else ListOf(live, f)
  {
    var k1;
    k, k1 := TakeOutOfList(live, e, i);
    FirstInList(live, hookId, i, k, k1);
  }

  lemma SpliceLists(hooks: map<HookEvent, seq<Registration>>, live: seq<Registration>, e: HookEvent, i: nat,
                    hookId: string)
      returns (k: nat)
    requires ListsOk(hooks, live) && e in hooks && i < |hooks[e]| && hooks[e][i].id == hookId
    requires forall x :: 0 <= x < i ==> hooks[e][x].id != hookId
    requires forall k :: 0 <= k < |live| ==> MadeId(live[k])
    ensures FirstWithId(live, k, hookId) && ListsOk(hooks[e := Without(hooks[e], i)], Without(live, k))
  {
    assert At(hooks, e) == hooks[e] == ListOf(live, e);
    k := SpliceFirst(live, e, i, hookId);
    ListsReplace(hooks, live, Without(live, k), e, Without(hooks[e], i));
  }

  lemma ListsReplace(hooks: map<HookEvent, seq<Registration>>, live: seq<Registration>, live': seq<Registration>,
                     e: HookEvent, list: seq<Registration>)
    requires ListsOk(hooks, live)
    requires forall f :: ListOf(live', f) == if f == e then list else ListOf(live, f)
    ensures ListsOk(hooks[e := list], live')
  {
    forall f ensures At(hooks[e := list], f) == ListOf(live', f) {
      assert At(hooks, f) == ListOf(live, f);
    }
  }

  // The lists after the filter has passed over some of the events.
  ghost predicate PartlyFiltered(hooks: map<HookEvent, seq<Registration>>, before: map<HookEvent, seq<Registration>>,
                                 done: seq<HookEvent>, keep: Test) {
    forall e :: At(hooks, e) == if e in done then Filter(At(before, e), keep) else At(before, e)
  }

  lemma FilterNext(hooks: map<HookEvent, seq<Registration>>, before: map<HookEvent, seq<Registration>>,
                   done: seq<HookEvent>, event: HookEvent, keep: Test)
    requires event in hooks && PartlyFiltered(hooks, before, done, keep)
    ensures PartlyFiltered(hooks[event := Filter(hooks[event], keep)], before, done + [event], keep)
  {
    FilterAgain(At(before, event), keep);
  }

  lemma FilterLists(hooks: map<HookEvent, seq<Registration>>, hooks': map<HookEvent, seq<Registration>>,
                    live: seq<Registration>, keep: Test)
    requires ListsOk(hooks, live) && forall e :: At(hooks', e) == Filter(At(hooks, e), keep)
    ensures ListsOk(hooks', Filter(live, keep))
  {
    forall e ensures At(hooks', e) == ListOf(Filter(live, keep), e) {
      assert At(hooks, e) == ListOf(live, e);
      FilterList(live, keep, e);
    }
  }

  lemma FilterAgain(s: seq<Registration>, keep: Test)
    ensures Filter(Filter(s, keep), keep) == Filter(s, keep)
  {
    forall i | 0 <= i < |Filter(s, keep)| ensures keep(Filter(s, keep)[i]) {
      FilterIn(s, keep, Filter(s, keep)[i]);
    }
    FilterAll(Filter(s, keep), keep);
  }

  lemma NobodyOwns(pluginHooks: map<string, set<string>>, live: seq<Registration>, pluginId: string)
    requires OwnersOk(pluginHooks, live)
    ensures var mine := Filter(live, NotOf(pluginId));
      OwnersOk(pluginHooks - {pluginId}, mine) && (pluginId !in pluginHooks ==> mine == live)
  {
    var mine := Filter(live, NotOf(pluginId));
    forall k | 0 <= k < |mine|
      ensures mine[k].pluginId in pluginHooks - {pluginId} && MadeId(mine[k])
    {
      FilterIn(live, NotOf(pluginId), mine[k]);
      var j :| 0 <= j < |live| && live[j] == mine[k];
    }
    if pluginId !in pluginHooks { FilterAll(live, NotOf(pluginId)); }
  }

  lemma NowhereListed(hooks: map<HookEvent, seq<Registration>>, live: seq<Registration>, m: nat)
    requires ListsOk(hooks, live) && m < |live|
    ensures live[m].event in hooks && live[m] in hooks[live[m].event]
  {
    var e := live[m].event;
    FilterAt(live, m, InEvent(e));
    var x := PlaceInSort(Filter(live, InEvent(e)), |Filter(live[..m], InEvent(e))|);
    assert At(hooks, e) == ListOf(live, e);
    assert At(hooks, e)[x] == live[m];
  }

  class HookManager {
    var hooks: map<HookEvent, seq<Registration>>
    var events: seq<HookEvent>                    // the keys of hooks, in the order they were added
    var pluginHooks: map<string, set<string>>

    ghost var live: seq<Registration>             // the live registrations, in the order they were made

    ghost predicate Valid()
      reads this
    {
      && (forall e :: e in hooks <==> e in events)
      && ListsOk(hooks, live)
      && OwnersOk(pluginHooks, live)
    }

    constructor ()
      ensures Valid() && live == []
    {
      hooks, events, pluginHooks, live := map[], [], map[], [];
    }

    // The list a chain of this event runs over.
    function List(event: HookEvent): seq<Registration>
      reads this
    {
      At(hooks, event)
    }

    method Register(pluginId: string, event: HookEvent, handler: nat, priority: int, now: string) returns (id: string)
      requires Valid() && NoColon(now)
      modifies this
      ensures Valid()
      ensures id == pluginId + ":" + Name(event) + ":" + now
      ensures live == old(live) + [Registration(id, pluginId, event, handler, priority)]
    {
      id := HookId(pluginId, event, now);
      var registration := Registration(id, pluginId, event, handler, priority);
      AddHook(registration);

      if pluginId !in pluginHooks {
        pluginHooks := pluginHooks[pluginId := {}];
      }
      pluginHooks := pluginHooks[pluginId := pluginHooks[pluginId] + {id}];
      assert MadeId(registration);
      OwnersPush(old(pluginHooks), pluginHooks, live, registration);
      PushLists(old(hooks), live, registration);
      live := live + [registration];
    }

    method AddHook(registration: Registration)
      requires forall e :: e in hooks <==> e in events
      modifies this`hooks, this`events
      ensures hooks == old(hooks)[registration.event := Sort(At(old(hooks), registration.event) + [registration])]
      ensures forall e :: e in hooks <==> e in events
    {
      var event := registration.event;
      if event !in hooks {
        hooks := hooks[event := []];
        events := events + [event];
      }
      hooks := hooks[event := hooks[event] + [registration]];
      hooks := hooks[event := Sort(hooks[event])];
    }

    static method FindIndex(registrations: seq<Registration>, hookId: string) returns (index: nat)
      ensures index <= |registrations|
      ensures forall x :: 0 <= x < index ==> registrations[x].id != hookId
      ensures index < |registrations| ==> registrations[index].id == hookId
    {
      index := 0;
      while index < |registrations| && registrations[index].id != hookId
        invariant index <= |registrations|
        invariant forall x :: 0 <= x < index ==> registrations[x].id != hookId
      {
        index := index + 1;
      }
    }

    // Takes out the registration with that id; if the clock gave several the same id, the one of lowest
    // priority number, and of those the one that arrived first. Without one, nothing changes.
    method Unregister(hookId: string)
      requires Valid()
      modifies this
      ensures Valid()
      ensures if exists m :: 0 <= m < |old(live)| && old(live)[m].id == hookId
              then exists k :: FirstWithId(old(live), k, hookId) && live == Without(old(live), k)
              else live == old(live)
    {
      var n := 0;
      while n < |events|
        invariant n <= |events| && unchanged(this)
        invariant forall j :: 0 <= j < n ==>
          forall x :: 0 <= x < |hooks[events[j]]| ==> hooks[events[j]][x].id != hookId
      {
        var index := FindIndex(hooks[events[n]], hookId);
        if index < |hooks[events[n]]| {
          Splice(events[n], index, hookId);
          return;
        }
        n := n + 1;
      }
      forall m | 0 <= m < |live| ensures live[m].id != hookId {
        NowhereListed(hooks, live, m);
        var j :| 0 <= j < |events| && events[j] == live[m].event;
      }
    }

    method Splice(event: HookEvent, index: nat, hookId: string)
      requires Valid() && event in hooks && index < |hooks[event]| && hooks[event][index].id == hookId
      requires forall x :: 0 <= x < index ==> hooks[event][x].id != hookId
      modifies this
      ensures Valid()
      ensures exists k :: FirstWithId(old(live), k, hookId) && live == Without(old(live), k)
    {
      ghost var k := SpliceLists(hooks, live, event, index, hookId);
      var registration := hooks[event][index];
      hooks := hooks[event := Without(hooks[event], index)];
      if registration.pluginId in pluginHooks {
        pluginHooks := pluginHooks[registration.pluginId := pluginHooks[registration.pluginId] - {hookId}];
      }
      live := Without(live, k);
    }

    // Takes out everything the plugin registered, also what an id collision hides from pluginHooks, and
    // keeps everything else in order.
    method UnregisterPlugin(pluginId: string)
      requires Valid()
      modifies this
      ensures Valid() && live == Filter(old(live), NotOf(pluginId))
      ensures forall e :: List(e) == Filter(old(List(e)), NotOf(pluginId))
    {
      NobodyOwns(pluginHooks, live, pluginId);
      if pluginId !in pluginHooks {
        forall e ensures List(e) == Filter(List(e), NotOf(pluginId)) {
          FilterList(live, NotOf(pluginId), e);
        }
        return;
      }
      FilterHooks(pluginId);
      FilterLists(old(hooks), hooks, live, NotOf(pluginId));
      pluginHooks := pluginHooks - {pluginId};
      live := Filter(live, NotOf(pluginId));
    }

    method FilterHooks(pluginId: string)
      requires forall e :: e in hooks <==> e in events
      modifies this`hooks
      ensures hooks.Keys == old(hooks.Keys)
      ensures forall e :: At(hooks, e) == Filter(At(old(hooks), e), NotOf(pluginId))
    {
      var n := 0;
      while n < |events|
        invariant n <= |events| && hooks.Keys == old(hooks.Keys)
        invariant PartlyFiltered(hooks, old(hooks), events[..n], NotOf(pluginId))
      {
        var event := events[n];
        FilterNext(hooks, old(hooks), events[..n], event, NotOf(pluginId));
        hooks := hooks[event := Filter(hooks[event], NotOf(pluginId))];
        assert events[..n + 1] == events[..n] + [event];
        n := n + 1;
      }
      assert events[..|events|] == events;
      forall e ensures At(hooks, e) == Filter(At(old(hooks), e), NotOf(pluginId)) {
      }
    }
  }
}
