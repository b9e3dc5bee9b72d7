/**
 * SmartSceneManagement: the component that tracks the current scene group
 * and the persistent scene group and drives Unity's asynchronous scene loads
 * and unloads for them.
 *
 * Each public coroutine is a method. What the Unity handles show when they
 * are polled is an input trace: one element per iteration of a polling loop.
 * A coroutine that runs out of trace is still suspended (Pending) and the
 * steps after its wait have not happened. Every call the component makes to
 * a collaborator is appended to events.
 */
module SmartScene {
  import opened Wrappers
  import opened Collaborators
  import opened Transitions
  import opened SceneLists
  import opened SceneGroups
  import opened SceneConfigs

  class SmartSceneManagement {
    /** CurrentSceneGroup: an auto-property holding a struct, so reads hand out copies. */
    var currentSceneGroup: SceneGroupData
    /** CurrentPersistentSceneGroup: likewise. */
    var currentPersistentSceneGroup: SceneGroupData
    var onLoadingStart: Option<Callback>
    var onLoadingEnd: Option<Callback>
    /** The calls made so far to Unity, to progress sinks and to the hooks. */
    var events: seq<Event>

    /** A fresh component: both groups default (null lists), no hooks. */
    constructor ()
      ensures currentSceneGroup == Default && currentPersistentSceneGroup == Default
      ensures onLoadingStart == None && onLoadingEnd == None
      ensures events == []
    {
      currentSceneGroup := Default;
      currentPersistentSceneGroup := Default;
      onLoadingStart := None;
      onLoadingEnd := None;
      events := [];
    }

    // -------------------------------------------------------------------
    // Private coroutines: each returns the calls it made and how it ended.

    /** The foreach that sets allowSceneActivation on every handle of a batch of n. */
    method SetActivation(n: nat, open: bool) returns (log: seq<Event>)
      ensures log == Gates(n, open)
    {
      log := [];
      for i := 0 to n
        invariant log == Gates(i, open)
      {
        log := log + [Gate(i, open)];
      }
    }

    method LoadScenesCoroutine(config: SceneConfig, ticks: seq<Tick>) returns (run: Run)
      requires config.sceneGroup.scenes != null ==> Fits(ticks, |config.sceneGroup.scenes.items|)
      ensures run == LoadPhase(View(config.sceneGroup.scenes), config.progress, ticks)
    {
      var list := config.sceneGroup.scenes;
      if list == null {
        // Select over a null source throws ArgumentNullException.
        return Run([], Faulted);
      }
      var scenes := list.items;
      var n := |scenes|;
      var log: seq<Event> := [];
      for i := 0 to n
        invariant log == Loads(scenes[..i])
      {
        assert Loads(scenes[..i + 1]) == Loads(scenes[..i]) + [Load(scenes[i])];
        log := log + [Load(scenes[i])];
      }
      assert scenes[..n] == scenes;
      if n == 0 {
        return Run(log, Settled);
      }
      var closing := SetActivation(n, false);
      log := log + closing;
      ghost var polled := log;
      var k := 0;
      while k < |ticks|
        invariant 0 <= k <= |ticks|
        invariant log + PollLoad(ticks[k..], n, config.progress).log == polled + PollLoad(ticks, n, config.progress).log
        invariant PollLoad(ticks[k..], n, config.progress).outcome == PollLoad(ticks, n, config.progress).outcome
      {
        var t := ticks[k];
        if AllDone(t) {
          return Run(log, Settled);
        }
        var mean := Mean(t);
        if config.progress.Some? {
          log := log + [Report(mean)];
        }
        if mean >= ActivationThreshold {
          if config.progress.Some? {
            log := log + [Report(1.0)];
          }
          var opening := SetActivation(n, true);
          log := log + opening;
          return Run(log, Settled);
        }
        assert ticks[k..][1..] == ticks[k + 1..];
        k := k + 1;
      }
      return Run(log, Pending);
    }

    method UnloadSceneCoroutine(sceneName: string, handle: UnloadHandle) returns (run: Run)
      ensures run == UnloadOnePhase(sceneName, handle)
    {
      var log := [Unload(sceneName)];
      match handle
      case NullHandle =>
        return Run(log, Settled);
      case Handle(doneAt) =>
        var k := 0;
        while k < |doneAt| && !doneAt[k]
          invariant 0 <= k <= |doneAt|
          invariant forall j :: 0 <= j < k ==> !doneAt[j]
        {
          k := k + 1;
        }
        if k == |doneAt| {
          return Run(log, Pending);
        }
        return Run(log + [ReleaseUnused], Settled);
    }

    method UnloadAllNonPersistentScenesCoroutine(scenes: SceneList?, ticks: seq<seq<bool>>) returns (run: Run)
      requires scenes != null ==> Fits(ticks, |scenes.items|)
      ensures run == UnloadAllPhase(View(scenes), ticks)
    {
      if scenes == null || |scenes.items| == 0 {
        return Run([], Settled);
      }
      var names := scenes.items;
      var log: seq<Event> := [];
      for i := 0 to |names|
        invariant log == Unloads(names[..i])
      {
        assert Unloads(names[..i + 1]) == Unloads(names[..i]) + [Unload(names[i])];
        log := log + [Unload(names[i])];
      }
      assert names[..|names|] == names;
      var k := 0;
      while k < |ticks| && !AllTrue(ticks[k])
        invariant 0 <= k <= |ticks|
        invariant forall j :: 0 <= j < k ==> !AllTrue(ticks[j])
      {
        k := k + 1;
      }
      if k == |ticks| {
        return Run(log, Pending);
      }
      return Run(log + [ReleaseUnused], Settled);
    }

    // -------------------------------------------------------------------
    // Public coroutines

    method SwitchSceneGroupAsync(config: SceneConfig, unloadTicks: seq<seq<bool>>, loadTicks: seq<Tick>)
      returns (outcome: Outcome)
      requires currentSceneGroup.scenes != null ==> Fits(unloadTicks, |currentSceneGroup.scenes.items|)
      requires config.sceneGroup.scenes != null ==> Fits(loadTicks, |config.sceneGroup.scenes.items|)
      modifies this
      ensures onLoadingStart == old(onLoadingStart) && onLoadingEnd == old(onLoadingEnd)
      ensures var run := SwitchRun(onLoadingStart, onLoadingEnd, old(View(currentSceneGroup.scenes)),
                                   View(config.sceneGroup.scenes), config.progress, unloadTicks, loadTicks);
              events == old(events) + run.log && outcome == run.outcome
      ensures currentSceneGroup == if outcome == Settled then config.sceneGroup else old(currentSceneGroup)
      ensures currentPersistentSceneGroup == old(currentPersistentSceneGroup)
    {
      ghost var phases := SwitchPhases(View(currentSceneGroup.scenes), View(config.sceneGroup.scenes),
                                       config.progress, unloadTicks, loadTicks);
      var log := Notify(onLoadingStart, Start);
      var unload := UnloadAllNonPersistentScenesCoroutine(currentSceneGroup.scenes, unloadTicks);
      log := log + unload.log;
      if unload.outcome != Settled {
        assert phases == unload;
        assert log + Closing(onLoadingEnd, unload.outcome) == log;
        events := events + log;
        return unload.outcome;
      }
      var load := LoadScenesCoroutine(config, loadTicks);
      assert phases == Run(unload.log + load.log, load.outcome);
      assert log + load.log == Notify(onLoadingStart, Start) + phases.log;
      log := log + load.log;
      if load.outcome != Settled {
        assert log + Closing(onLoadingEnd, load.outcome) == log;
        events := events + log;
        return load.outcome;
      }
      // The whole struct is replaced: the component now shares the caller's list.
      currentSceneGroup := config.sceneGroup;
      assert log + ([Commit] + Notify(onLoadingEnd, End)) == log + [Commit] + Notify(onLoadingEnd, End);
      log := log + [Commit] + Notify(onLoadingEnd, End);
      events := events + log;
      return Settled;
    }

    method LoadSceneToCurrentGroupAsync(config: SceneConfig, loadTicks: seq<Tick>) returns (outcome: Outcome)
      requires config.sceneGroup.scenes != null ==> Fits(loadTicks, |config.sceneGroup.scenes.items|)
      modifies this, currentSceneGroup.scenes
      ensures onLoadingStart == old(onLoadingStart) && onLoadingEnd == old(onLoadingEnd)
      ensures var run := AddToGroupRun(onLoadingStart, onLoadingEnd, old(View(config.sceneGroup.scenes)),
                                       config.progress, loadTicks);
              events == old(events) + run.log && outcome == run.outcome
      ensures outcome == Settled ==> config.sceneGroup.scenes != null
      ensures currentSceneGroup == old(currentSceneGroup)
      ensures currentPersistentSceneGroup == old(currentPersistentSceneGroup)
      ensures currentSceneGroup.scenes != null ==>
                currentSceneGroup.scenes.items ==
                  if outcome == Settled then old(currentSceneGroup.scenes.items) + old(config.sceneGroup.scenes.items)
                  else old(currentSceneGroup.scenes.items)
    {
      var log := Notify(onLoadingStart, Start);
      var load := LoadScenesCoroutine(config, loadTicks);
      log := log + load.log;
      if load.outcome != Settled {
        events := events + log;
        return load.outcome;
      }
      // The property getter returns a copy of the struct: a list that
      // AddAllScenes creates for a null one is stored in the copy and lost.
      var copy := AddAllScenes(currentSceneGroup, config.sceneGroup.scenes);
      log := log + [Commit] + Notify(onLoadingEnd, End);
      events := events + log;
      return Settled;
    }

    method LoadPersistentSceneAsync(config: SceneConfig, loadTicks: seq<Tick>) returns (outcome: Outcome)
      requires config.sceneGroup.scenes != null ==> Fits(loadTicks, |config.sceneGroup.scenes.items|)
      modifies this, currentPersistentSceneGroup.scenes
      ensures onLoadingStart == old(onLoadingStart) && onLoadingEnd == old(onLoadingEnd)
      ensures var run := AddToGroupRun(onLoadingStart, onLoadingEnd, old(View(config.sceneGroup.scenes)),
                                       config.progress, loadTicks);
              events == old(events) + run.log && outcome == run.outcome
      ensures outcome == Settled ==> config.sceneGroup.scenes != null
      ensures currentSceneGroup == old(currentSceneGroup)
      ensures currentPersistentSceneGroup == old(currentPersistentSceneGroup)
      ensures currentPersistentSceneGroup.scenes != null ==>
                currentPersistentSceneGroup.scenes.items ==
                  if outcome == Settled then old(currentPersistentSceneGroup.scenes.items) + old(config.sceneGroup.scenes.items)
                  else old(currentPersistentSceneGroup.scenes.items)
    {
      var log := Notify(onLoadingStart, Start);
      var load := LoadScenesCoroutine(config, loadTicks);
      log := log + load.log;
      if load.outcome != Settled {
        events := events + log;
        return load.outcome;
      }
      // As above, AddAllScenes runs on a copy of the struct.
      var copy := AddAllScenes(currentPersistentSceneGroup, config.sceneGroup.scenes);
      log := log + [Commit] + Notify(onLoadingEnd, End);
      events := events + log;
      return Settled;
    }

    method UnloadSceneAsync(sceneName: string, handle: UnloadHandle) returns (outcome: Outcome)
      modifies this, currentSceneGroup.scenes
      ensures onLoadingStart == old(onLoadingStart) && onLoadingEnd == old(onLoadingEnd)
      ensures var run := RemoveFromGroupRun(old(ContainsScene(currentSceneGroup, sceneName)), sceneName, handle);
              events == old(events) + run.log && outcome == run.outcome
      ensures currentSceneGroup == old(currentSceneGroup)
      ensures currentPersistentSceneGroup == old(currentPersistentSceneGroup)
      ensures Members(currentSceneGroup) ==
                if old(ContainsScene(currentSceneGroup, sceneName)) && outcome == Settled
                then RemoveFirst(old(Members(currentSceneGroup)), sceneName)
                else old(Members(currentSceneGroup))
    {
      if !ContainsScene(currentSceneGroup, sceneName) {
        return Settled;
      }
      var unload := UnloadSceneCoroutine(sceneName, handle);
      if unload.outcome != Settled {
        events := events + unload.log;
        return unload.outcome;
      }
      RemoveScene(currentSceneGroup, sceneName);
      events := events + unload.log + [Commit];
      return Settled;
    }

    method UnloadPersistentSceneAsync(sceneName: string, handle: UnloadHandle) returns (outcome: Outcome)
      modifies this, currentPersistentSceneGroup.scenes
      ensures onLoadingStart == old(onLoadingStart) && onLoadingEnd == old(onLoadingEnd)
      ensures var run := RemoveFromGroupRun(old(ContainsScene(currentPersistentSceneGroup, sceneName)), sceneName, handle);
              events == old(events) + run.log && outcome == run.outcome
      ensures currentSceneGroup == old(currentSceneGroup)
      ensures currentPersistentSceneGroup == old(currentPersistentSceneGroup)
      ensures Members(currentPersistentSceneGroup) ==
                if old(ContainsScene(currentPersistentSceneGroup, sceneName)) && outcome == Settled
                then RemoveFirst(old(Members(currentPersistentSceneGroup)), sceneName)
                else old(Members(currentPersistentSceneGroup))
    {
      if !ContainsScene(currentPersistentSceneGroup, sceneName) {
        return Settled;
      }
      var unload := UnloadSceneCoroutine(sceneName, handle);
      if unload.outcome != Settled {
        events := events + unload.log;
        return unload.outcome;
      }
      RemoveScene(currentPersistentSceneGroup, sceneName);
      events := events + unload.log + [Commit];
      return Settled;
    }
  }

  /** A config for a named group over a fresh list holding scenes. */
  method ConfigFor(name: string, scenes: seq<string>) returns (config: SceneConfig, list: SceneList)
    ensures fresh(config) && fresh(list)
    ensures list.items == scenes
    ensures config.sceneGroup == SceneGroupData(Some(name), list) && config.progress == None
  {
    list := new SceneList(scenes);
    var builder := new SceneConfigBuilder();
    var _ := builder.SetSceneGroup(SceneGroupData(Some(name), list));
    config := builder.Build();
  }

  /**
   * On a fresh component the persistent group has a null list. Loading into
   * it creates a list inside a copy of the struct, so the scene is loaded but
   * the component never records it.
   */
  method FreshPersistentLoadIsForgotten()
  {
    var engine := new SmartSceneManagement();
    var config, list := ConfigFor("ui", ["Hud"]);
    assert View(config.sceneGroup.scenes) == Some(["Hud"]);
    var outcome := engine.LoadPersistentSceneAsync(config, [[Poll(1.0, true)]]);
    assert outcome == Settled;
    assert engine.events == AddToGroupRun(None, None, Some(["Hud"]), None, [[Poll(1.0, true)]]).log;
    AddToGroupCalls(None, None, Some(["Hud"]), None, [[Poll(1.0, true)]]);
    assert LoadRequests(engine.events) == ["Hud"];
    assert engine.currentPersistentSceneGroup == Default;
    assert !ContainsScene(engine.currentPersistentSceneGroup, "Hud");
  }

  /**
   * After a switch the component holds the caller's own list: a change the
   * caller makes to it afterwards shows in the current group.
   */
  method SwitchSharesCallersList()
  {
    var engine := new SmartSceneManagement();
    var config, list := ConfigFor("level", ["Level1"]);
    var outcome := engine.SwitchSceneGroupAsync(config, [], [[Poll(1.0, true)]]);
    assert outcome == Settled;
    assert engine.currentSceneGroup.scenes == list;
    list.Add("Level2");
    assert Members(engine.currentSceneGroup) == ["Level1", "Level2"];
  }

  /**
   * A scene listed twice is removed once per unload, and a null unload handle
   * still lets the removal happen.
   */
  method UnloadRemovesOneCopy()
  {
    var engine := new SmartSceneManagement();
    var config, list := ConfigFor("level", ["A", "B", "A"]);
    var outcome := engine.SwitchSceneGroupAsync(config, [], [[Poll(1.0, true), Poll(1.0, true), Poll(1.0, true)]]);
    assert outcome == Settled;
    outcome := engine.UnloadSceneAsync("A", NullHandle);
    assert outcome == Settled;
    assert Members(engine.currentSceneGroup) == ["B", "A"];
    outcome := engine.UnloadSceneAsync("A", Handle([false, true]));
    assert outcome == Settled;
    assert Members(engine.currentSceneGroup) == ["B"];
    outcome := engine.UnloadSceneAsync("A", NullHandle);
    assert outcome == Settled;
    assert Members(engine.currentSceneGroup) == ["B"];
  }
}
