# Smart scene management: a verified model of the group-transition engine

This project models the core of a Unity scene-management library. The
component `SmartSceneManagement` tracks two scene groups: the current group
and the persistent group. It drives Unity's asynchronous scene loads and
unloads for them. Five public coroutines make up its interface:
- switch to a new group: unload the old current list, load the new one, then
  replace the current group;
- load scenes into the current group;
- load scenes into the persistent group;
- unload one scene from the current group;
- unload one scene from the persistent group.

A shared loading loop polls every load handle. Each time, it reports the mean
progress. Once the mean reaches 0.9, it reports 1, opens every activation gate
and stops. `SceneGroupData` is the group record, a struct holding a name and a
reference to a `List<string>`. `SceneConfig` and its builder carry each
request.

How the model is built:

- **The list is a heap object.** `SceneLists.SceneList` wraps a `seq<string>`.
  A list shared between the caller and the component is one object, and
  `AddRange` or `Remove` through one holder is visible through the other.
- **The struct is a value.** `SceneGroups.SceneGroupData` is a datatype. The
  struct's methods that may create a list return the updated struct. The
  engine calls them through a property getter, which hands out a copy, so it
  discards that result, as the code does.
- **Collaborators are an event log.** Each call to Unity, to the progress
  sink or to a hook is appended to `events`. So is one internal step,
  `Commit`: the point where a coroutine runs its update of the tracked group.
  That update may be lost on a struct copy, as described below. What the
  handles show at each poll comes from an input trace with one element per
  loop iteration, and each element holds one value per handle. A coroutine
  has one of three outcomes:
  - `Settled`: it finished;
  - `Pending`: the trace ran out and it is still suspended;
  - `Faulted`: it threw, and nothing after the throw runs.
- **The structure follows the code.** Each coroutine is an imperative method
  with its loops. Each is proved equal to a function in `Transitions` of its
  inputs and the state before it. The lemmas in `Transitions` state what those
  functions mean:
  - a closed form of the polling loop;
  - which scenes are requested, and in what order;
  - the hook protocol;
  - monotone progress reports.

The model follows the code as written, including these behaviours a caller
may not expect:

- `IgnoreIfAlreadyLoaded` is stored but never read. No request is skipped.
- A switch unloads every entry of the old current list. It does not filter
  out persistent scenes.
- An empty request still fires both hooks and commits.
- After opening the gates, the loop stops at once. It does not poll until the
  handles are done.
- A batch may reach a poll where every handle is done. The loop then stops
  without reporting 1, so the reports end with 1 only when the loop stops at
  the threshold.
- Groups are lists:
  - loads append, with duplicates kept;
  - a switch replaces the current group with the caller's own list object;
  - an unload removes only the first occurrence.
- On a fresh component both lists are null. Loading into the persistent group
  then creates a list inside a discarded copy, so the group stays empty for
  good, although the coroutine still reaches its `Commit` step and fires the
  end hook. The current group behaves the same way until the first switch.

## Model

| member | source | states |
|---|---|---|
| SceneLists.SceneList.constructor | Runtime/Smart/SceneGroupData.cs:17 | a new list holds exactly the given names |
| SceneLists.SceneList.Add | Runtime/Smart/SceneGroupData.cs:18 | the name is appended at the end; nothing else changes |
| SceneLists.SceneList.AddRange | Runtime/Smart/SceneGroupData.cs:24 | the other list's names follow the old names in order, even when the other list is this list |
| SceneLists.SceneList.Remove | Runtime/Smart/SceneGroupData.cs:29 | the first occurrence of the name is removed and the result says whether there was one |
| SceneLists.RemoveFirst | Runtime/Smart/SceneGroupData.cs:29 | computes what List.Remove leaves: the list without the first occurrence of the name, unchanged when the name is absent; its contract says the length drops by one exactly when the name is present and that no new name appears |
| SceneLists.IndexOf | Runtime/Smart/SceneGroupData.cs:29 | the index found holds the name and no earlier index does |
| SceneLists.RemoveFirstRemovesOne | Runtime/Smart/SceneGroupData.cs:27-30 | removal takes away exactly one copy of a present name and changes nothing for an absent one; the length drops by one exactly when the name was present |
| SceneLists.RemoveFirstAt | Runtime/Smart/SceneGroupData.cs:29 | names before the first occurrence stay in place and names after it shift down by one |
| SceneLists.RemoveFirstTwice | Runtime/Smart/SmartSceneManagement.cs:46-51 | after one removal the name is still listed exactly when it was listed at least twice |
| SceneGroups.AddScene | Runtime/Smart/SceneGroupData.cs:15-19 | the name is kept; a null list is replaced by a fresh one, and a present list is kept; the list is the old members plus the name, which is then contained |
| SceneGroups.AddAllScenes | Runtime/Smart/SceneGroupData.cs:21-25 | the name is kept; a null list is replaced by a fresh one, and a present list is kept; the list is the old members followed by the given names in order |
| SceneGroups.RemoveScene | Runtime/Smart/SceneGroupData.cs:27-30 | the members lose the first occurrence of the name, or nothing when it is absent or the list is null; the count drops by one exactly when the name was a member |
| SceneGroups.ContainsScene | Runtime/Smart/SceneGroupData.cs:32-35 | true exactly when the name is a member; always false for a null list; reads the list without changing it |
| SceneConfigs.SceneConfig.constructor | Runtime/Smart/SceneConfig.cs:14-22 | the config stores its three arguments unchanged |
| SceneConfigs.SceneConfigBuilder.constructor | Runtime/Smart/SceneConfig.cs:29-31 | a new builder holds no sink, the default group with a null list, and false |
| SceneConfigs.SceneConfigBuilder.SetSceneGroup | Runtime/Smart/SceneConfig.cs:33-37 | returns the same builder; sets the group and leaves the other two fields alone |
| SceneConfigs.SceneConfigBuilder.SetProgress | Runtime/Smart/SceneConfig.cs:39-43 | returns the same builder; sets the sink and leaves the other two fields alone |
| SceneConfigs.SceneConfigBuilder.SetIgnoreIfAlreadyLoaded | Runtime/Smart/SceneConfig.cs:45-49 | returns the same builder; sets the flag and leaves the other two fields alone |
| SceneConfigs.SceneConfigBuilder.Build | Runtime/Smart/SceneConfig.cs:51-57 | a new config carries the builder's last-set values, and the builder is unchanged, so two builds agree field by field |
| SmartScene.SmartSceneManagement.constructor | Runtime/Smart/SmartSceneManagement.cs:12-15 | a fresh component has both groups at the default (null list), no hooks and no calls made |
| SmartScene.SmartSceneManagement.SetActivation | Runtime/Smart/SmartSceneManagement.cs:75-78 | the foreach sets the gate of every handle 0 .. n-1, in order |
| SmartScene.SmartSceneManagement.LoadScenesCoroutine | Runtime/Smart/SmartSceneManagement.cs:60-102 | its calls and outcome are those of the load phase of the config's list, which throws on a null list |
| SmartScene.SmartSceneManagement.UnloadSceneCoroutine | Runtime/Smart/SmartSceneManagement.cs:104-119 | one unload; a null handle ends at once; otherwise it waits for isDone, then releases unused assets |
| SmartScene.SmartSceneManagement.UnloadAllNonPersistentScenesCoroutine | Runtime/Smart/SmartSceneManagement.cs:121-137 | its calls and outcome are those of the unload-all phase of the list it is given |
| SmartScene.SmartSceneManagement.SwitchSceneGroupAsync | Runtime/Smart/SmartSceneManagement.cs:21-28 | its calls are the switch run over the old current list; on settling the current group becomes the config's group, list object included; otherwise it is unchanged; the persistent group and the hooks are never changed |
| SmartScene.SmartSceneManagement.LoadSceneToCurrentGroupAsync | Runtime/Smart/SmartSceneManagement.cs:30-36 | its calls are the load run; the struct stays as it was; a current list that exists gets the request's names appended on settling; a null one stays null; settling implies the request's list was not null |
| SmartScene.SmartSceneManagement.LoadPersistentSceneAsync | Runtime/Smart/SmartSceneManagement.cs:38-44 | the same for the persistent group, and the current group is not changed |
| SmartScene.SmartSceneManagement.UnloadSceneAsync | Runtime/Smart/SmartSceneManagement.cs:46-51 | no call for a non-member; otherwise one unload, then the first occurrence is removed once the unload settles; neither struct is replaced |
| SmartScene.SmartSceneManagement.UnloadPersistentSceneAsync | Runtime/Smart/SmartSceneManagement.cs:53-58 | the same against the persistent group |
| Transitions.PollLoad | Runtime/Smart/SmartSceneManagement.cs:80-98 | computes the polling loop over a trace: stop with no report once every handle is done; otherwise report the mean, and at a mean of at least 0.9 report 1, open every gate and settle; still pending when the trace runs out |
| Transitions.LoadPhase | Runtime/Smart/SmartSceneManagement.cs:60-102 | computes LoadScenesCoroutine: fault with no call on a null list; settle with no call on an empty one; otherwise one load per scene, one closed gate per handle, then the polling loop |
| Transitions.UnloadAllPhase | Runtime/Smart/SmartSceneManagement.cs:121-137 | computes UnloadAllNonPersistentScenesCoroutine: no call for a null or empty list; otherwise one unload per entry, then release unused assets and settle at the first poll where every handle is done, or stay pending |
| Transitions.UnloadOnePhase | Runtime/Smart/SmartSceneManagement.cs:104-119 | computes UnloadSceneCoroutine; its contract says the unload call comes first, the coroutine never throws, it settles exactly for a null handle or one that reports done, and it releases unused assets exactly when a real handle finishes |
| Transitions.SwitchPhases | Runtime/Smart/SmartSceneManagement.cs:24-25 | computes the body of a switch: the unload-all phase on the old list, and only once that settles the load phase on the target, ending as the load ends |
| Transitions.SwitchRun | Runtime/Smart/SmartSceneManagement.cs:21-28 | computes SwitchSceneGroupAsync's calls: the start hook, both phases, and on settling the commit and the end hook |
| Transitions.AddToGroupRun | Runtime/Smart/SmartSceneManagement.cs:30-44 | computes the calls of both load-into-group coroutines: the start hook, the load phase, and on settling the commit and the end hook |
| Transitions.RemoveFromGroupRun | Runtime/Smart/SmartSceneManagement.cs:46-58 | computes the calls of both unload-one coroutines; its contract says they never throw, a member's unload is the first call, and a settled unload of a member ends with the commit |
| Transitions.ExitTick | Runtime/Smart/SmartSceneManagement.cs:80-95 | the first poll where every handle is done or the mean reaches 0.9; no earlier poll does either |
| Transitions.PollLoadWaits | Runtime/Smart/SmartSceneManagement.cs:80-98 | without a stopping poll, the loop reports every mean and is still waiting |
| Transitions.PollLoadAllDone | Runtime/Smart/SmartSceneManagement.cs:80-98 | stopped by a poll where every handle is done, the loop has reported only the earlier means and settles |
| Transitions.PollLoadOpens | Runtime/Smart/SmartSceneManagement.cs:80-98 | stopped at the threshold, the loop reports the means up to that poll, then 1, then opens every gate and settles |
| Transitions.PollLoadOpensAtOnce | Runtime/Smart/SmartSceneManagement.cs:82-94 | a first poll at the threshold reports its mean and 1 and opens all gates |
| Transitions.PollLoadStep | Runtime/Smart/SmartSceneManagement.cs:80-97 | a poll that does not stop the loop reports its mean, and the loop goes on with the remaining polls |
| Transitions.PollLoadClosedForm | Runtime/Smart/SmartSceneManagement.cs:80-98 | the loop's calls in closed form: one mean per poll up to the first stopping poll, plus 1 and the gates when it stops at the threshold; a first poll with all done gives no report |
| Transitions.PollLoadOutcome | Runtime/Smart/SmartSceneManagement.cs:80-98 | the loop settles exactly when some poll stops it |
| Transitions.GatesOpenOnlyAtThreshold | Runtime/Smart/SmartSceneManagement.cs:86-94 | the loop only ever opens gates, and does so only when it stops at a poll whose mean reached 0.9 with some handle not done |
| Transitions.GatesOpenLast | Runtime/Smart/SmartSceneManagement.cs:86-94 | when it stops at the threshold, its last calls open gates 0 .. n-1, just after a report of 1, which follows the mean that reached the threshold |
| Transitions.PollLoadEvents | Runtime/Smart/SmartSceneManagement.cs:80-98 | the loop only reports progress and opens gates |
| Transitions.ReportsAtLeast | Runtime/Smart/SmartSceneManagement.cs:82-88 | every value reported is at least any lower bound of the polled means that is at most 1 |
| Transitions.ReportsNondecreasing | Runtime/Smart/SmartSceneManagement.cs:82-88 | with per-handle progress in [0, 1] and never decreasing, the reported values never decrease |
| Transitions.ReportsEndAtOne | Runtime/Smart/SmartSceneManagement.cs:86-88 | a batch that stops at the threshold with a sink ends its reports with exactly 1 |
| Transitions.MeanBounded | Runtime/Smart/SmartSceneManagement.cs:82 | the average of progress values in [0, 1] lies in [0, 1] |
| Transitions.MeanMonotone | Runtime/Smart/SmartSceneManagement.cs:82 | more progress on every handle gives a mean at least as large |
| Transitions.ThreeHandleScenario | Runtime/Smart/SmartSceneManagement.cs:80-94 | handles at 0.95, 0.88 and 0.91 make the first poll report their mean, then 1, and open all three gates |
| Transitions.LoadPhaseCalls | Runtime/Smart/SmartSceneManagement.cs:65-78 | the load phase requests exactly the listed scenes in order, with duplicates, and unloads nothing; every load and every closed gate comes before any report or opening; a null list throws and an empty one returns, both with no call |
| Transitions.UnloadAllPhaseCalls | Runtime/Smart/SmartSceneManagement.cs:121-137 | the unload-all phase unloads exactly the listed entries in order and loads nothing; a null or empty list makes no call; otherwise it settles exactly when some poll finds every handle done |
| Transitions.SwitchPhasesCalls | Runtime/Smart/SmartSceneManagement.cs:24-25 | the phases of a switch unload the old list, then load the new one only once the unloads settle, with every unload before every load |
| Transitions.SwitchCalls | Runtime/Smart/SmartSceneManagement.cs:21-28 | a switch unloads exactly the old current list, persistent scenes included, and loads exactly the target list once the unloads settle |
| Transitions.SwitchSettles | Runtime/Smart/SmartSceneManagement.cs:21-28 | a switch settles exactly when both of its phases settle |
| Transitions.SwitchUnloadsFirst | Runtime/Smart/SmartSceneManagement.cs:24-25 | in a switch every unload call comes before every load call |
| Transitions.SwitchHooks | Runtime/Smart/SmartSceneManagement.cs:21-28 | a switch keeps the hook protocol: Start first when set, commit exactly on settling, followed only by End when set |
| Transitions.AddToGroupCalls | Runtime/Smart/SmartSceneManagement.cs:30-44 | loading into a group requests exactly the request's scenes and unloads nothing |
| Transitions.AddToGroupHooks | Runtime/Smart/SmartSceneManagement.cs:30-44 | loading into a group keeps the hook protocol |
| Transitions.AddToGroupEdgeCases | Runtime/Smart/SmartSceneManagement.cs:30-44 | an empty request still fires Start, commits and fires End; a null one stops after Start |
| Transitions.RemoveFromGroupCalls | Runtime/Smart/SmartSceneManagement.cs:46-58 | unloading one scene makes no call for a non-member; otherwise it unloads it once; it commits exactly when the scene was a member and the unload settled, at once for a null handle; it never fires a hook |

## Left out

- Unity's own services are not modelled. `SceneManager.LoadSceneAsync`, `UnloadSceneAsync`, `Resources.UnloadUnusedAssets` and the handles' `progress`, `isDone` and `allowSceneActivation` are events and trace inputs. `ActiveScene`, `SceneCount` and `GetSceneAt` (Runtime/Smart/SmartSceneManagement.cs:16-19) only forward to `SceneManager` and hold no state of the component.
- Editor-only logging (`print`, `Debug.Log`) is output only and is left out.
- Unity's coroutine scheduler is replaced by input traces. Each coroutine is modelled alone; several coroutines interleaving on the same component are not.
- A hook or progress sink that calls back into the component, or that throws, is not modelled. Hooks are plain fields that the caller sets.
- Progress is a mathematical real, not float32. The threshold `0.9f` is compared as 0.9, and `Average` is computed without rounding.
- SmartScene.SmartSceneManagement.LoadScenesCoroutine: every load handle is taken to be non-null. The code dereferences a null handle at Runtime/Smart/SmartSceneManagement.cs:77 without a check.
- SmartScene.SmartSceneManagement.UnloadAllNonPersistentScenesCoroutine: every unload handle is taken to be non-null. The code dereferences a null handle at Runtime/Smart/SmartSceneManagement.cs:125 without a check.
- SceneGroups.AddAllScenes: the list argument is non-null. `List.AddRange(null)` throws. The engine never reaches that call with a null list, because the load phase has already thrown.
- A throw inside a nested coroutine is taken to stop the public coroutine that waits on it. Nothing after the throw runs.
- Scene names are non-null strings. A group's name, which may be null, is an `Option<string>`.
- Runtime/Smart/SceneGroupDataSo.cs (an authoring asset that copies into a `SceneGroupData`), Runtime/SimpleSceneManagement.cs (a single-scene wrapper) and the interfaces Runtime/Smart/ISmartSceneManagement.cs, Runtime/Simple/ISimpleSceneManagement.cs and Runtime/ISmartScene.cs are not part of this model.
