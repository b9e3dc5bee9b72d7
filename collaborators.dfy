/**
 * The collaborators the scene manager talks to, reduced to what it observes of
 * them: Unity's SceneManager and AsyncOperation handles, the caller's
 * IProgress<float> sink, the OnLoadingStart / OnLoadingEnd actions and
 * Resources.UnloadUnusedAssets. Each call is recorded as an Event, and so is
 * the step at which a coroutine updates its tracked group; what a handle
 * shows when it is polled comes from a trace given as input.
 */
module Collaborators {

  /** An IProgress<float> object; only its identity matters to the model. */
  datatype ProgressSink = ProgressSink(id: nat)

  /** A System.Action registered as a loading hook. */
  datatype Callback = Callback(id: nat)

  /** What one AsyncOperation shows at one poll: its progress and isDone. */
  datatype Poll = Poll(progress: real, isDone: bool)

  /** One poll of a whole load batch: one Poll per handle, in batch order. */
  type Tick = seq<Poll>

  /**
   * A single unload handle. SceneManager.UnloadSceneAsync may return null;
   * otherwise doneAt lists the isDone value seen at successive polls.
   */
  datatype UnloadHandle = NullHandle | Handle(doneAt: seq<bool>)

  /** Everything the scene manager does that is visible outside it. */
  datatype Event =
    | Start                          // OnLoadingStart invoked
    | End                            // OnLoadingEnd invoked
    | Load(scene: string)            // SceneManager.LoadSceneAsync(scene, Additive)
    | Unload(scene: string)          // SceneManager.UnloadSceneAsync(scene)
    | Gate(handle: nat, open: bool)  // allowSceneActivation := open on load handle #handle
    | Report(value: real)            // Progress.Report(value)
    | ReleaseUnused                  // Resources.UnloadUnusedAssets()
    | Commit                         // the coroutine runs its update of the tracked group (a struct copy may lose it)

  /**
   * How far a coroutine got over the observed ticks: it finished (Settled),
   * it is still suspended waiting on handles (Pending), or it threw (Faulted)
   * and nothing after the throw runs.
   */
  datatype Outcome = Settled | Pending | Faulted

  /** The calls a coroutine made, in order, and how it ended. */
  datatype Run = Run(log: seq<Event>, outcome: Outcome)
}
