/**
 * What each coroutine of the scene manager does, as functions of what it is
 * asked to do and of what its handles show at successive polls. The loops of
 * the engine are proved against these functions; the lemmas here state what
 * the functions mean.
 */
module Transitions {
  import opened Wrappers
  import opened Collaborators

  /** The mean load progress at which every activation gate is opened (0.9f). */
  const ActivationThreshold: real := 0.9

  /** Every poll of a batch shows one value per handle of the batch. */
  predicate Fits<T>(ticks: seq<seq<T>>, n: nat)
  {
    forall k :: 0 <= k < |ticks| ==> |ticks[k]| == n
  }

  /** operations.All(op => op.isDone) */
  predicate AllDone(t: Tick)
  {
    forall i :: 0 <= i < |t| ==> t[i].isDone
  }

  /** The same test on a batch of unload handles. */
  predicate AllTrue(t: seq<bool>)
  {
    forall i :: 0 <= i < |t| ==> t[i]
  }

  function Sum(t: Tick): real
  {
    if t == [] then 0.0 else t[0].progress + Sum(t[1..])
  }

  /** operations.Average(op => op.progress) */
  function Mean(t: Tick): real
    requires t != []
  {
    Sum(t) / (|t| as real)
  }

  /** One LoadSceneAsync call per scene, in list order. */
  function Loads(scenes: seq<string>): seq<Event>
  {
    seq(|scenes|, i requires 0 <= i < |scenes| => Load(scenes[i]))
  }

  /** One UnloadSceneAsync call per scene, in list order. */
  function Unloads(scenes: seq<string>): seq<Event>
  {
    seq(|scenes|, i requires 0 <= i < |scenes| => Unload(scenes[i]))
  }

  /** The foreach that sets allowSceneActivation on handles 0 .. n-1. */
  function Gates(n: nat, open: bool): seq<Event>
  {
    seq(n, i requires 0 <= i < n => Gate(i, open))
  }

  /** Progress?.Report(value) */
  function ReportTo(sink: Option<ProgressSink>, value: real): seq<Event>
  {
    if sink.Some? then [Report(value)] else []
  }

  /** hook?.Invoke() */
  function Notify(hook: Option<Callback>, e: Event): seq<Event>
  {
    if hook.Some? then [e] else []
  }

  // ---------------------------------------------------------------------
  // The three private coroutines

  /**
   * The polling loop of LoadScenesCoroutine over n load handles, one element
   * of ticks per iteration: stop silently once every handle is done;
   * otherwise report the mean, and at a mean of at least the threshold
   * report 1, open every gate and stop. Out of ticks: still suspended.
   */
  function PollLoad(ticks: seq<Tick>, n: nat, sink: Option<ProgressSink>): Run
    requires n > 0 && Fits(ticks, n)
    decreases |ticks|
  {
    if ticks == [] then Run([], Pending)
    else if AllDone(ticks[0]) then Run([], Settled)
    else if Mean(ticks[0]) >= ActivationThreshold then
      Run(ReportTo(sink, Mean(ticks[0])) + ReportTo(sink, 1.0) + Gates(n, true), Settled)
    else
      var rest := PollLoad(ticks[1..], n, sink);
      Run(ReportTo(sink, Mean(ticks[0])) + rest.log, rest.outcome)
  }

  /**
   * LoadScenesCoroutine: start one load per scene, hold every activation,
   * then poll. Select over a null list throws; an empty list stops at once.
   */
  function LoadPhase(scenes: Option<seq<string>>, sink: Option<ProgressSink>, ticks: seq<Tick>): Run
    requires scenes.Some? ==> Fits(ticks, |scenes.value|)
  {
    match scenes
    case None => Run([], Faulted)
    case Some(s) =>
      if s == [] then Run([], Settled)
      else
        var poll := PollLoad(ticks, |s|, sink);
        Run(Loads(s) + Gates(|s|, false) + poll.log, poll.outcome)
  }

  /**
   * UnloadAllNonPersistentScenesCoroutine: nothing for a null or empty list;
   * otherwise one unload per entry, then wait until a poll finds every
   * handle done, then release unused assets.
   */
  function UnloadAllPhase(scenes: Option<seq<string>>, ticks: seq<seq<bool>>): Run
    requires scenes.Some? ==> Fits(ticks, |scenes.value|)
  {
    if scenes.None? || scenes.value == [] then Run([], Settled)
    else if exists k :: 0 <= k < |ticks| && AllTrue(ticks[k]) then
      Run(Unloads(scenes.value) + [ReleaseUnused], Settled)
    else Run(Unloads(scenes.value), Pending)
  }

  /**
   * UnloadSceneCoroutine: one unload; a null handle ends the coroutine at
   * once, otherwise wait for isDone and release unused assets.
   */
  function UnloadOnePhase(scene: string, h: UnloadHandle): (r: Run)
    ensures |r.log| > 0 && r.log[0] == Unload(scene)
    ensures r.outcome != Faulted
    ensures r.outcome == Settled <==> h.NullHandle? || true in h.doneAt
    ensures ReleaseUnused in r.log <==> h.Handle? && r.outcome == Settled
  {
    match h
    case NullHandle => Run([Unload(scene)], Settled)
    case Handle(doneAt) =>
      if true in doneAt then Run([Unload(scene), ReleaseUnused], Settled)
      else Run([Unload(scene)], Pending)
  }

  // ---------------------------------------------------------------------
  // The five public coroutines, as the calls they make

  /** After the phases of a load or a switch: commit and OnLoadingEnd, reached only on settling. */
  function Closing(onEnd: Option<Callback>, outcome: Outcome): seq<Event>
  {
    if outcome == Settled then [Commit] + Notify(onEnd, End) else []
  }

  /** The two phases of a switch: unload the old list, then, once that settles, load. */
  function SwitchPhases(previous: Option<seq<string>>, target: Option<seq<string>>,
                        sink: Option<ProgressSink>, unloadTicks: seq<seq<bool>>, loadTicks: seq<Tick>): Run
    requires target.Some? ==> Fits(loadTicks, |target.value|)
    requires previous.Some? ==> Fits(unloadTicks, |previous.value|)
  {
    var unload := UnloadAllPhase(previous, unloadTicks);
    if unload.outcome != Settled then unload
    else
      var load := LoadPhase(target, sink, loadTicks);
      Run(unload.log + load.log, load.outcome)
  }

  /** SwitchSceneGroupAsync: start, unload the old list, load, commit, end. */
  function SwitchRun(onStart: Option<Callback>, onEnd: Option<Callback>,
                     previous: Option<seq<string>>, target: Option<seq<string>>,
                     sink: Option<ProgressSink>, unloadTicks: seq<seq<bool>>, loadTicks: seq<Tick>): Run
    requires target.Some? ==> Fits(loadTicks, |target.value|)
    requires previous.Some? ==> Fits(unloadTicks, |previous.value|)
  {
    var phases := SwitchPhases(previous, target, sink, unloadTicks, loadTicks);
    Run(Notify(onStart, Start) + phases.log + Closing(onEnd, phases.outcome), phases.outcome)
  }

  /** LoadSceneToCurrentGroupAsync and LoadPersistentSceneAsync: start, load, commit, end. */
  function AddToGroupRun(onStart: Option<Callback>, onEnd: Option<Callback>,
                         target: Option<seq<string>>, sink: Option<ProgressSink>, loadTicks: seq<Tick>): Run
    requires target.Some? ==> Fits(loadTicks, |target.value|)
  {
    var load := LoadPhase(target, sink, loadTicks);
    Run(Notify(onStart, Start) + load.log + Closing(onEnd, load.outcome), load.outcome)
  }

  /** UnloadSceneAsync and UnloadPersistentSceneAsync: no hooks, nothing for a non-member. */
  function RemoveFromGroupRun(member: bool, scene: string, h: UnloadHandle): (r: Run)
    ensures r.outcome != Faulted
    ensures member ==> |r.log| > 0 && r.log[0] == Unload(scene)
    ensures member && r.outcome == Settled ==> r.log[|r.log| - 1] == Commit
  {
    if !member then Run([], Settled)
    else
      var unload := UnloadOnePhase(scene, h);
      if unload.outcome == Settled then Run(unload.log + [Commit], Settled) else unload
  }

  // ---------------------------------------------------------------------
  // The load polling loop in closed form

  /** A poll at which the loop stops: all done, or the mean reaches the threshold. */
  predicate Exits(t: Tick)
  {
    AllDone(t) || (t != [] && Mean(t) >= ActivationThreshold)
  }

  /** The first poll at which the loop stops, or |ticks| when there is none. */
  function ExitTick(ticks: seq<Tick>): (k: nat)
    ensures k <= |ticks|
    ensures forall j :: 0 <= j < k ==> !Exits(ticks[j])
    ensures k < |ticks| ==> Exits(ticks[k])
  {
    if ticks == [] then 0
    else if Exits(ticks[0]) then 0
    else 1 + ExitTick(ticks[1..])
  }

  /** One report of the mean per poll (none without a sink). */
  function MeanReports(sink: Option<ProgressSink>, ticks: seq<Tick>): seq<Event>
    requires forall k :: 0 <= k < |ticks| ==> ticks[k] != []
  {
    if sink.None? then []
    else seq(|ticks|, k requires 0 <= k < |ticks| => Report(Mean(ticks[k])))
  }

  lemma MeanReportsCons(sink: Option<ProgressSink>, ticks: seq<Tick>, m: nat)
    requires forall k :: 0 <= k < |ticks| ==> ticks[k] != []
    requires 0 < m <= |ticks|
    ensures MeanReports(sink, ticks[..m]) == ReportTo(sink, Mean(ticks[0])) + MeanReports(sink, ticks[1..][..m - 1])
  {
    if sink.Some? {
      var a, b := MeanReports(sink, ticks[..m]), ReportTo(sink, Mean(ticks[0])) + MeanReports(sink, ticks[1..][..m - 1]);
      assert |a| == |b|;
      forall k | 0 <= k < |a| ensures a[k] == b[k] {
        if k > 0 {
          assert ticks[..m][k] == ticks[1..][..m - 1][k - 1];
        }
      }
    }
  }

  /** The loop stops at a poll whose mean reaches the threshold while some handle is not done. */
  predicate StopsAtThreshold(ticks: seq<Tick>)
  {
    ExitTick(ticks) < |ticks| && !AllDone(ticks[ExitTick(ticks)])
  }

  /** A poll that does not stop the loop: report its mean, then go on with the rest. */
  lemma PollLoadStep(ticks: seq<Tick>, n: nat, sink: Option<ProgressSink>)
    requires n > 0 && Fits(ticks, n)
    requires ticks != [] && !Exits(ticks[0])
    ensures PollLoad(ticks, n, sink) ==
              Run(ReportTo(sink, Mean(ticks[0])) + PollLoad(ticks[1..], n, sink).log, PollLoad(ticks[1..], n, sink).outcome)
  {
  }

  /** Without a poll that stops it, the loop reports every mean and is still waiting. */
  lemma {:induction false} PollLoadWaits(ticks: seq<Tick>, n: nat, sink: Option<ProgressSink>)
    requires n > 0 && Fits(ticks, n)
    requires ExitTick(ticks) == |ticks|
    ensures PollLoad(ticks, n, sink) == Run(MeanReports(sink, ticks), Pending)
  {
    if ticks != [] {
      var tail := ticks[1..];
      var head, rest := ReportTo(sink, Mean(ticks[0])), PollLoad(tail, n, sink);
      PollLoadStep(ticks, n, sink);
      assert rest == Run(MeanReports(sink, tail), Pending) by {
        PollLoadWaits(tail, n, sink);
      }
      assert head + rest.log == MeanReports(sink, ticks) by {
        MeanReportsCons(sink, ticks, |ticks|);
        assert ticks[..|ticks|] == ticks;
        assert tail[..|tail|] == tail;
      }
    }
  }

  /** Stopped by a poll with every handle done, the loop has reported the means before it, and settles. */
  lemma {:induction false} PollLoadAllDone(ticks: seq<Tick>, n: nat, sink: Option<ProgressSink>)
    requires n > 0 && Fits(ticks, n)
    requires ExitTick(ticks) < |ticks| && AllDone(ticks[ExitTick(ticks)])
    ensures PollLoad(ticks, n, sink) == Run(MeanReports(sink, ticks[..ExitTick(ticks)]), Settled)
  {
    var k := ExitTick(ticks);
    if k > 0 {
      var tail := ticks[1..];
      var head, rest := ReportTo(sink, Mean(ticks[0])), PollLoad(tail, n, sink);
      PollLoadStep(ticks, n, sink);
      assert rest == Run(MeanReports(sink, tail[..k - 1]), Settled) by {
        assert ExitTick(tail) == k - 1 && tail[k - 1] == ticks[k];
        PollLoadAllDone(tail, n, sink);
      }
      assert head + rest.log == MeanReports(sink, ticks[..k]) by {
        MeanReportsCons(sink, ticks, k);
      }
    }
  }

  /** A first poll at the threshold with some handle not done: report it and 1, open every gate. */
  lemma PollLoadOpensAtOnce(ticks: seq<Tick>, n: nat, sink: Option<ProgressSink>)
    requires n > 0 && Fits(ticks, n)
    requires ticks != [] && !AllDone(ticks[0]) && Mean(ticks[0]) >= ActivationThreshold
    ensures PollLoad(ticks, n, sink) ==
              Run(MeanReports(sink, ticks[..1]) + ReportTo(sink, 1.0) + Gates(n, true), Settled)
  {
    assert ticks[..1] == [ticks[0]];
    if sink.Some? {
      assert MeanReports(sink, [ticks[0]]) == [Report(Mean(ticks[0]))];
    }
  }

  /**
   * Stopped at the threshold with some handle not done, the loop has
   * reported the means up to and including that poll, then reports 1, opens
   * every gate, and settles.
   */
  lemma {:induction false} PollLoadOpens(ticks: seq<Tick>, n: nat, sink: Option<ProgressSink>)
    requires n > 0 && Fits(ticks, n)
    requires StopsAtThreshold(ticks)
    ensures PollLoad(ticks, n, sink) ==
              Run(MeanReports(sink, ticks[..ExitTick(ticks) + 1]) + ReportTo(sink, 1.0) + Gates(n, true), Settled)
  {
    var k := ExitTick(ticks);
    if k == 0 {
      PollLoadOpensAtOnce(ticks, n, sink);
    } else {
      var tail := ticks[1..];
      var head, rest := ReportTo(sink, Mean(ticks[0])), PollLoad(tail, n, sink);
      var opening := ReportTo(sink, 1.0) + Gates(n, true);
      PollLoadStep(ticks, n, sink);
      assert rest == Run(MeanReports(sink, tail[..k]) + opening, Settled) by {
        assert StopsAtThreshold(tail) && ExitTick(tail) == k - 1 by {
          assert tail[k - 1] == ticks[k];
        }
        PollLoadOpens(tail, n, sink);
      }
      assert head + rest.log == MeanReports(sink, ticks[..k + 1]) + opening by {
        MeanReportsCons(sink, ticks, k + 1);
      }
    }
  }

  /**
   * The loop reports the mean of every poll up to the one where it stops,
   * and nothing else, unless that poll reached the threshold with some
   * handle not yet done: then the mean is followed at once by a report of 1
   * and by opening every gate, and the loop stops without waiting for isDone.
   * A first poll with every handle done gives no report at all.
   */
  lemma PollLoadClosedForm(ticks: seq<Tick>, n: nat, sink: Option<ProgressSink>)
    requires n > 0 && Fits(ticks, n)
    ensures var k := ExitTick(ticks);
            PollLoad(ticks, n, sink) ==
              if k == |ticks| then Run(MeanReports(sink, ticks), Pending)
              else if AllDone(ticks[k]) then Run(MeanReports(sink, ticks[..k]), Settled)
              else Run(MeanReports(sink, ticks[..k + 1]) + ReportTo(sink, 1.0) + Gates(n, true), Settled)
  {
    var k := ExitTick(ticks);
    if k == |ticks| {
      PollLoadWaits(ticks, n, sink);
    } else if AllDone(ticks[k]) {
      PollLoadAllDone(ticks, n, sink);
    } else {
      PollLoadOpens(ticks, n, sink);
    }
  }

  /** The mean reports are one Report per poll, in order, or none without a sink. */
  lemma MeanReportsShape(sink: Option<ProgressSink>, ticks: seq<Tick>)
    requires forall k :: 0 <= k < |ticks| ==> ticks[k] != []
    ensures |MeanReports(sink, ticks)| == if sink.Some? then |ticks| else 0
    ensures forall i :: 0 <= i < |MeanReports(sink, ticks)| ==> MeanReports(sink, ticks)[i] == Report(Mean(ticks[i]))
  {
  }

  /**
   * Gates are only ever opened, never closed, by the polling loop, and only
   * when it stops at a poll whose mean reaches the threshold while some
   * handle is not done (every earlier poll being below the threshold, by
   * ExitTick).
   */
  lemma GatesOpenOnlyAtThreshold(ticks: seq<Tick>, n: nat, sink: Option<ProgressSink>)
    requires n > 0 && Fits(ticks, n)
    ensures forall i :: 0 <= i < |PollLoad(ticks, n, sink).log| && PollLoad(ticks, n, sink).log[i].Gate? ==>
              PollLoad(ticks, n, sink).log[i].open && StopsAtThreshold(ticks)
  {
    PollLoadClosedForm(ticks, n, sink);
    var k := ExitTick(ticks);
    var log := PollLoad(ticks, n, sink).log;
    if k == |ticks| {
      MeanReportsShape(sink, ticks);
    } else if AllDone(ticks[k]) {
      MeanReportsShape(sink, ticks[..k]);
    } else {
      var reports := MeanReports(sink, ticks[..k + 1]);
      MeanReportsShape(sink, ticks[..k + 1]);
      assert log == reports + ReportTo(sink, 1.0) + Gates(n, true);
      forall i | 0 <= i < |log| && log[i].Gate? ensures log[i].open {
        assert i >= |reports| + |ReportTo(sink, 1.0)|;
        assert log[i] == Gates(n, true)[i - |reports| - |ReportTo(sink, 1.0)|];
      }
    }
  }

  /** The tail of a log that ends with a report of 1 and the opening of n gates. */
  lemma OpeningTail(log: seq<Event>, reports: seq<Event>, sink: Option<ProgressSink>, n: nat, m: real)
    requires log == reports + ReportTo(sink, 1.0) + Gates(n, true)
    requires sink.Some? ==> |reports| > 0 && reports[|reports| - 1] == Report(m)
    ensures |log| >= n + |ReportTo(sink, 1.0)|
    ensures log[|log| - n..] == Gates(n, true)
    ensures sink.Some? ==> |log| >= n + 2 && log[|log| - n - 2..|log| - n] == [Report(m), Report(1.0)]
  {
    assert |log| == |reports| + |ReportTo(sink, 1.0)| + n;
    assert log[|log| - n..] == Gates(n, true);
    if sink.Some? {
      assert log[|log| - n - 2] == reports[|reports| - 1];
    }
  }

  /**
   * When the loop stops at the threshold, its last events open all n gates
   * in order, just after a report of 1 which itself follows the report of the
   * mean that reached the threshold (both reports only with a sink).
   */
  lemma GatesOpenLast(ticks: seq<Tick>, n: nat, sink: Option<ProgressSink>)
    requires n > 0 && Fits(ticks, n)
    requires StopsAtThreshold(ticks)
    ensures |PollLoad(ticks, n, sink).log| >= n + |ReportTo(sink, 1.0)|
    ensures PollLoad(ticks, n, sink).log[|PollLoad(ticks, n, sink).log| - n..] == Gates(n, true)
    ensures sink.Some? ==>
              && |PollLoad(ticks, n, sink).log| >= n + 2
              && PollLoad(ticks, n, sink).log[|PollLoad(ticks, n, sink).log| - n - 2..|PollLoad(ticks, n, sink).log| - n] ==
                   [Report(Mean(ticks[ExitTick(ticks)])), Report(1.0)]
  {
    var k := ExitTick(ticks);
    var prefix := ticks[..k + 1];
    var log := PollLoad(ticks, n, sink).log;
    var reports := MeanReports(sink, prefix);
    PollLoadOpens(ticks, n, sink);
    assert log == reports + ReportTo(sink, 1.0) + Gates(n, true);
    MeanReportsShape(sink, prefix);
    if sink.Some? {
      assert |reports| == k + 1;
      assert reports[k] == Report(Mean(ticks[k]));
    }
    OpeningTail(log, reports, sink, n, Mean(ticks[k]));
  }



  /** The loop settles exactly when some poll stops it; otherwise it is still waiting. */
  lemma PollLoadOutcome(ticks: seq<Tick>, n: nat, sink: Option<ProgressSink>)
    requires n > 0 && Fits(ticks, n)
    ensures PollLoad(ticks, n, sink).outcome == (if ExitTick(ticks) < |ticks| then Settled else Pending)
  {
    PollLoadClosedForm(ticks, n, sink);
  }

  // ---------------------------------------------------------------------
  // Progress reported by the loop

  /** The values reported to the progress sink, in order. */
  function Reported(log: seq<Event>): seq<real>
  {
    if log == [] then [] else (if log[0].Report? then [log[0].value] else []) + Reported(log[1..])
  }

  lemma {:induction false} ReportedAppend(a: seq<Event>, b: seq<Event>)
    ensures Reported(a + b) == Reported(a) + Reported(b)
  {
    if a == [] {
      assert a + b == b;
    } else {
      var ab := a + b;
      assert ab[0] == a[0] && ab[1..] == a[1..] + b;
      ReportedAppend(a[1..], b);
    }
  }

  lemma {:induction false} ReportedGates(n: nat, open: bool)
    ensures Reported(Gates(n, open)) == []
  {
    if n > 0 {
      assert Gates(n, open) == Gates(n - 1, open) + [Gate(n - 1, open)];
      ReportedAppend(Gates(n - 1, open), [Gate(n - 1, open)]);
      ReportedGates(n - 1, open);
    }
  }

  predicate Nondecreasing(s: seq<real>)
  {
    forall i, j :: 0 <= i < j < |s| ==> s[i] <= s[j]
  }

  /** Every handle's progress stays within [0, 1] and never goes down from poll to poll. */
  predicate SaneProgress(ticks: seq<Tick>, n: nat)
  {
    && Fits(ticks, n)
    && (forall k, i :: 0 <= k < |ticks| && 0 <= i < n ==> 0.0 <= ticks[k][i].progress <= 1.0)
    && (forall k, l, i :: 0 <= k < l < |ticks| && 0 <= i < n ==> ticks[k][i].progress <= ticks[l][i].progress)
  }

  lemma {:induction false} SumMonotone(a: Tick, b: Tick)
    requires |a| == |b|
    requires forall i :: 0 <= i < |a| ==> a[i].progress <= b[i].progress
    ensures Sum(a) <= Sum(b)
  {
    if a != [] {
      SumMonotone(a[1..], b[1..]);
    }
  }

  lemma {:induction false} SumBounded(a: Tick)
    requires forall i :: 0 <= i < |a| ==> 0.0 <= a[i].progress <= 1.0
    ensures 0.0 <= Sum(a) <= |a| as real
  {
    if a != [] {
      SumBounded(a[1..]);
    }
  }

  /** The mean of progress values in [0, 1] is in [0, 1]. */
  lemma MeanBounded(a: Tick)
    requires a != []
    requires forall i :: 0 <= i < |a| ==> 0.0 <= a[i].progress <= 1.0
    ensures 0.0 <= Mean(a) <= 1.0
  {
    SumBounded(a);
  }

  /** Handle by handle more progress gives a larger mean. */
  lemma MeanMonotone(a: Tick, b: Tick)
    requires a != [] && |a| == |b|
    requires forall i :: 0 <= i < |a| ==> a[i].progress <= b[i].progress
    ensures Mean(a) <= Mean(b)
  {
    SumMonotone(a, b);
  }

  /** Every value the loop reports is at least any lower bound of the means polled, when that bound is at most 1. */
  lemma {:induction false} ReportsAtLeast(ticks: seq<Tick>, n: nat, sink: Option<ProgressSink>, low: real)
    requires n > 0 && Fits(ticks, n)
    requires low <= 1.0
    requires forall k :: 0 <= k < |ticks| ==> low <= Mean(ticks[k])
    ensures forall i :: 0 <= i < |Reported(PollLoad(ticks, n, sink).log)| ==>
              low <= Reported(PollLoad(ticks, n, sink).log)[i]
  {
    if ticks != [] && !AllDone(ticks[0]) {
      if Mean(ticks[0]) >= ActivationThreshold {
        ReportedAppend(ReportTo(sink, Mean(ticks[0])) + ReportTo(sink, 1.0), Gates(n, true));
        ReportedAppend(ReportTo(sink, Mean(ticks[0])), ReportTo(sink, 1.0));
        ReportedGates(n, true);
      } else {
        ReportsAtLeast(ticks[1..], n, sink, low);
        ReportedAppend(ReportTo(sink, Mean(ticks[0])), PollLoad(ticks[1..], n, sink).log);
      }
    }
  }

  lemma NondecreasingCons(m: real, r: seq<real>)
    requires Nondecreasing(r)
    requires forall i :: 0 <= i < |r| ==> m <= r[i]
    ensures Nondecreasing([m] + r)
  {
    var s := [m] + r;
    forall i, j | 0 <= i < j < |s| ensures s[i] <= s[j] {
      assert s[j] == r[j - 1];
      if i > 0 {
        assert s[i] == r[i - 1];
      }
    }
  }

  /**
   * When each handle's progress stays in [0, 1] and never decreases, the
   * values reported during one load batch never decrease.
   */
  lemma {:induction false} ReportsNondecreasing(ticks: seq<Tick>, n: nat, sink: Option<ProgressSink>)
    requires n > 0 && SaneProgress(ticks, n)
    ensures Nondecreasing(Reported(PollLoad(ticks, n, sink).log))
  {
    if ticks != [] && !AllDone(ticks[0]) {
      var m := Mean(ticks[0]);
      MeanBounded(ticks[0]);
      if m >= ActivationThreshold {
        ReportedAppend(ReportTo(sink, m) + ReportTo(sink, 1.0), Gates(n, true));
        ReportedAppend(ReportTo(sink, m), ReportTo(sink, 1.0));
        ReportedGates(n, true);
        assert Reported(PollLoad(ticks, n, sink).log) == if sink.Some? then [m, 1.0] else [];
      } else {
        var tail := ticks[1..];
        var rest := PollLoad(tail, n, sink).log;
        assert SaneProgress(tail, n);
        forall k | 0 <= k < |tail| ensures m <= Mean(tail[k]) {
          MeanMonotone(ticks[0], tail[k]);
        }
        ReportsAtLeast(tail, n, sink, m);
        ReportsNondecreasing(tail, n, sink);
        ReportedAppend(ReportTo(sink, m), rest);
        if sink.Some? {
          NondecreasingCons(m, Reported(rest));
        }
      }
    }
  }

  /** A batch that opens its gates with a sink attached ends its reports with exactly 1. */
  lemma {:induction false} ReportsEndAtOne(ticks: seq<Tick>, n: nat, sink: Option<ProgressSink>)
    requires n > 0 && Fits(ticks, n)
    requires StopsAtThreshold(ticks) && sink.Some?
    ensures Reported(PollLoad(ticks, n, sink).log) != []
    ensures Reported(PollLoad(ticks, n, sink).log)[|Reported(PollLoad(ticks, n, sink).log)| - 1] == 1.0
  {
    var m := Mean(ticks[0]);
    if m >= ActivationThreshold {
      ReportedAppend(ReportTo(sink, m) + ReportTo(sink, 1.0), Gates(n, true));
      ReportedAppend(ReportTo(sink, m), ReportTo(sink, 1.0));
      ReportedGates(n, true);
      assert Reported(PollLoad(ticks, n, sink).log) == [m, 1.0];
    } else {
      var tail := ticks[1..];
      assert ExitTick(ticks) == 1 + ExitTick(tail);
      assert tail[ExitTick(tail)] == ticks[ExitTick(ticks)];
      ReportsEndAtOne(tail, n, sink);
      ReportedAppend(ReportTo(sink, m), PollLoad(tail, n, sink).log);
    }
  }

  /**
   * Three handles at 0.95, 0.88 and 0.91 average about 0.913: the first poll
   * reports that mean, then 1, and opens all three gates.
   */
  lemma ThreeHandleScenario(sink: ProgressSink)
    ensures var t := [Poll(0.95, false), Poll(0.88, false), Poll(0.91, false)];
            PollLoad([t], 3, Some(sink)) ==
              Run([Report((0.95 + 0.88 + 0.91) / 3.0), Report(1.0), Gate(0, true), Gate(1, true), Gate(2, true)], Settled)
  {
    var t := [Poll(0.95, false), Poll(0.88, false), Poll(0.91, false)];
    assert Sum(t) == 0.95 + 0.88 + 0.91;
    assert !AllDone(t);
  }

  // ---------------------------------------------------------------------
  // Which scenes each run asks Unity for, and in what order

  /** The scenes of the Load calls in a log, in order. */
  function LoadRequests(log: seq<Event>): seq<string>
  {
    if log == [] then [] else (if log[0].Load? then [log[0].scene] else []) + LoadRequests(log[1..])
  }

  /** The scenes of the Unload calls in a log, in order. */
  function UnloadRequests(log: seq<Event>): seq<string>
  {
    if log == [] then [] else (if log[0].Unload? then [log[0].scene] else []) + UnloadRequests(log[1..])
  }

  /** An event a coroutine phase can make: no hook, no commit. */
  predicate PhaseEvent(e: Event)
  {
    !(e.Start? || e.End? || e.Commit?)
  }

  lemma {:induction false} LoadRequestsAppend(a: seq<Event>, b: seq<Event>)
    ensures LoadRequests(a + b) == LoadRequests(a) + LoadRequests(b)
  {
    if a == [] {
      assert a + b == b;
    } else {
      var ab := a + b;
      assert ab[0] == a[0] && ab[1..] == a[1..] + b;
      LoadRequestsAppend(a[1..], b);
    }
  }

  lemma {:induction false} UnloadRequestsAppend(a: seq<Event>, b: seq<Event>)
    ensures UnloadRequests(a + b) == UnloadRequests(a) + UnloadRequests(b)
  {
    if a == [] {
      assert a + b == b;
    } else {
      var ab := a + b;
      assert ab[0] == a[0] && ab[1..] == a[1..] + b;
      UnloadRequestsAppend(a[1..], b);
    }
  }

  lemma RequestsAppend(a: seq<Event>, b: seq<Event>)
    ensures LoadRequests(a + b) == LoadRequests(a) + LoadRequests(b)
    ensures UnloadRequests(a + b) == UnloadRequests(a) + UnloadRequests(b)
  {
    LoadRequestsAppend(a, b);
    UnloadRequestsAppend(a, b);
  }

  lemma {:induction false} NoRequests(log: seq<Event>)
    requires forall i :: 0 <= i < |log| ==> !log[i].Load? && !log[i].Unload?
    ensures LoadRequests(log) == [] && UnloadRequests(log) == []
  {
    if log != [] {
      NoRequests(log[1..]);
    }
  }

  lemma {:induction false} RequestsOfLoads(s: seq<string>)
    ensures LoadRequests(Loads(s)) == s && UnloadRequests(Loads(s)) == []
  {
    if s != [] {
      assert Loads(s) == [Load(s[0])] + Loads(s[1..]);
      RequestsAppend([Load(s[0])], Loads(s[1..]));
      RequestsOfLoads(s[1..]);
    }
  }

  lemma {:induction false} RequestsOfUnloads(s: seq<string>)
    ensures UnloadRequests(Unloads(s)) == s && LoadRequests(Unloads(s)) == []
  {
    if s != [] {
      assert Unloads(s) == [Unload(s[0])] + Unloads(s[1..]);
      RequestsAppend([Unload(s[0])], Unloads(s[1..]));
      RequestsOfUnloads(s[1..]);
    }
  }

  /** A call the polling loop can make: a progress report or opening a gate. */
  predicate PollEvent(e: Event)
  {
    e.Report? || (e.Gate? && e.open)
  }

  predicate PollEvents(log: seq<Event>)
  {
    forall i :: 0 <= i < |log| ==> PollEvent(log[i])
  }

  lemma PollEventsAppend(a: seq<Event>, b: seq<Event>)
    requires PollEvents(a) && PollEvents(b)
    ensures PollEvents(a + b)
  {
    forall i | 0 <= i < |a + b| ensures PollEvent((a + b)[i]) {
      if i >= |a| {
        assert (a + b)[i] == b[i - |a|];
      }
    }
  }

  /** The polling loop only reports progress and opens gates. */
  lemma {:induction false} PollLoadEvents(ticks: seq<Tick>, n: nat, sink: Option<ProgressSink>)
    requires n > 0 && Fits(ticks, n)
    ensures PollEvents(PollLoad(ticks, n, sink).log)
  {
    if ticks != [] && !AllDone(ticks[0]) {
      var head := ReportTo(sink, Mean(ticks[0]));
      if Mean(ticks[0]) >= ActivationThreshold {
        assert PollEvents(Gates(n, true));
        PollEventsAppend(head, ReportTo(sink, 1.0));
        PollEventsAppend(head + ReportTo(sink, 1.0), Gates(n, true));
      } else {
        PollLoadEvents(ticks[1..], n, sink);
        PollEventsAppend(head, PollLoad(ticks[1..], n, sink).log);
      }
    }
  }

  /** Only calls to Unity and to the progress sink: no hook, no commit. */
  predicate OnlyPhaseEvents(log: seq<Event>)
  {
    forall i :: 0 <= i < |log| ==> PhaseEvent(log[i])
  }

  /**
   * A load batch over scenes that first starts every load, in order, then
   * holds every gate, and only after that reports or opens a gate.
   */
  predicate StartsThenHolds(scenes: seq<string>, log: seq<Event>)
  {
    var n := |scenes|;
    && |log| >= 2 * n
    && (forall h :: 0 <= h < n ==> log[h] == Load(scenes[h]) && log[n + h] == Gate(h, false))
    && (forall i :: 0 <= i < |log| && PollEvent(log[i]) ==> i >= 2 * n)
  }

  /** Starting every load of s, holding every gate, then polling: a non-empty load batch. */
  lemma LoadBatchShape(s: seq<string>, poll: seq<Event>)
    requires s != [] && PollEvents(poll)
    ensures LoadRequests(Loads(s) + Gates(|s|, false) + poll) == s
    ensures UnloadRequests(Loads(s) + Gates(|s|, false) + poll) == []
    ensures OnlyPhaseEvents(Loads(s) + Gates(|s|, false) + poll)
    ensures StartsThenHolds(s, Loads(s) + Gates(|s|, false) + poll)
  {
    var n := |s|;
    var log := Loads(s) + Gates(n, false) + poll;
    RequestsOfLoads(s);
    NoRequests(Gates(n, false));
    NoRequests(poll);
    RequestsAppend(Loads(s), Gates(n, false));
    RequestsAppend(Loads(s) + Gates(n, false), poll);
    forall i | 0 <= i < |log| ensures PhaseEvent(log[i]) && (PollEvent(log[i]) ==> i >= 2 * n) {
      if i >= 2 * n {
        assert log[i] == poll[i - 2 * n];
      } else if i >= n {
        assert log[i] == Gate(i - n, false);
      } else {
        assert log[i] == Load(s[i]);
      }
    }
    forall h | 0 <= h < n ensures log[h] == Load(s[h]) && log[n + h] == Gate(h, false) {
      assert log[n + h] == Gates(n, false)[h];
    }
  }

  /**
   * LoadScenesCoroutine asks for exactly the listed scenes, one load per
   * entry in list order with duplicates kept, and unloads nothing. Every load
   * is started and every gate is closed before the first poll, so every
   * report and every gate opening comes after them. A null list throws and
   * an empty one returns at once, both with no call at all.
   */
  lemma LoadPhaseCalls(scenes: Option<seq<string>>, sink: Option<ProgressSink>, ticks: seq<Tick>)
    requires scenes.Some? ==> Fits(ticks, |scenes.value|)
    ensures LoadRequests(LoadPhase(scenes, sink, ticks).log) == (if scenes.Some? then scenes.value else [])
    ensures UnloadRequests(LoadPhase(scenes, sink, ticks).log) == []
    ensures OnlyPhaseEvents(LoadPhase(scenes, sink, ticks).log)
    ensures scenes.Some? && scenes.value != [] ==> StartsThenHolds(scenes.value, LoadPhase(scenes, sink, ticks).log)
    ensures scenes == Some([]) ==> LoadPhase(scenes, sink, ticks) == Run([], Settled)
    ensures scenes.None? ==> LoadPhase(scenes, sink, ticks) == Run([], Faulted)
  {
    if scenes.Some? && scenes.value != [] {
      var s := scenes.value;
      var poll := PollLoad(ticks, |s|, sink);
      PollLoadEvents(ticks, |s|, sink);
      LoadBatchShape(s, poll.log);
      assert LoadPhase(scenes, sink, ticks).log == Loads(s) + Gates(|s|, false) + poll.log;
    }
  }

  /**
   * UnloadAllNonPersistentScenesCoroutine asks to unload exactly the entries
   * of the list it is given, in order (nothing for a null or empty list),
   * loads nothing, and settles only once some poll finds every handle done.
   */
  lemma UnloadAllPhaseCalls(scenes: Option<seq<string>>, ticks: seq<seq<bool>>)
    requires scenes.Some? ==> Fits(ticks, |scenes.value|)
    ensures UnloadRequests(UnloadAllPhase(scenes, ticks).log) == (if scenes.Some? then scenes.value else [])
    ensures LoadRequests(UnloadAllPhase(scenes, ticks).log) == []
    ensures OnlyPhaseEvents(UnloadAllPhase(scenes, ticks).log)
    ensures scenes.Some? && scenes.value != [] ==>
              (UnloadAllPhase(scenes, ticks).outcome == Settled <==> exists k :: 0 <= k < |ticks| && AllTrue(ticks[k]))
    ensures scenes.None? || scenes.value == [] ==> UnloadAllPhase(scenes, ticks) == Run([], Settled)
    ensures UnloadAllPhase(scenes, ticks).outcome != Faulted
  {
    if scenes.Some? && scenes.value != [] {
      RequestsOfUnloads(scenes.value);
      NoRequests([ReleaseUnused]);
      RequestsAppend(Unloads(scenes.value), [ReleaseUnused]);
    }
  }

  /** A log requests no load (no unload) exactly when it holds no Load (Unload) event. */
  lemma {:induction false} RequestsEmpty(log: seq<Event>)
    ensures LoadRequests(log) == [] <==> forall i :: 0 <= i < |log| ==> !log[i].Load?
    ensures UnloadRequests(log) == [] <==> forall i :: 0 <= i < |log| ==> !log[i].Unload?
  {
    if log != [] {
      RequestsEmpty(log[1..]);
      assert forall i :: 1 <= i < |log| ==> log[i] == log[1..][i - 1];
    }
  }

  /** Every unload call of the log comes before every load call. */
  predicate UnloadsFirst(log: seq<Event>)
  {
    forall i, j :: 0 <= i < |log| && 0 <= j < |log| && log[i].Unload? && log[j].Load? ==> i < j
  }

  /** In a + b, with no load in a and no unload in b, every unload comes before every load. */
  lemma UnloadsBeforeLoads(a: seq<Event>, b: seq<Event>)
    requires forall i :: 0 <= i < |a| ==> !a[i].Load?
    requires forall j :: 0 <= j < |b| ==> !b[j].Unload?
    ensures UnloadsFirst(a + b)
  {
  }

  /** Putting calls that request nothing around a log keeps its unloads first. */
  lemma OrderAround(a: seq<Event>, b: seq<Event>, c: seq<Event>)
    requires forall i :: 0 <= i < |a| ==> !a[i].Load? && !a[i].Unload?
    requires forall i :: 0 <= i < |c| ==> !c[i].Load? && !c[i].Unload?
    requires UnloadsFirst(b)
    ensures UnloadsFirst(a + b + c)
  {
    var log := a + b + c;
    forall i, j | 0 <= i < |log| && 0 <= j < |log| && log[i].Unload? && log[j].Load?
      ensures i < j
    {
      assert log[i] == b[i - |a|];
      assert log[j] == b[j - |a|];
    }
  }

  /** Phase calls with no load followed by phase calls with no unload. */
  lemma PhasesJoin(a: seq<Event>, b: seq<Event>)
    requires forall i :: 0 <= i < |a| ==> !a[i].Load?
    requires forall j :: 0 <= j < |b| ==> !b[j].Unload?
    requires OnlyPhaseEvents(a) && OnlyPhaseEvents(b)
    ensures LoadRequests(a + b) == LoadRequests(b)
    ensures UnloadRequests(a + b) == UnloadRequests(a)
    ensures OnlyPhaseEvents(a + b)
    ensures UnloadsFirst(a + b)
  {
    RequestsEmpty(a);
    RequestsEmpty(b);
    RequestsAppend(a, b);
    UnloadsBeforeLoads(a, b);
    forall i | |a| <= i < |a + b| ensures PhaseEvent((a + b)[i]) {
      assert (a + b)[i] == b[i - |a|];
    }
  }

  /** The phases of a switch only call Unity: first every unload, then, once those settle, every load. */
  lemma SwitchPhasesCalls(previous: Option<seq<string>>, target: Option<seq<string>>,
                          sink: Option<ProgressSink>, unloadTicks: seq<seq<bool>>, loadTicks: seq<Tick>)
    requires target.Some? ==> Fits(loadTicks, |target.value|)
    requires previous.Some? ==> Fits(unloadTicks, |previous.value|)
    ensures UnloadRequests(SwitchPhases(previous, target, sink, unloadTicks, loadTicks).log) ==
              (if previous.Some? then previous.value else [])
    ensures LoadRequests(SwitchPhases(previous, target, sink, unloadTicks, loadTicks).log) ==
              (if UnloadAllPhase(previous, unloadTicks).outcome == Settled && target.Some? then target.value else [])
    ensures OnlyPhaseEvents(SwitchPhases(previous, target, sink, unloadTicks, loadTicks).log)
    ensures UnloadsFirst(SwitchPhases(previous, target, sink, unloadTicks, loadTicks).log)
  {
    var unload := UnloadAllPhase(previous, unloadTicks);
    UnloadAllPhaseCalls(previous, unloadTicks);
    RequestsEmpty(unload.log);
    if unload.outcome == Settled {
      var load := LoadPhase(target, sink, loadTicks);
      LoadPhaseCalls(target, sink, loadTicks);
      RequestsEmpty(load.log);
      assert SwitchPhases(previous, target, sink, unloadTicks, loadTicks) == Run(unload.log + load.log, load.outcome);
      PhasesJoin(unload.log, load.log);
    } else {
      assert SwitchPhases(previous, target, sink, unloadTicks, loadTicks) == unload;
    }
  }

  /**
   * SwitchSceneGroupAsync unloads every entry of the old current list (none
   * when it is null or empty, and persistent scenes are not filtered out),
   * then, once those are done, loads every scene of the target list; every
   * unload call comes before every load call.
   */
  lemma SwitchCalls(onStart: Option<Callback>, onEnd: Option<Callback>,
                    previous: Option<seq<string>>, target: Option<seq<string>>,
                    sink: Option<ProgressSink>, unloadTicks: seq<seq<bool>>, loadTicks: seq<Tick>)
    requires target.Some? ==> Fits(loadTicks, |target.value|)
    requires previous.Some? ==> Fits(unloadTicks, |previous.value|)
    ensures UnloadRequests(SwitchRun(onStart, onEnd, previous, target, sink, unloadTicks, loadTicks).log) ==
              (if previous.Some? then previous.value else [])
    ensures LoadRequests(SwitchRun(onStart, onEnd, previous, target, sink, unloadTicks, loadTicks).log) ==
              (if UnloadAllPhase(previous, unloadTicks).outcome == Settled && target.Some? then target.value else [])
  {
    var phases := SwitchPhases(previous, target, sink, unloadTicks, loadTicks);
    SwitchPhasesCalls(previous, target, sink, unloadTicks, loadTicks);
    HookedRequests(onStart, onEnd, phases.log, phases.outcome);
  }

  /** A switch settles exactly when both of its phases settle. */
  lemma SwitchSettles(onStart: Option<Callback>, onEnd: Option<Callback>,
                      previous: Option<seq<string>>, target: Option<seq<string>>,
                      sink: Option<ProgressSink>, unloadTicks: seq<seq<bool>>, loadTicks: seq<Tick>)
    requires target.Some? ==> Fits(loadTicks, |target.value|)
    requires previous.Some? ==> Fits(unloadTicks, |previous.value|)
    ensures SwitchRun(onStart, onEnd, previous, target, sink, unloadTicks, loadTicks).outcome == Settled <==>
              UnloadAllPhase(previous, unloadTicks).outcome == Settled && LoadPhase(target, sink, loadTicks).outcome == Settled
  {
  }

  /** In a switch, every unload call comes before every load call. */
  lemma SwitchUnloadsFirst(onStart: Option<Callback>, onEnd: Option<Callback>,
                           previous: Option<seq<string>>, target: Option<seq<string>>,
                           sink: Option<ProgressSink>, unloadTicks: seq<seq<bool>>, loadTicks: seq<Tick>)
    requires target.Some? ==> Fits(loadTicks, |target.value|)
    requires previous.Some? ==> Fits(unloadTicks, |previous.value|)
    ensures UnloadsFirst(SwitchRun(onStart, onEnd, previous, target, sink, unloadTicks, loadTicks).log)
  {
    var phases := SwitchPhases(previous, target, sink, unloadTicks, loadTicks);
    SwitchPhasesCalls(previous, target, sink, unloadTicks, loadTicks);
    HookedOrder(onStart, onEnd, phases.log, phases.outcome);
  }

  /**
   * The hooks around a load or a switch: Start is the first event whenever a
   * start hook is set (even for an empty request) and never appears
   * elsewhere; the group-update step is reached exactly when the run settles,
   * and it is followed by End alone, when an end hook is set.
   */
  predicate HookProtocol(run: Run, onStart: Option<Callback>, onEnd: Option<Callback>)
  {
    && (onStart.Some? ==> |run.log| > 0 && run.log[0] == Start)
    && (forall i :: 0 <= i < |run.log| && run.log[i] == Start ==> i == 0 && onStart.Some?)
    && (forall i :: 0 <= i < |run.log| && run.log[i] == Commit ==>
          run.outcome == Settled && i == |run.log| - 1 - |Notify(onEnd, End)|)
    && (forall i :: 0 <= i < |run.log| && run.log[i] == End ==> run.outcome == Settled && i == |run.log| - 1)
    && (run.outcome == Settled ==>
          && |run.log| > |Notify(onEnd, End)|
          && run.log[|run.log| - 1 - |Notify(onEnd, End)|] == Commit
          && (onEnd.Some? ==> run.log[|run.log| - 1] == End))
  }

  /** Start, then phase events only, then (on settling) Commit and End: the hook protocol holds. */
  lemma HooksAround(onStart: Option<Callback>, onEnd: Option<Callback>, middle: seq<Event>, outcome: Outcome)
    requires OnlyPhaseEvents(middle)
    ensures HookProtocol(Run(Notify(onStart, Start) + middle + Closing(onEnd, outcome), outcome), onStart, onEnd)
  {
    var start := Notify(onStart, Start);
    var log := start + middle + Closing(onEnd, outcome);
    forall i | |start| <= i < |start| + |middle|
      ensures PhaseEvent(log[i])
    {
      assert log[i] == middle[i - |start|];
    }
  }

  lemma SwitchHooks(onStart: Option<Callback>, onEnd: Option<Callback>,
                    previous: Option<seq<string>>, target: Option<seq<string>>,
                    sink: Option<ProgressSink>, unloadTicks: seq<seq<bool>>, loadTicks: seq<Tick>)
    requires target.Some? ==> Fits(loadTicks, |target.value|)
    requires previous.Some? ==> Fits(unloadTicks, |previous.value|)
    ensures HookProtocol(SwitchRun(onStart, onEnd, previous, target, sink, unloadTicks, loadTicks), onStart, onEnd)
  {
    var phases := SwitchPhases(previous, target, sink, unloadTicks, loadTicks);
    SwitchPhasesCalls(previous, target, sink, unloadTicks, loadTicks);
    HooksAround(onStart, onEnd, phases.log, phases.outcome);
  }

  /** Around a middle part that requests nothing, the requests of a log are those of the middle. */
  lemma RequestsAround(a: seq<Event>, b: seq<Event>, c: seq<Event>)
    requires forall i :: 0 <= i < |a| ==> !a[i].Load? && !a[i].Unload?
    requires forall i :: 0 <= i < |c| ==> !c[i].Load? && !c[i].Unload?
    ensures LoadRequests(a + b + c) == LoadRequests(b)
    ensures UnloadRequests(a + b + c) == UnloadRequests(b)
  {
    NoRequests(a);
    NoRequests(c);
    RequestsAppend(a, b);
    RequestsAppend(a + b, c);
  }

  /** The hooks and the commit around a middle part request nothing of their own. */
  lemma HookedRequests(onStart: Option<Callback>, onEnd: Option<Callback>, middle: seq<Event>, outcome: Outcome)
    ensures LoadRequests(Notify(onStart, Start) + middle + Closing(onEnd, outcome)) == LoadRequests(middle)
    ensures UnloadRequests(Notify(onStart, Start) + middle + Closing(onEnd, outcome)) == UnloadRequests(middle)
  {
    RequestsAround(Notify(onStart, Start), middle, Closing(onEnd, outcome));
  }

  /** The hooks and the commit around a middle part keep its unloads first. */
  lemma HookedOrder(onStart: Option<Callback>, onEnd: Option<Callback>, middle: seq<Event>, outcome: Outcome)
    requires UnloadsFirst(middle)
    ensures UnloadsFirst(Notify(onStart, Start) + middle + Closing(onEnd, outcome))
  {
    OrderAround(Notify(onStart, Start), middle, Closing(onEnd, outcome));
  }

  /**
   * LoadSceneToCurrentGroupAsync and LoadPersistentSceneAsync load exactly
   * the scenes of the request and unload nothing.
   */
  lemma AddToGroupCalls(onStart: Option<Callback>, onEnd: Option<Callback>,
                        target: Option<seq<string>>, sink: Option<ProgressSink>, loadTicks: seq<Tick>)
    requires target.Some? ==> Fits(loadTicks, |target.value|)
    ensures LoadRequests(AddToGroupRun(onStart, onEnd, target, sink, loadTicks).log) == (if target.Some? then target.value else [])
    ensures UnloadRequests(AddToGroupRun(onStart, onEnd, target, sink, loadTicks).log) == []
  {
    var load := LoadPhase(target, sink, loadTicks);
    LoadPhaseCalls(target, sink, loadTicks);
    HookedRequests(onStart, onEnd, load.log, load.outcome);
  }

  lemma AddToGroupHooks(onStart: Option<Callback>, onEnd: Option<Callback>,
                        target: Option<seq<string>>, sink: Option<ProgressSink>, loadTicks: seq<Tick>)
    requires target.Some? ==> Fits(loadTicks, |target.value|)
    ensures HookProtocol(AddToGroupRun(onStart, onEnd, target, sink, loadTicks), onStart, onEnd)
  {
    var load := LoadPhase(target, sink, loadTicks);
    LoadPhaseCalls(target, sink, loadTicks);
    HooksAround(onStart, onEnd, load.log, load.outcome);
  }

  /** An empty request still fires both hooks and commits; a null one throws after Start. */
  lemma AddToGroupEdgeCases(onStart: Option<Callback>, onEnd: Option<Callback>,
                            target: Option<seq<string>>, sink: Option<ProgressSink>, loadTicks: seq<Tick>)
    requires target.Some? ==> Fits(loadTicks, |target.value|)
    ensures target == Some([]) ==>
              AddToGroupRun(onStart, onEnd, target, sink, loadTicks) ==
                Run(Notify(onStart, Start) + [Commit] + Notify(onEnd, End), Settled)
    ensures target.None? ==> AddToGroupRun(onStart, onEnd, target, sink, loadTicks) == Run(Notify(onStart, Start), Faulted)
  {
    LoadPhaseCalls(target, sink, loadTicks);
    if target == Some([]) {
      assert Notify(onStart, Start) + [] == Notify(onStart, Start);
    } else if target.None? {
      assert Notify(onStart, Start) + [] + [] == Notify(onStart, Start);
    }
  }

  /**
   * UnloadSceneAsync and UnloadPersistentSceneAsync make no call for a scene
   * the group does not hold; otherwise they unload it once and commit the
   * removal once the unload settles, which a null handle does at once. They
   * never fire a hook.
   */
  lemma RemoveFromGroupCalls(member: bool, scene: string, h: UnloadHandle)
    ensures UnloadRequests(RemoveFromGroupRun(member, scene, h).log) == (if member then [scene] else [])
    ensures LoadRequests(RemoveFromGroupRun(member, scene, h).log) == []
    ensures forall i :: 0 <= i < |RemoveFromGroupRun(member, scene, h).log| ==>
              !RemoveFromGroupRun(member, scene, h).log[i].Start? && !RemoveFromGroupRun(member, scene, h).log[i].End?
    ensures Commit in RemoveFromGroupRun(member, scene, h).log <==>
              member && RemoveFromGroupRun(member, scene, h).outcome == Settled
    ensures !member ==> RemoveFromGroupRun(member, scene, h) == Run([], Settled)
    ensures member && h.NullHandle? ==> RemoveFromGroupRun(member, scene, h).outcome == Settled
  {
    if member {
      var u := UnloadOnePhase(scene, h);
      var rest := if u.outcome == Settled then u.log[1..] + [Commit] else [];
      assert RemoveFromGroupRun(member, scene, h).log == [Unload(scene)] + rest;
      NoRequests(rest);
      RequestsAppend([Unload(scene)], rest);
    }
  }

}
