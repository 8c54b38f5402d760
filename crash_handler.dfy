/**
 * The crash watcher: relaunches the application when it exits unexpectedly,
 * unless it has crashed too often within a sliding time window.
 */
module CrashHandler {
  import opened Wrappers
  import Text

  const RestartDelayMs: int := 1000
  const MaxRapidRestarts: int := 5
  const RapidRestartWindowMs: int := 30000

  /** Exit codes that mean the user ended the application. */
  const UserExitCodes: seq<int> := [0, 1]

  /**
   * One wake-up of the watcher: the child exited with a code at a tick
   * count, and the relaunch that may follow succeeded or not; or waiting
   * for the child failed.
   */
  datatype ChildEvent = Exited(exitCode: int, now: int, relaunchSucceeds: bool) | WaitFailed

  /** Why the watcher loop ended, or that it is still waiting for the child. */
  datatype StopReason = StillWatching | UserExit | WaitFailure | TooManyRestarts | RelaunchFailed

  /** Where the loop ends: the reason, the restart times it holds then, and how many relaunches it made. */
  datatype WatchResult = WatchResult(reason: StopReason, restartTimes: seq<int>, relaunches: nat)

  /** Drops from the front every restart time more than the window before `now`. */
  function Prune(restartTimes: seq<int>, now: int): (r: seq<int>)
    ensures |r| <= |restartTimes|
    ensures |r| > 0 ==> now - r[0] <= RapidRestartWindowMs
    decreases |restartTimes|
  {
    if |restartTimes| > 0 && now - restartTimes[0] > RapidRestartWindowMs then Prune(restartTimes[1..], now)
    else restartTimes
  }

  /**
   * Pruning dequeues only from the front, every time it drops is more than
   * the window before `now`, and it stops at the first time inside the
   * window: the result is the queue minus its longest prefix of times
   * outside the window.
   */
  lemma {:induction false} PruneSpec(restartTimes: seq<int>, now: int)
    ensures var r := Prune(restartTimes, now);
            && r == restartTimes[|restartTimes| - |r|..]
            && (forall i :: 0 <= i < |restartTimes| - |r| ==> now - restartTimes[i] > RapidRestartWindowMs)
    decreases |restartTimes|
  {
    if |restartTimes| > 0 && now - restartTimes[0] > RapidRestartWindowMs {
      PruneSpec(restartTimes[1..], now);
      var r := Prune(restartTimes, now);
      assert restartTimes[1..][|restartTimes| - 1 - |r|..] == restartTimes[|restartTimes| - |r|..];
      forall i | 1 <= i < |restartTimes| - |r|
        ensures now - restartTimes[i] > RapidRestartWindowMs
      {
        assert restartTimes[i] == restartTimes[1..][i - 1];
      }
    }
  }

  predicate Sorted(s: seq<int>) {
    forall i, j :: 0 <= i <= j < |s| ==> s[i] <= s[j]
  }

  /** On a sorted queue, every time left after pruning lies within the window before `now`. */
  lemma PruneWithinWindow(restartTimes: seq<int>, now: int)
    requires Sorted(restartTimes)
    ensures Sorted(Prune(restartTimes, now))
    ensures forall t :: t in Prune(restartTimes, now) ==> now - t <= RapidRestartWindowMs
  {
    var r := Prune(restartTimes, now);
    PruneSpec(restartTimes, now);
    forall t | t in r
      ensures now - t <= RapidRestartWindowMs
    {
      var k :| 0 <= k < |r| && r[k] == t;
      assert r[0] == restartTimes[|restartTimes| - |r|] && r[k] == restartTimes[|restartTimes| - |r| + k];
    }
  }

  /** The watcher loop over the child's exits, starting from a queue of restart times. */
  function Supervise(restartTimes: seq<int>, events: seq<ChildEvent>): WatchResult
    decreases |events|
  {
    if |events| == 0 then WatchResult(StillWatching, restartTimes, 0)
    else match events[0]
      case WaitFailed => WatchResult(WaitFailure, restartTimes, 0)
      case Exited(code, now, relaunchSucceeds) =>
        if code in UserExitCodes then WatchResult(UserExit, restartTimes, 0)
        else
          var pruned := Prune(restartTimes + [now], now);
          if |pruned| >= MaxRapidRestarts then WatchResult(TooManyRestarts, pruned, 0)
          else if !relaunchSucceeds then WatchResult(RelaunchFailed, pruned, 0)
          else
            var rest := Supervise(pruned, events[1..]);
            rest.(relaunches := rest.relaunches + 1)
  }

  /** What `RunWatcher` returns: 1 on a setup failure, 0 once the loop ends, nothing while it still waits. */
  datatype WatcherRun = WatcherRun(exitCode: Option<int>, result: WatchResult)

  /**
   * `RunWatcher`. The executable check, the search for a running instance
   * and the first launch are given as their outcomes; the loop then
   * consumes the child's exits in order.
   */
  method RunWatcher(exePathValid: bool, existingFound: bool, firstLaunchSucceeds: bool, events: seq<ChildEvent>)
    returns (run: WatcherRun)
    ensures !exePathValid || (!existingFound && !firstLaunchSucceeds) ==> run.exitCode == Some(1)
    ensures exePathValid && (existingFound || firstLaunchSucceeds) ==>
              run.result == Supervise([], events)
              && run.exitCode == if run.result.reason == StillWatching then None else Some(0)
  {
    if !exePathValid {
      return WatcherRun(Some(1), WatchResult(StillWatching, [], 0));
    }
    if !existingFound && !firstLaunchSucceeds {
      return WatcherRun(Some(1), WatchResult(StillWatching, [], 0));
    }
    var restartTimes: seq<int> := [];
    var relaunches: nat := 0;
    var k := 0;
    var reason := StillWatching;
    while k < |events|
      invariant 0 <= k <= |events|
      invariant var rest := Supervise(restartTimes, events[k..]);
                Supervise([], events) == rest.(relaunches := rest.relaunches + relaunches)
      decreases |events| - k
    {
      assert events[k..][0] == events[k] && events[k..][1..] == events[k + 1..];
      if events[k].WaitFailed? {
        reason := WaitFailure;
        break;
      }
      var exitCode := events[k].exitCode;
      if exitCode == UserExitCodes[0] || exitCode == UserExitCodes[1] {
        reason := UserExit;
        break;
      }
      var now := events[k].now;
      restartTimes := restartTimes + [now];
      ghost var enqueued := restartTimes;
      while |restartTimes| > 0 && now - restartTimes[0] > RapidRestartWindowMs
        invariant Prune(restartTimes, now) == Prune(enqueued, now)
        decreases |restartTimes|
      {
        restartTimes := restartTimes[1..];
      }
      if |restartTimes| >= MaxRapidRestarts {
        reason := TooManyRestarts;
        break;
      }
      if !events[k].relaunchSucceeds {
        reason := RelaunchFailed;
        break;
      }
      relaunches := relaunches + 1;
      k := k + 1;
    }
    if reason == StillWatching {
      assert events[k..] == [];
    }
    run := WatcherRun(if reason == StillWatching then None else Some(0),
                      WatchResult(reason, restartTimes, relaunches));
  }

  /** Exit code 0 or 1 ends the loop at once, with no restart. */
  lemma UserExitStops(restartTimes: seq<int>, code: int, now: int, relaunch: bool, rest: seq<ChildEvent>)
    requires code == 0 || code == 1
    ensures Supervise(restartTimes, [Exited(code, now, relaunch)] + rest) == WatchResult(UserExit, restartTimes, 0)
  {
  }

  /** Any other exit code is a crash: it is recorded, and the watcher relaunches unless the window is full. */
  lemma CrashRelaunches(restartTimes: seq<int>, code: int, now: int, rest: seq<ChildEvent>)
    requires code != 0 && code != 1
    requires |Prune(restartTimes + [now], now)| < MaxRapidRestarts
    ensures Supervise(restartTimes, [Exited(code, now, true)] + rest).relaunches
            == 1 + Supervise(Prune(restartTimes + [now], now), rest).relaunches
  {
    assert ([Exited(code, now, true)] + rest)[1..] == rest;
  }

  /**
   * Tick counts never go back: the first exit is no earlier than the latest
   * recorded restart, and each exit no earlier than the one before.
   */
  predicate TicksNonDecreasing(restartTimes: seq<int>, events: seq<ChildEvent>) {
    (|restartTimes| > 0 && |events| > 0 && events[0].Exited? ==> restartTimes[|restartTimes| - 1] <= events[0].now)
    && forall i :: 0 < i < |events| && events[i - 1].Exited? && events[i].Exited? ==> events[i - 1].now <= events[i].now
  }

  /** One crash that is relaunched: the loop goes on with the pruned queue and counts the relaunch. */
  lemma SuperviseCrash(restartTimes: seq<int>, events: seq<ChildEvent>)
    requires |events| > 0 && events[0].Exited? && events[0].exitCode !in UserExitCodes && events[0].relaunchSucceeds
    requires |Prune(restartTimes + [events[0].now], events[0].now)| < MaxRapidRestarts
    ensures var rest := Supervise(Prune(restartTimes + [events[0].now], events[0].now), events[1..]);
            Supervise(restartTimes, events) == rest.(relaunches := rest.relaunches + 1)
  {
  }

  /** Every recorded time lies within the window before the latest one. */
  predicate WithinWindow(restartTimes: seq<int>) {
    forall t :: t in restartTimes ==> restartTimes[|restartTimes| - 1] - t <= RapidRestartWindowMs
  }

  /**
   * Starting from fewer than five sorted restart times, the queue never holds
   * more than five; with non-decreasing ticks it stays sorted and every time
   * it holds lies within the window before the latest crash.
   */
  lemma {:induction false} RestartQueueBounded(restartTimes: seq<int>, events: seq<ChildEvent>)
    requires |restartTimes| < MaxRapidRestarts && Sorted(restartTimes) && WithinWindow(restartTimes)
    requires TicksNonDecreasing(restartTimes, events)
    ensures |Supervise(restartTimes, events).restartTimes| <= MaxRapidRestarts
    ensures Sorted(Supervise(restartTimes, events).restartTimes)
    ensures WithinWindow(Supervise(restartTimes, events).restartTimes)
    decreases |events|
  {
    if |events| == 0 || events[0].WaitFailed? || events[0].exitCode in UserExitCodes {
      assert Supervise(restartTimes, events).restartTimes == restartTimes;
    } else {
      var pruned := Prune(restartTimes + [events[0].now], events[0].now);
      CrashKeepsQueueInvariant(restartTimes, events);
      if |pruned| >= MaxRapidRestarts || !events[0].relaunchSucceeds {
        assert Supervise(restartTimes, events).restartTimes == pruned;
      } else {
        SuperviseCrash(restartTimes, events);
        RestartQueueBounded(pruned, events[1..]);
      }
    }
  }

  /** After recording a crash, the queue is still sorted, within the window and in step with the ticks to come. */
  lemma CrashKeepsQueueInvariant(restartTimes: seq<int>, events: seq<ChildEvent>)
    requires Sorted(restartTimes) && TicksNonDecreasing(restartTimes, events)
    requires |events| > 0 && events[0].Exited?
    ensures var pruned := Prune(restartTimes + [events[0].now], events[0].now);
            Sorted(pruned) && WithinWindow(pruned) && |pruned| <= |restartTimes| + 1
            && TicksNonDecreasing(pruned, events[1..])
  {
    var now := events[0].now;
    var enqueued := restartTimes + [now];
    if |restartTimes| > 0 {
      assert restartTimes[|restartTimes| - 1] <= now;
    }
    assert forall t :: t in restartTimes ==> t <= now by {
      forall t | t in restartTimes
        ensures t <= now
      {
        var k :| 0 <= k < |restartTimes| && restartTimes[k] == t;
      }
    }
    EnqueueSorted(restartTimes, now);
    PruneWithinWindow(enqueued, now);
    var pruned := Prune(enqueued, now);
    PruneKeepsLatest(enqueued, now);
    var tail := events[1..];
    if |tail| > 0 {
      assert tail[0] == events[1];
    }
    forall i | 0 < i < |tail| && tail[i - 1].Exited? && tail[i].Exited?
      ensures tail[i - 1].now <= tail[i].now
    {
      assert tail[i - 1] == events[i] && tail[i] == events[i + 1];
    }
  }



  /** Appending a time no earlier than any recorded one keeps the queue sorted. */
  lemma EnqueueSorted(restartTimes: seq<int>, now: int)
    requires Sorted(restartTimes) && forall t :: t in restartTimes ==> t <= now
    ensures Sorted(restartTimes + [now])
  {
    var enqueued := restartTimes + [now];
    forall i, j | 0 <= i <= j < |enqueued|
      ensures enqueued[i] <= enqueued[j]
    {
      if j == |restartTimes| && i < j {
        assert enqueued[i] in restartTimes;
      }
    }
  }

  /** Pruning only removes times. */
  lemma PruneKeepsMembers(restartTimes: seq<int>, now: int)
    ensures forall t :: t in Prune(restartTimes, now) ==> t in restartTimes
  {
    var r := Prune(restartTimes, now);
    PruneSpec(restartTimes, now);
    forall t | t in r
      ensures t in restartTimes
    {
      var k :| 0 <= k < |r| && r[k] == t;
      assert t == restartTimes[|restartTimes| - |r| + k];
    }
  }

  /** The time just recorded survives pruning as the last entry. */
  lemma PruneKeepsLatest(restartTimes: seq<int>, now: int)
    requires |restartTimes| > 0 && restartTimes[|restartTimes| - 1] == now
    ensures |Prune(restartTimes, now)| > 0
    ensures Prune(restartTimes, now)[|Prune(restartTimes, now)| - 1] == now
    decreases |restartTimes|
  {
    if now - restartTimes[0] > RapidRestartWindowMs {
      PruneKeepsLatest(restartTimes[1..], now);
    }
  }

  /** A queue already within the window before `now` is left as it is. */
  lemma PruneWithinWindowKeeps(restartTimes: seq<int>, now: int)
    requires forall t :: t in restartTimes ==> now - t <= RapidRestartWindowMs
    ensures Prune(restartTimes, now) == restartTimes
  {
    if |restartTimes| > 0 {
      assert restartTimes[0] in restartTimes;
    }
  }

  /** A crash more than a window after the previous one leaves only itself in the queue. */
  lemma PruneDropsOlder(last: int, now: int)
    requires now - last > RapidRestartWindowMs
    ensures Prune([last, now], now) == [now]
  {
    assert [last, now][1..] == [now];
    PruneWithinWindowKeeps([now], now);
  }

  /**
   * Five crashes within one window, each relaunched, make the watcher give
   * up on the fifth after four relaunches.
   */
  lemma FiveRapidCrashesStop(t1: int, t2: int, t3: int, t4: int, t5: int, codes: seq<int>)
    requires |codes| == 5 && forall i :: 0 <= i < 5 ==> codes[i] != 0 && codes[i] != 1
    requires t1 <= t2 <= t3 <= t4 <= t5 && t5 - t1 <= RapidRestartWindowMs
    ensures var events := [Exited(codes[0], t1, true), Exited(codes[1], t2, true), Exited(codes[2], t3, true),
                           Exited(codes[3], t4, true), Exited(codes[4], t5, true)];
            Supervise([], events) == WatchResult(TooManyRestarts, [t1, t2, t3, t4, t5], 4)
  {
    var e1, e2, e3 := Exited(codes[0], t1, true), Exited(codes[1], t2, true), Exited(codes[2], t3, true);
    var e4, e5 := Exited(codes[3], t4, true), Exited(codes[4], t5, true);
    PruneWithinWindowKeeps([t1, t2, t3, t4, t5], t5);
    assert [t1, t2, t3, t4] + [t5] == [t1, t2, t3, t4, t5];
    assert Supervise([t1, t2, t3, t4], [e5]) == WatchResult(TooManyRestarts, [t1, t2, t3, t4, t5], 0);
    PruneWithinWindowKeeps([t1, t2, t3, t4], t4);
    assert [t1, t2, t3] + [t4] == [t1, t2, t3, t4];
    assert [e4, e5][1..] == [e5];
    assert Supervise([t1, t2, t3], [e4, e5]) == WatchResult(TooManyRestarts, [t1, t2, t3, t4, t5], 1);
    PruneWithinWindowKeeps([t1, t2, t3], t3);
    assert [t1, t2] + [t3] == [t1, t2, t3];
    assert [e3, e4, e5][1..] == [e4, e5];
    assert Supervise([t1, t2], [e3, e4, e5]) == WatchResult(TooManyRestarts, [t1, t2, t3, t4, t5], 2);
    PruneWithinWindowKeeps([t1, t2], t2);
    assert [t1] + [t2] == [t1, t2];
    assert [e2, e3, e4, e5][1..] == [e3, e4, e5];
    assert Supervise([t1], [e2, e3, e4, e5]) == WatchResult(TooManyRestarts, [t1, t2, t3, t4, t5], 3);
    PruneWithinWindowKeeps([t1], t1);
    assert [e1, e2, e3, e4, e5][1..] == [e2, e3, e4, e5];
    assert [] + [t1] == [t1];
  }

  /**
   * Crashes more than a window apart never trip the limit: the queue holds
   * only the latest crash, and every crash is relaunched while relaunching
   * succeeds.
   */
  lemma {:induction false} SpacedCrashesKeepRestarting(last: int, events: seq<ChildEvent>)
    requires forall i :: 0 <= i < |events| ==> events[i].Exited? && events[i].exitCode !in UserExitCodes
                                               && events[i].relaunchSucceeds
    requires |events| > 0 ==> events[0].now - last > RapidRestartWindowMs
    requires forall i :: 0 < i < |events| ==> events[i].now - events[i - 1].now > RapidRestartWindowMs
    ensures Supervise([last], events).reason == StillWatching
    ensures Supervise([last], events).relaunches == |events|
    decreases |events|
  {
    if |events| > 0 {
      var now := events[0].now;
      PruneDropsOlder(last, now);
      var tail := events[1..];
      if |tail| > 0 {
        assert tail[0] == events[1];
      }
      forall i | 0 < i < |tail|
        ensures tail[i].now - tail[i - 1].now > RapidRestartWindowMs
      {
        assert tail[i] == events[i + 1] && tail[i - 1] == events[i];
      }
      SpacedCrashesKeepRestarting(now, tail);
    }
  }

  /** `LaunchApplication`'s argument string for the child. */
  function LaunchArguments(watcherPid: nat): (r: string)
    ensures r == "--monitored --watcher-pid " + Text.FormatNat(watcherPid)
  {
    var parts := ["--monitored", "--watcher-pid", Text.FormatNat(watcherPid)];
    assert parts[1..] == ["--watcher-pid", Text.FormatNat(watcherPid)] && parts[1..][1..] == [Text.FormatNat(watcherPid)];
    assert Text.Join(" ", parts[1..]) == "--watcher-pid" + " " + Text.FormatNat(watcherPid);
    Text.Join(" ", parts)
  }

  /**
   * `FindExistingMonitoredProcess`: the first process of the same name that
   * is not this one. No path, or an enumeration that throws, gives none.
   */
  method FindExistingMonitoredProcess(exePathEmpty: bool, sameNamePids: Option<seq<int>>, currentPid: int)
    returns (found: Option<int>)
    ensures exePathEmpty || sameNamePids.None? ==> found.None?
    ensures found.Some? ==> found.value != currentPid
    ensures found.Some? ==> exists i :: 0 <= i < |sameNamePids.value| && sameNamePids.value[i] == found.value
                                        && forall j :: 0 <= j < i ==> sameNamePids.value[j] == currentPid
    ensures found.None? && !exePathEmpty && sameNamePids.Some? ==>
              forall j :: 0 <= j < |sameNamePids.value| ==> sameNamePids.value[j] == currentPid
  {
    if exePathEmpty || sameNamePids.None? {
      return None;
    }
    var pids := sameNamePids.value;
    var i := 0;
    while i < |pids|
      invariant 0 <= i <= |pids|
      invariant forall j :: 0 <= j < i ==> pids[j] == currentPid
    {
      if pids[i] != currentPid {
        return Some(pids[i]);
      }
      i := i + 1;
    }
    return None;
  }
}
