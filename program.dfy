/**
 * The entry point: which of the three roles a process plays, chosen from its
 * command line, and the watcher pid a monitored instance is given.
 */
module Program {
  import opened Wrappers
  import Text
  import CrashHandler

  const WatcherFlag: string := "--watcher"
  const MonitoredFlag: string := "--monitored"
  const WatcherPidFlag: string := "--watcher-pid"

  /** The three roles of a process. */
  datatype Mode =
    | WatcherMode                          // run the crash watcher and return its result
    | SpawnWatcher                         // launch a detached watcher and return 0
    | AppMode(watcherPid: Option<int>)     // run the application

  /** `args.Contains(flag, StringComparer.OrdinalIgnoreCase)`. */
  predicate HasFlag(args: seq<string>, flag: string) {
    exists i :: 0 <= i < |args| && Text.EqualsIgnoreCase(args[i], flag)
  }

  /** The value a `--watcher-pid` at position `i` supplies: the next argument if it parses as an integer. */
  function PairValue(args: seq<string>, i: nat): Option<int>
    requires i + 1 < |args|
  {
    if Text.EqualsIgnoreCase(args[i], WatcherPidFlag) then Text.TryParseInt32(args[i + 1]) else None
  }

  /** The pair value of every position that has a successor; the last argument has none. */
  function PairValues(args: seq<string>): (r: seq<Option<int>>)
    ensures |r| == if |args| == 0 then 0 else |args| - 1
    ensures forall i :: 0 <= i < |r| ==> r[i] == PairValue(args, i)
  {
    if |args| <= 1 then [] else seq(|args| - 1, i => if 0 <= i < |args| - 1 then PairValue(args, i) else None)
  }

  /** The first present value at or after `i`. */
  function FirstSome(values: seq<Option<int>>, i: nat): Option<int>
    decreases |values| - i
  {
    if i >= |values| then None
    else if values[i].Some? then values[i]
    else FirstSome(values, i + 1)
  }

  /** The pid a command line supplies: the value of its first valid `--watcher-pid` pair. */
  function WatcherPidIn(args: seq<string>): Option<int> {
    FirstSome(PairValues(args), 0)
  }

  /** `ParseWatcherPid`: the loop over every position that has a successor. */
  method ParseWatcherPid(args: seq<string>) returns (pid: Option<int>)
    ensures pid == WatcherPidIn(args)
  {
    var values := PairValues(args);
    var i := 0;
    while i < |args| - 1
      invariant 0 <= i
      invariant |args| > 0 ==> i <= |args| - 1
      invariant FirstSome(values, 0) == FirstSome(values, i)
      decreases |args| - i
    {
      if Text.EqualsIgnoreCase(args[i], WatcherPidFlag) {
        var parsed := Text.TryParseInt32(args[i + 1]);
        if parsed.Some? {
          assert values[i] == parsed;
          return parsed;
        }
      }
      assert values[i].None?;
      i := i + 1;
    }
    return None;
  }

  /**
   * The scan from `i` returns the value at the first position at or after
   * `i` that has one, and nothing when no such position exists.
   */
  lemma {:induction false} FirstSomeSpec(values: seq<Option<int>>, i: nat)
    ensures FirstSome(values, i).None? <==> forall j :: i <= j < |values| ==> values[j].None?
    ensures FirstSome(values, i).Some? ==>
              exists j :: i <= j < |values| && values[j] == FirstSome(values, i)
                          && forall k :: i <= k < j ==> values[k].None?
    decreases |values| - i
  {
    if i < |values| && values[i].None? {
      FirstSomeSpec(values, i + 1);
      if FirstSome(values, i).Some? {
        var j :| i + 1 <= j < |values| && values[j] == FirstSome(values, i + 1)
                 && forall k :: i + 1 <= k < j ==> values[k].None?;
        assert forall k :: i <= k < j ==> values[k].None?;
      }
    }
  }

  /**
   * `ParseWatcherPid` returns the integer after the first `--watcher-pid`
   * (any case) whose next argument parses, and nothing when there is none.
   */
  lemma ParseWatcherPidSpec(args: seq<string>)
    ensures WatcherPidIn(args).None? <==>
              forall j :: 0 <= j < |args| - 1 ==> PairValue(args, j).None?
    ensures WatcherPidIn(args).Some? ==>
              exists j :: 0 <= j < |args| - 1 && Text.EqualsIgnoreCase(args[j], WatcherPidFlag)
                          && PairValue(args, j) == WatcherPidIn(args)
                          && forall k :: 0 <= k < j ==> PairValue(args, k).None?
  {
    var values := PairValues(args);
    assert |values| == if |args| == 0 then 0 else |args| - 1;
    FirstSomeSpec(values, 0);
    if WatcherPidIn(args).Some? {
      var j :| 0 <= j < |values| && values[j] == FirstSome(values, 0) && forall k :: 0 <= k < j ==> values[k].None?;
      assert values[j] == PairValue(args, j);
      PairValueNeedsFlag(args, j);
      forall k | 0 <= k < j ensures PairValue(args, k).None? {
        assert values[k] == PairValue(args, k);
      }
    } else {
      forall j | 0 <= j < |args| - 1 ensures PairValue(args, j).None? {
        assert values[j] == PairValue(args, j);
      }
    }
  }

  /** Only a `--watcher-pid` position supplies a value. */
  lemma PairValueNeedsFlag(args: seq<string>, i: nat)
    requires i + 1 < |args| && PairValue(args, i).Some?
    ensures Text.EqualsIgnoreCase(args[i], WatcherPidFlag)
  {
  }

  /** A present value appended after the last one found, or a missing one anywhere after it, changes nothing. */
  lemma {:induction false} FirstSomeAppendNone(values: seq<Option<int>>, i: nat)
    ensures FirstSome(values + [None], i) == FirstSome(values, i)
    decreases |values| - i
  {
    if i < |values| {
      assert (values + [None])[i] == values[i];
      FirstSomeAppendNone(values, i + 1);
    }
  }

  /** The flag itself is not a number. */
  lemma FlagIsNotANumber()
    ensures Text.TryParseInt32(WatcherPidFlag).None?
  {
    var s := WatcherPidFlag;
    assert s[0] == '-' && s[|s| - 1] == 'd';
    assert Text.SkipNumberWhite(s) == s;
    assert Text.SkipNumberWhiteEnd(s) == s;
    assert !Text.IsDigit(s[1..][0]);
  }

  /** Appending an argument keeps every earlier pair and adds the pair ending at it. */
  lemma PairValuesAppend(args: seq<string>, last: string)
    requires |args| > 0
    ensures PairValues(args + [last]) == PairValues(args) + [PairValue(args + [last], |args| - 1)]
  {
    var extended := args + [last];
    forall j | 0 <= j < |args| - 1
      ensures PairValue(extended, j) == PairValue(args, j)
    {
      assert extended[j] == args[j] && extended[j + 1] == args[j + 1];
    }
  }

  /** `--watcher-pid` in the last position is never read: appending it changes nothing. */
  lemma TrailingWatcherPidIgnored(args: seq<string>)
    ensures WatcherPidIn(args + [WatcherPidFlag]) == WatcherPidIn(args)
  {
    if |args| > 0 {
      var extended := args + [WatcherPidFlag];
      FlagIsNotANumber();
      assert extended[|args|] == WatcherPidFlag;
      assert PairValue(extended, |args| - 1).None?;
      PairValuesAppend(args, WatcherPidFlag);
      FirstSomeAppendNone(PairValues(args), 0);
    }
  }

  /** An unparsable value after `--watcher-pid` does not end the scan: a later valid pair still counts. */
  lemma BadValueKeepsScanning(bad: string, rest: seq<string>)
    requires Text.TryParseInt32(bad).None?
    ensures WatcherPidIn([WatcherPidFlag, bad] + rest) == WatcherPidIn([bad] + rest)
  {
    var args := [WatcherPidFlag, bad] + rest;
    var values := PairValues(args);
    assert values[0].None?;
    assert values[1..] == PairValues([bad] + rest) by {
      forall j | 0 <= j < |rest|
        ensures PairValue(args, j + 1) == PairValue([bad] + rest, j)
      {
        assert args[j + 1] == ([bad] + rest)[j] && args[j + 2] == ([bad] + rest)[j + 1];
      }
    }
    FirstSomeShift(values, 1);
  }

  /** Positions holding no value are passed over. */
  lemma {:induction false} FirstSomeSkip(values: seq<Option<int>>, i: nat, n: nat)
    requires i <= n <= |values|
    requires forall k :: i <= k < n ==> values[k].None?
    ensures FirstSome(values, i) == FirstSome(values, n)
    decreases n - i
  {
    if i < n {
      FirstSomeSkip(values, i + 1, n);
    }
  }

  /** Scanning from `i` is scanning the values after the first `n` from `i - n`. */
  lemma {:induction false} FirstSomeDrop(values: seq<Option<int>>, n: nat, i: nat)
    requires n <= i
    requires n <= |values|
    ensures FirstSome(values, i) == FirstSome(values[n..], i - n)
    decreases |values| - i
  {
    if i < |values| {
      assert values[n..][i - n] == values[i];
      FirstSomeDrop(values, n, i + 1);
    }
  }

  /** Scanning from position `n` is scanning with the first `n` values dropped. */
  lemma FirstSomeShift(values: seq<Option<int>>, n: nat)
    requires n <= |values|
    requires forall k :: 0 <= k < n ==> values[k].None?
    ensures FirstSome(values, 0) == FirstSome(values[n..], 0)
  {
    FirstSomeSkip(values, 0, n);
    FirstSomeDrop(values, n, n);
  }

  /** The words of the child's command line, split at spaces. */
  function ArgsOf(commandLine: string): seq<string> {
    Text.Split(commandLine, ' ')
  }

  /** The watcher's launch arguments split back into the three words it joined. */
  lemma LaunchArgumentsWords(watcherPid: nat)
    ensures ArgsOf(CrashHandler.LaunchArguments(watcherPid)) == [MonitoredFlag, WatcherPidFlag, Text.FormatNat(watcherPid)]
  {
    var digits := Text.FormatNat(watcherPid);
    var parts := [MonitoredFlag, WatcherPidFlag, digits];
    Text.FormatNatHasNoWhite(watcherPid);
    assert ' ' !in digits;
    assert ' ' !in MonitoredFlag && ' ' !in WatcherPidFlag;
    assert parts[1..] == [WatcherPidFlag, digits] && parts[1..][1..] == [digits];
    assert Text.Join(" ", parts) == CrashHandler.LaunchArguments(watcherPid);
    Text.SplitJoin(parts, ' ');
  }

  /** The pid read back from the three words is the watcher's pid. */
  lemma LaunchWordsPid(watcherPid: nat)
    requires watcherPid <= Text.Int32Max
    ensures WatcherPidIn([MonitoredFlag, WatcherPidFlag, Text.FormatNat(watcherPid)]) == Some(watcherPid)
  {
    var args := [MonitoredFlag, WatcherPidFlag, Text.FormatNat(watcherPid)];
    Text.ParseFormatNat(watcherPid);
    assert !Text.EqualsIgnoreCase(MonitoredFlag, WatcherPidFlag) by {
      assert |MonitoredFlag| != |WatcherPidFlag|;
    }
    assert Text.EqualsIgnoreCase(WatcherPidFlag, WatcherPidFlag);
    assert PairValue(args, 0).None?;
    assert PairValue(args, 1) == Some(watcherPid);
    var values := PairValues(args);
    assert values[0].None? && values[1] == Some(watcherPid);
    assert FirstSome(values, 1) == Some(watcherPid);
    assert FirstSome(values, 0) == FirstSome(values, 1);
  }

  /** The three words carry `--monitored` and not `--watcher`. */
  lemma LaunchWordsFlags(watcherPid: nat)
    ensures HasFlag([MonitoredFlag, WatcherPidFlag, Text.FormatNat(watcherPid)], MonitoredFlag)
    ensures !HasFlag([MonitoredFlag, WatcherPidFlag, Text.FormatNat(watcherPid)], WatcherFlag)
  {
    var digits := Text.FormatNat(watcherPid);
    var args := [MonitoredFlag, WatcherPidFlag, digits];
    assert Text.EqualsIgnoreCase(args[0], MonitoredFlag);
    assert !Text.EqualsIgnoreCase(MonitoredFlag, WatcherFlag) by {
      assert |MonitoredFlag| != |WatcherFlag|;
    }
    assert !Text.EqualsIgnoreCase(WatcherPidFlag, WatcherFlag) by {
      assert |WatcherPidFlag| != |WatcherFlag|;
    }
    assert !Text.EqualsIgnoreCase(digits, WatcherFlag) by {
      if |digits| == |WatcherFlag| {
        assert Text.IsDigit(digits[0]);
        assert WatcherFlag[0] == '-';
      }
    }
  }

  /** The child launched by the watcher reads back the watcher's pid from its arguments. */
  lemma LaunchArgumentsRoundTrip(watcherPid: nat)
    requires watcherPid <= Text.Int32Max
    ensures WatcherPidIn(ArgsOf(CrashHandler.LaunchArguments(watcherPid))) == Some(watcherPid)
    ensures HasFlag(ArgsOf(CrashHandler.LaunchArguments(watcherPid)), MonitoredFlag)
    ensures !HasFlag(ArgsOf(CrashHandler.LaunchArguments(watcherPid)), WatcherFlag)
  {
    LaunchArgumentsWords(watcherPid);
    LaunchWordsPid(watcherPid);
    LaunchWordsFlags(watcherPid);
  }

  /** `Main`'s dispatch: the watcher flag wins; no flag and no debugger spawns the watcher; otherwise the application runs. */
  function ModeFor(args: seq<string>, debuggerAttached: bool): Mode {
    var isWatcher := HasFlag(args, WatcherFlag);
    var isMonitored := HasFlag(args, MonitoredFlag);
    if isWatcher then WatcherMode
    else if !isMonitored && !debuggerAttached then SpawnWatcher
    else AppMode(WatcherPidIn(args))
  }

  /**
   * `--watcher` takes precedence over every other flag, the watcher is
   * spawned only from a plain launch without a debugger, and `--watcher-pid`
   * is not mistaken for `--watcher`.
   */
  lemma ModeForSpec(args: seq<string>, debuggerAttached: bool)
    ensures HasFlag(args, WatcherFlag) ==> ModeFor(args, debuggerAttached) == WatcherMode
    ensures ModeFor(args, debuggerAttached) == SpawnWatcher
            <==> !HasFlag(args, WatcherFlag) && !HasFlag(args, MonitoredFlag) && !debuggerAttached
    ensures ModeFor(args, debuggerAttached).AppMode? ==> ModeFor(args, debuggerAttached).watcherPid == WatcherPidIn(args)
    ensures !Text.EqualsIgnoreCase(WatcherPidFlag, WatcherFlag)
  {
  }

  /** The child the watcher launches runs the application and knows the watcher's pid. */
  lemma LaunchedChildRunsApp(watcherPid: nat, debuggerAttached: bool)
    requires watcherPid <= Text.Int32Max
    ensures ModeFor(ArgsOf(CrashHandler.LaunchArguments(watcherPid)), debuggerAttached) == AppMode(Some(watcherPid))
  {
    LaunchArgumentsRoundTrip(watcherPid);
  }
}
