/**
 * The monitor that closes the explorer process a control-panel applet or
 * shell folder runs in once its window is gone. It runs in three phases,
 * each its own message loop: wait for a new factory explorer process,
 * wait for its folder window, wait for that window to be destroyed and
 * then end the process. The pids being watched are kept in a shared
 * registry so that a second launch does not adopt them.
 *
 * The operating system is abstracted: win events are input records; the
 * WMI command-line lookup is a map from pid to command line (a pid missing
 * from it has no readable command line, or the query failed); hook
 * installation and the state of the process at clean-up are inputs. Every
 * call the phases make that the outside world sees is recorded, in order,
 * in the machine's trace.
 */
module AdapterSettingsShellProcessMonitor {
  import opened Wrappers
  import Text

  /** The command lines of the explorer processes a launch spawns. */
  const ExplorerFactoryCommandLines: seq<string> := [
    "/factory,{5BD95610-9434-43C2-886C-57852CC8A120} -Embedding",   // Control Panel (ncpa.cpl)
    "/factory,{75dff2b7-6936-4c06-a8bb-676a7b00b24b} -Embedding"    // Explorer shell
  ]

  const TargetWindowClass: string := "CabinetWClass"

  // Win event constants
  const EventObjectCreate: int := 0x8000
  const EventObjectDestroy: int := 0x8001
  const EventObjectShow: int := 0x8002
  const ObjIdWindow: int := 0

  // ---------------------------------------------------------------------
  // The factory test

  /** Some command of `factoryCmds` occurs in `cmdLine`, ignoring case: the inner `foreach`. */
  function MatchesAnyFactory(cmdLine: string, factoryCmds: seq<string>): (r: bool)
    ensures r <==> exists k :: 0 <= k < |factoryCmds| && Text.ContainsIgnoreCase(cmdLine, factoryCmds[k])
  {
    if |factoryCmds| == 0 then false
    else if Text.ContainsIgnoreCase(cmdLine, factoryCmds[0]) then true
    else
      assert forall k :: 1 <= k < |factoryCmds| ==> factoryCmds[k] == factoryCmds[1..][k - 1];
      MatchesAnyFactory(cmdLine, factoryCmds[1..])
  }

  /**
   * `IsFactoryExplorer`: the pid's command line contains one of the two
   * factory command lines, ignoring case. No readable command line, or a
   * failed query, is not a factory explorer.
   */
  predicate IsFactoryExplorer(commandLines: map<int, string>, pid: int) {
    pid in commandLines && MatchesAnyFactory(commandLines[pid], ExplorerFactoryCommandLines)
  }

  /** The factory test in terms of positions: one of the two strings occurs somewhere in the command line. */
  lemma IsFactoryExplorerSpec(commandLines: map<int, string>, pid: int)
    ensures IsFactoryExplorer(commandLines, pid) <==>
              pid in commandLines
              && exists k, i :: 0 <= k < 2 && Text.MatchesAt(commandLines[pid], ExplorerFactoryCommandLines[k], i)
  {
    if pid in commandLines {
      var cmd := commandLines[pid];
      if IsFactoryExplorer(commandLines, pid) {
        var k :| 0 <= k < 2 && Text.ContainsIgnoreCase(cmd, ExplorerFactoryCommandLines[k]);
        var i :| Text.MatchesAt(cmd, ExplorerFactoryCommandLines[k], i);
      }
      if k, i :| 0 <= k < 2 && Text.MatchesAt(cmd, ExplorerFactoryCommandLines[k], i) {
        assert Text.ContainsIgnoreCase(cmd, ExplorerFactoryCommandLines[k]);
      }
    }
  }

  /** A match at a position survives replacing the haystack by one equal up to case. */
  lemma MatchesAtIgnoresCase(a: string, b: string, needle: string, i: int)
    requires Text.EqualsIgnoreCase(a, b)
    ensures Text.MatchesAt(a, needle, i) ==> Text.MatchesAt(b, needle, i)
  {
    if Text.MatchesAt(a, needle, i) {
      forall j | 0 <= j < |needle|
        ensures Text.FoldCase(b[i..i + |needle|][j]) == Text.FoldCase(needle[j])
      {
        assert a[i..i + |needle|][j] == a[i + j];
        assert b[i..i + |needle|][j] == b[i + j];
      }
    }
  }

  /** The factory test sees only the case-folded command line: two command lines equal up to case agree. */
  lemma FactoryTestIgnoresCase(commandLines: map<int, string>, pid: int, cmdLine: string)
    requires pid in commandLines && Text.EqualsIgnoreCase(commandLines[pid], cmdLine)
    ensures IsFactoryExplorer(commandLines, pid) <==> IsFactoryExplorer(commandLines[pid := cmdLine], pid)
  {
    var other := commandLines[pid := cmdLine];
    IsFactoryExplorerSpec(commandLines, pid);
    IsFactoryExplorerSpec(other, pid);
    if k, i :| 0 <= k < 2 && Text.MatchesAt(commandLines[pid], ExplorerFactoryCommandLines[k], i) {
      MatchesAtIgnoresCase(commandLines[pid], cmdLine, ExplorerFactoryCommandLines[k], i);
    }
    if k, i :| 0 <= k < 2 && Text.MatchesAt(cmdLine, ExplorerFactoryCommandLines[k], i) {
      MatchesAtIgnoresCase(cmdLine, commandLines[pid], ExplorerFactoryCommandLines[k], i);
    }
  }

  /**
   * `GetExplorerFactoryPids`: the running explorer processes whose command
   * line passes the factory test.
   */
  method GetExplorerFactoryPids(explorerPids: seq<int>, commandLines: map<int, string>) returns (pids: set<int>)
    ensures pids == set p | p in explorerPids && IsFactoryExplorer(commandLines, p)
  {
    pids := {};
    var i := 0;
    while i < |explorerPids|
      invariant 0 <= i <= |explorerPids|
      invariant pids == set p | p in explorerPids[..i] && IsFactoryExplorer(commandLines, p)
    {
      var id := explorerPids[i];
      if IsFactoryExplorer(commandLines, id) {
        pids := pids + {id};
      }
      assert explorerPids[..i + 1] == explorerPids[..i] + [id];
      i := i + 1;
    }
    assert explorerPids[..i] == explorerPids;
  }

  // ---------------------------------------------------------------------
  // The event filters of the three phases

  /**
   * A win event as the callback sees it, with the answers of the calls it
   * makes about the window: the owning pid (`GetWindowThreadProcessId`,
   * 0 on failure) and the class name (`GetClassName`, none on failure).
   */
  datatype WinEvent = WinEvent(eventType: int, idObject: int, hwnd: int, ownerPid: int, className: Option<string>)

  /** The window's class name is exactly `CabinetWClass`, case included. */
  predicate IsFolderWindow(ev: WinEvent) {
    ev.className.Some? && |ev.className.value| > 0 && ev.className.value == TargetWindowClass
  }

  /**
   * Phase 1 adopts the event's process: a window object with a handle,
   * owned by a known process, not in the ignore set, and a factory
   * explorer.
   */
  predicate ProcessPhaseAdopts(ev: WinEvent, ignored: set<int>, commandLines: map<int, string>) {
    ev.idObject == ObjIdWindow && ev.hwnd != 0
    && ev.ownerPid != 0 && ev.ownerPid !in ignored
    && IsFactoryExplorer(commandLines, ev.ownerPid)
  }

  /** Phase 1 never adopts a non-window object, a null window, pid 0, an ignored pid or a non-factory process. */
  lemma ProcessPhaseRejects(ev: WinEvent, ignored: set<int>, commandLines: map<int, string>)
    ensures ev.idObject != ObjIdWindow ==> !ProcessPhaseAdopts(ev, ignored, commandLines)
    ensures ev.hwnd == 0 ==> !ProcessPhaseAdopts(ev, ignored, commandLines)
    ensures ev.ownerPid == 0 ==> !ProcessPhaseAdopts(ev, ignored, commandLines)
    ensures ev.ownerPid in ignored ==> !ProcessPhaseAdopts(ev, ignored, commandLines)
    ensures !IsFactoryExplorer(commandLines, ev.ownerPid) ==> !ProcessPhaseAdopts(ev, ignored, commandLines)
    ensures ProcessPhaseAdopts(ev, ignored, commandLines) ==> ev.ownerPid !in ignored && ev.ownerPid != 0
  {
  }

  /** Phase 2 hands off: a create or show event for a folder window. */
  predicate MainWindowPhaseHandsOff(ev: WinEvent) {
    (ev.eventType == EventObjectCreate || ev.eventType == EventObjectShow)
    && ev.idObject == ObjIdWindow && ev.hwnd != 0
    && IsFolderWindow(ev)
  }

  /** Whether a hook installed for the events `eventMin` to `eventMax` is called for an event. */
  predicate InHookRange(eventMin: int, eventMax: int, eventType: int) {
    eventMin <= eventType <= eventMax
  }

  /**
   * Phase 2's hook, installed for the creation to show events, is also
   * called for the destroy event, which never hands off; neither does a
   * class name that differs only in case.
   */
  lemma MainWindowPhaseIgnores(ev: WinEvent)
    ensures ev.eventType == EventObjectDestroy ==>
              InHookRange(EventObjectCreate, EventObjectShow, ev.eventType) && !MainWindowPhaseHandsOff(ev)
    ensures ev.className == Some("cabinetwclass") ==> !MainWindowPhaseHandsOff(ev)
    ensures MainWindowPhaseHandsOff(ev) <==>
              (ev.eventType == EventObjectCreate || ev.eventType == EventObjectShow)
              && ev.idObject == ObjIdWindow && ev.hwnd != 0 && ev.className == Some(TargetWindowClass)
  {
    if ev.className == Some("cabinetwclass") {
      assert ev.className.value[0] != TargetWindowClass[0];
    }
  }

  /** Phase 3 ends: a folder window was destroyed. */
  predicate DestroyPhaseQuits(ev: WinEvent) {
    ev.idObject == ObjIdWindow && ev.hwnd != 0 && IsFolderWindow(ev)
  }

  /** The pids phase 1 ignores: the factory explorers already running and every pid already monitored. */
  function IgnoreSet(explorerPids: seq<int>, commandLines: map<int, string>, monitored: set<int>): (s: set<int>)
    ensures forall p :: p in explorerPids && IsFactoryExplorer(commandLines, p) ==> p in s
    ensures monitored <= s
    ensures forall p :: p in s ==> p in monitored || (p in explorerPids && IsFactoryExplorer(commandLines, p))
  {
    (set p | p in explorerPids && IsFactoryExplorer(commandLines, p)) + monitored
  }

  // ---------------------------------------------------------------------
  // The machine: the shared registry and the trace of outside calls

  datatype Phase = ProcessPhase | MainWindowPhase | DestroyPhase

  /** The state of the process at a clean-up: gone (`GetProcessById` throws), exited, or running. */
  datatype ProcessStatus = NoSuchProcess | Exited | Running

  /** A call the monitor makes that the outside world sees. */
  datatype Step =
    | HookInstalled(phase: Phase, pid: int)
    | HookFailed(phase: Phase, pid: int)
    | Unhooked(phase: Phase, pid: int)
    | ReadySignalled
    | Launched(fileName: string, arguments: string)
    | PidAdded(pid: int)
    | PidRemoved(pid: int)
    | QuitPosted(phase: Phase, pid: int)
    | KillRequested(pid: int)

  /** The kill request a clean-up makes: only for a process still running. */
  function KillStep(pid: int, status: ProcessStatus): (r: seq<Step>)
    ensures |r| <= 1
    ensures r != [] <==> status == Running
  {
    if status == Running then [KillRequested(pid)] else []
  }

  class Machine {
    /** `_monitoredPids`. */
    var monitoredPids: set<int>
    var trace: seq<Step>

    constructor(monitoredPids: set<int>)
      ensures this.monitoredPids == monitoredPids && trace == []
    {
      this.monitoredPids := monitoredPids;
      trace := [];
    }

    method Record(step: Step)
      modifies this
      ensures trace == old(trace) + [step] && monitoredPids == old(monitoredPids)
    {
      trace := trace + [step];
    }

    /** `AddMonitoredPid`: a set insert; no other pid is affected. */
    method AddMonitoredPid(pid: int)
      modifies this
      ensures monitoredPids == old(monitoredPids) + {pid}
      ensures trace == old(trace) + [PidAdded(pid)]
    {
      monitoredPids := monitoredPids + {pid};
      trace := trace + [PidAdded(pid)];
    }

    /** `RemoveMonitoredPid`: a set delete; an absent pid changes nothing and no other pid is affected. */
    method RemoveMonitoredPid(pid: int)
      modifies this
      ensures monitoredPids == old(monitoredPids) - {pid}
      ensures pid !in old(monitoredPids) ==> monitoredPids == old(monitoredPids)
      ensures trace == old(trace) + [PidRemoved(pid)]
    {
      monitoredPids := monitoredPids - {pid};
      trace := trace + [PidRemoved(pid)];
    }
  }

  // ---------------------------------------------------------------------
  // Phase 3: wait for the folder window to be destroyed, then end the process

  class WindowDestroyMonitor {
    const machine: Machine
    const pid: int
    var hookActive: bool
    var quitPosted: bool
    var loopEnded: bool
    var cleanups: nat

    constructor(machine: Machine, pid: int)
      ensures this.machine == machine && this.pid == pid
      ensures !hookActive && !quitPosted && !loopEnded && cleanups == 0
    {
      this.machine := machine;
      this.pid := pid;
      hookActive := false;
      quitPosted := false;
      loopEnded := false;
      cleanups := 0;
    }

    /**
     * `Cleanup`: release the hook, remove the pid from the registry, and
     * only then ask a process that has not exited to end.
     */
    method Cleanup(status: ProcessStatus)
      modifies this, machine
      ensures !hookActive && cleanups == old(cleanups) + 1
      ensures machine.monitoredPids == old(machine.monitoredPids) - {pid}
      ensures machine.trace == old(machine.trace)
                               + (if old(hookActive) then [Unhooked(DestroyPhase, pid)] else [])
                               + [PidRemoved(pid)] + KillStep(pid, status)
      ensures quitPosted == old(quitPosted) && loopEnded == old(loopEnded)
    {
      if hookActive {
        machine.Record(Unhooked(DestroyPhase, pid));
        hookActive := false;
      }
      machine.RemoveMonitoredPid(pid);
      cleanups := cleanups + 1;
      if status == Running {
        machine.Record(KillRequested(pid));
      }
    }

    /**
     * The start of the message loop thread. Without a hook it cleans up,
     * returns, and cleans up again in `finally`: two clean-ups, so two kill
     * requests when the process is still running both times.
     */
    method Start(hookOk: bool, firstStatus: ProcessStatus, secondStatus: ProcessStatus)
      requires !hookActive && !quitPosted && !loopEnded && cleanups == 0
      modifies this, machine
      ensures hookOk ==> hookActive && !loopEnded && cleanups == 0
                         && machine.monitoredPids == old(machine.monitoredPids)
                         && machine.trace == old(machine.trace) + [HookInstalled(DestroyPhase, pid)]
      ensures !hookOk ==> !hookActive && loopEnded && cleanups == 2
                          && machine.monitoredPids == old(machine.monitoredPids) - {pid}
                          && machine.trace == old(machine.trace) + [HookFailed(DestroyPhase, pid), PidRemoved(pid)]
                                              + KillStep(pid, firstStatus) + [PidRemoved(pid)] + KillStep(pid, secondStatus)
      ensures !quitPosted
    {
      if !hookOk {
        machine.Record(HookFailed(DestroyPhase, pid));
        Cleanup(firstStatus);
        Cleanup(secondStatus);
        loopEnded := true;
        return;
      }
      hookActive := true;
      machine.Record(HookInstalled(DestroyPhase, pid));
    }

    /** `OnWinEvent`: a destroyed folder window ends the message loop. */
    method OnWinEvent(ev: WinEvent)
      modifies this, machine
      ensures DestroyPhaseQuits(ev) ==> quitPosted && machine.trace == old(machine.trace) + [QuitPosted(DestroyPhase, pid)]
      ensures !DestroyPhaseQuits(ev) ==> quitPosted == old(quitPosted) && machine.trace == old(machine.trace)
      ensures machine.monitoredPids == old(machine.monitoredPids)
      ensures hookActive == old(hookActive) && loopEnded == old(loopEnded) && cleanups == old(cleanups)
    {
      if ev.idObject != ObjIdWindow || ev.hwnd == 0 {
        return;
      }
      if IsFolderWindow(ev) {
        quitPosted := true;
        machine.Record(QuitPosted(DestroyPhase, pid));
      }
    }

    /** The message loop ends on the posted quit; `finally` cleans up. */
    method EndLoop(status: ProcessStatus)
      requires quitPosted && !loopEnded
      modifies this, machine
      ensures loopEnded && !hookActive && cleanups == old(cleanups) + 1
      ensures pid !in machine.monitoredPids
      ensures machine.monitoredPids == old(machine.monitoredPids) - {pid}
      ensures machine.trace == old(machine.trace)
                               + (if old(hookActive) then [Unhooked(DestroyPhase, pid)] else [])
                               + [PidRemoved(pid)] + KillStep(pid, status)
    {
      Cleanup(status);
      loopEnded := true;
    }
  }

  // ---------------------------------------------------------------------
  // Phase 2: wait for the folder window of the adopted process

  class MainWindowMonitor {
    const machine: Machine
    const pid: int
    var hookActive: bool
    var quitPosted: bool
    var loopEnded: bool
    var next: WindowDestroyMonitor?

    constructor(machine: Machine, pid: int)
      ensures this.machine == machine && this.pid == pid
      ensures !hookActive && !quitPosted && !loopEnded && next == null
    {
      this.machine := machine;
      this.pid := pid;
      hookActive := false;
      quitPosted := false;
      loopEnded := false;
      next := null;
    }

    /** The start of the loop: without a hook the pid leaves the registry and no phase 3 follows. */
    method Start(hookOk: bool)
      requires !hookActive && !quitPosted && !loopEnded && next == null
      modifies this, machine
      ensures hookOk ==> hookActive && !loopEnded
                         && machine.monitoredPids == old(machine.monitoredPids)
                         && machine.trace == old(machine.trace) + [HookInstalled(MainWindowPhase, pid)]
      ensures !hookOk ==> !hookActive && loopEnded
                          && machine.monitoredPids == old(machine.monitoredPids) - {pid}
                          && machine.trace == old(machine.trace) + [HookFailed(MainWindowPhase, pid), PidRemoved(pid)]
      ensures next == null && !quitPosted
    {
      if !hookOk {
        machine.Record(HookFailed(MainWindowPhase, pid));
        machine.RemoveMonitoredPid(pid);
        loopEnded := true;
        return;
      }
      hookActive := true;
      machine.Record(HookInstalled(MainWindowPhase, pid));
    }

    /**
     * The hand-off to phase 3: the hook is released, a new phase 3 starts
     * for the same pid and the quit is posted, in that order. When phase
     * 3's hook fails it cleans up twice at once, with the process's status
     * at each clean-up given.
     */
    twostate predicate HandedOff(destroyHookOk: bool, firstStatus: ProcessStatus, secondStatus: ProcessStatus)
      reads this, machine, next
    {
      next != null && fresh(next) && next.pid == pid && next.machine == machine
      && next.hookActive == destroyHookOk && next.loopEnded == !destroyHookOk && !next.quitPosted
      && next.cleanups == (if destroyHookOk then 0 else 2)
      && !hookActive && quitPosted
      && machine.monitoredPids == (if destroyHookOk then old(machine.monitoredPids) else old(machine.monitoredPids) - {pid})
      && machine.trace == old(machine.trace)
                          + (if old(hookActive) then [Unhooked(MainWindowPhase, pid)] else [])
                          + (if destroyHookOk then [HookInstalled(DestroyPhase, pid)]
                             else [HookFailed(DestroyPhase, pid), PidRemoved(pid)] + KillStep(pid, firstStatus)
                                  + [PidRemoved(pid)] + KillStep(pid, secondStatus))
                          + [QuitPosted(MainWindowPhase, pid)]
    }

    /**
     * `OnWinEvent`: on the folder window, release the hook, start phase 3
     * for the same pid, and post the quit, in that order. Nothing guards a
     * second folder-window event still queued (the show after the create):
     * it hands off again and replaces the phase 3 started before.
     */
    method OnWinEvent(ev: WinEvent, destroyHookOk: bool, firstStatus: ProcessStatus, secondStatus: ProcessStatus)
      modifies this, machine
      ensures !MainWindowPhaseHandsOff(ev) ==>
                next == old(next) && quitPosted == old(quitPosted) && hookActive == old(hookActive)
                && machine.trace == old(machine.trace) && machine.monitoredPids == old(machine.monitoredPids)
      ensures MainWindowPhaseHandsOff(ev) ==> HandedOff(destroyHookOk, firstStatus, secondStatus)
      ensures loopEnded == old(loopEnded)
    {
      if ev.eventType != EventObjectCreate && ev.eventType != EventObjectShow {
        return;
      }
      if ev.idObject != ObjIdWindow || ev.hwnd == 0 {
        return;
      }
      if IsFolderWindow(ev) {
        HandOff(destroyHookOk, firstStatus, secondStatus);
      }
    }

    /** The branch of `OnWinEvent` taken for the folder window. */
    method HandOff(destroyHookOk: bool, firstStatus: ProcessStatus, secondStatus: ProcessStatus)
      modifies this, machine
      ensures HandedOff(destroyHookOk, firstStatus, secondStatus)
      ensures loopEnded == old(loopEnded)
    {
      if hookActive {
        machine.Record(Unhooked(MainWindowPhase, pid));
        hookActive := false;
      }
      ghost var released := machine.trace;
      assert released == old(machine.trace) + (if old(hookActive) then [Unhooked(MainWindowPhase, pid)] else []);
      var destroyMonitor := new WindowDestroyMonitor(machine, pid);
      next := destroyMonitor;
      destroyMonitor.Start(destroyHookOk, firstStatus, secondStatus);
      ghost var started := machine.trace;
      quitPosted := true;
      machine.Record(QuitPosted(MainWindowPhase, pid));
      assert machine.trace == started + [QuitPosted(MainWindowPhase, pid)];
    }

    /** The loop ends on the posted quit; `finally` releases a hook still held. */
    method EndLoop()
      requires quitPosted && !loopEnded
      modifies this, machine
      ensures loopEnded && !hookActive
      ensures machine.monitoredPids == old(machine.monitoredPids)
      ensures machine.trace == old(machine.trace) + (if old(hookActive) then [Unhooked(MainWindowPhase, pid)] else [])
      ensures next == old(next) && quitPosted == old(quitPosted)
    {
      if hookActive {
        machine.Record(Unhooked(MainWindowPhase, pid));
        hookActive := false;
      }
      loopEnded := true;
    }
  }

  // ---------------------------------------------------------------------
  // Phase 1: wait for a new factory explorer process

  class ProcessMonitor {
    const machine: Machine
    /** `_existingPids`: the ignore set taken before the launch. */
    const existingPids: set<int>
    var hookActive: bool
    var ready: bool
    var quitPosted: bool
    var loopEnded: bool
    var next: MainWindowMonitor?
    /** The pids this phase handed to phase 2, in order. */
    var adopted: seq<int>

    /** Adopting a process releases the hook; the hook is held only before any adoption. */
    predicate Valid()
      reads this
    {
      (hookActive ==> adopted == [] && !quitPosted)
      && (|adopted| > 0 <==> next != null)
      && (next != null ==> next.pid == adopted[|adopted| - 1])
    }

    constructor(machine: Machine, existingPids: set<int>)
      ensures Valid()
      ensures this.machine == machine && this.existingPids == existingPids
      ensures !hookActive && !ready && !quitPosted && !loopEnded && next == null && adopted == []
    {
      this.machine := machine;
      this.existingPids := existingPids;
      hookActive := false;
      ready := false;
      quitPosted := false;
      loopEnded := false;
      next := null;
      adopted := [];
    }

    /**
     * The start of the loop thread up to the message loop: install the
     * hook, then signal ready whether or not it was installed. Without a
     * hook the thread returns at once and `finally` signals ready again.
     */
    method Start(hookOk: bool)
      requires Valid() && !hookActive && !ready && !quitPosted && !loopEnded && adopted == []
      modifies this, machine
      ensures Valid() && ready
      ensures hookActive == hookOk && loopEnded == !hookOk
      ensures machine.trace == old(machine.trace)
                               + if hookOk then [HookInstalled(ProcessPhase, 0), ReadySignalled]
                                 else [HookFailed(ProcessPhase, 0), ReadySignalled, ReadySignalled]
      ensures machine.monitoredPids == old(machine.monitoredPids)
      ensures adopted == [] && next == null && quitPosted == old(quitPosted)
    {
      if !hookOk {
        machine.Record(HookFailed(ProcessPhase, 0));
        ready := true;
        machine.Record(ReadySignalled);
        // the early return runs `finally`, which signals ready again
        machine.Record(ReadySignalled);
        loopEnded := true;
        return;
      }
      hookActive := true;
      machine.Record(HookInstalled(ProcessPhase, 0));
      ready := true;
      machine.Record(ReadySignalled);
    }

    /**
     * The adoption of `pid`: the hook is released, the pid is registered,
     * phase 2 starts for exactly that pid and the quit is posted, in that
     * order; a failed phase-2 hook unregisters the pid again.
     */
    twostate predicate Adopted(pid: int, mainWindowHookOk: bool)
      reads this, machine, next
    {
      adopted == old(adopted) + [pid] && !hookActive && quitPosted
      && next != null && fresh(next) && next.pid == pid && next.machine == machine
      && next.hookActive == mainWindowHookOk && next.loopEnded == !mainWindowHookOk
      && !next.quitPosted && next.next == null
      && machine.trace == old(machine.trace)
                          + (if old(hookActive) then [Unhooked(ProcessPhase, 0)] else [])
                          + [PidAdded(pid)]
                          + (if mainWindowHookOk then [HookInstalled(MainWindowPhase, pid)]
                             else [HookFailed(MainWindowPhase, pid), PidRemoved(pid)])
                          + [QuitPosted(ProcessPhase, 0)]
      && machine.monitoredPids == if mainWindowHookOk then old(machine.monitoredPids) + {pid}
                                  else (old(machine.monitoredPids) + {pid}) - {pid}
    }

    /** Nothing observable changed: no adoption, the same hook, no quit, the same registry and log. */
    twostate predicate Ignored()
      reads this, machine
    {
      adopted == old(adopted) && next == old(next) && hookActive == old(hookActive) && quitPosted == old(quitPosted)
      && machine.trace == old(machine.trace) && machine.monitoredPids == old(machine.monitoredPids)
    }

    /**
     * `OnWinEvent`: for a new factory explorer, release the hook, add the
     * pid to the registry, start phase 2 for it and post the quit, in that
     * order.
     */
    method OnWinEvent(ev: WinEvent, commandLines: map<int, string>, mainWindowHookOk: bool)
      requires Valid()
      modifies this, machine
      ensures Valid()
      ensures !ProcessPhaseAdopts(ev, existingPids, commandLines) ==> Ignored()
      ensures ProcessPhaseAdopts(ev, existingPids, commandLines) ==> Adopted(ev.ownerPid, mainWindowHookOk)
      ensures ready == old(ready) && loopEnded == old(loopEnded)
    {
      if ev.idObject != ObjIdWindow || ev.hwnd == 0 {
        return;
      }
      var pid := ev.ownerPid;
      if pid == 0 || pid in existingPids {
        return;
      }
      if !IsFactoryExplorer(commandLines, pid) {
        return;
      }
      Adopt(pid, mainWindowHookOk);
    }

    /** The adopting branch of `OnWinEvent`, for a pid already accepted. */
    method Adopt(pid: int, mainWindowHookOk: bool)
      requires Valid()
      modifies this, machine
      ensures Valid()
      ensures Adopted(pid, mainWindowHookOk)
      ensures ready == old(ready) && loopEnded == old(loopEnded)
    {
      if hookActive {
        machine.Record(Unhooked(ProcessPhase, 0));
        hookActive := false;
      }
      machine.AddMonitoredPid(pid);
      var mainWindowMonitor := new MainWindowMonitor(machine, pid);
      next := mainWindowMonitor;
      mainWindowMonitor.Start(mainWindowHookOk);
      adopted := adopted + [pid];
      quitPosted := true;
      machine.Record(QuitPosted(ProcessPhase, 0));
    }

    /**
     * Event delivery: the system calls the callback for window creation
     * events only while the hook is installed.
     */
    method Deliver(ev: WinEvent, commandLines: map<int, string>, mainWindowHookOk: bool)
      requires Valid()
      modifies this, machine
      ensures Valid()
      ensures old(hookActive) && ev.eventType == EventObjectCreate && ProcessPhaseAdopts(ev, existingPids, commandLines) ==>
                Adopted(ev.ownerPid, mainWindowHookOk)
      ensures !(old(hookActive) && ev.eventType == EventObjectCreate && ProcessPhaseAdopts(ev, existingPids, commandLines)) ==>
                Ignored()
      ensures ready == old(ready) && loopEnded == old(loopEnded)
    {
      if hookActive && ev.eventType == EventObjectCreate {
        OnWinEvent(ev, commandLines, mainWindowHookOk);
      }
    }

    /**
     * The loop ends on the posted quit; `finally` signals ready again. The
     * hook was released before the quit was posted, so nothing is left to
     * release.
     */
    method EndLoop()
      requires Valid() && quitPosted && !loopEnded
      modifies this, machine
      ensures Valid() && loopEnded && !hookActive && ready
      ensures machine.monitoredPids == old(machine.monitoredPids)
      ensures machine.trace == old(machine.trace) + [ReadySignalled]
      ensures next == old(next) && adopted == old(adopted) && quitPosted == old(quitPosted)
    {
      ready := true;
      machine.Record(ReadySignalled);
      loopEnded := true;
    }
  }

  /**
   * However many creation events arrive, one phase 1 adopts at most one
   * process, and never one from its ignore set.
   */
  method AdoptsAtMostOne(monitor: ProcessMonitor, events: seq<WinEvent>, commandLines: map<int, string>, mainWindowHookOk: bool)
    requires monitor.Valid() && monitor.adopted == []
    modifies monitor, monitor.machine
    ensures monitor.Valid()
    ensures |monitor.adopted| <= 1
    ensures forall k :: 0 <= k < |monitor.adopted| ==> monitor.adopted[k] !in monitor.existingPids && monitor.adopted[k] != 0
  {
    var i := 0;
    while i < |events|
      invariant 0 <= i <= |events|
      invariant monitor.Valid()
      invariant |monitor.adopted| <= 1
      invariant forall k :: 0 <= k < |monitor.adopted| ==> monitor.adopted[k] !in monitor.existingPids && monitor.adopted[k] != 0
    {
      monitor.Deliver(events[i], commandLines, mainWindowHookOk);
      i := i + 1;
    }
  }

  /**
   * `OpenAndMonitor`: take the ignore set, start phase 1 and wait until it
   * is ready, then launch. The launch is always recorded after the ready
   * signal, whether or not the hook could be installed.
   */
  method OpenAndMonitor(machine: Machine, fileName: string, arguments: Option<string>,
                        explorerPids: seq<int>, commandLines: map<int, string>, hookOk: bool)
    returns (monitor: ProcessMonitor)
    modifies machine
    ensures fresh(monitor) && monitor.machine == machine && monitor.Valid()
    ensures monitor.existingPids == IgnoreSet(explorerPids, commandLines, old(machine.monitoredPids))
    ensures monitor.ready && monitor.hookActive == hookOk && monitor.adopted == []
    ensures monitor.loopEnded == !hookOk && !monitor.quitPosted
    ensures machine.monitoredPids == old(machine.monitoredPids)
    ensures machine.trace == old(machine.trace)
                             + (if hookOk then [HookInstalled(ProcessPhase, 0), ReadySignalled]
                                else [HookFailed(ProcessPhase, 0), ReadySignalled, ReadySignalled])
                             + [Launched(fileName, arguments.GetOr(""))]
  {
    var existingPids := GetExplorerFactoryPids(explorerPids, commandLines);
    existingPids := existingPids + machine.monitoredPids;
    monitor := new ProcessMonitor(machine, existingPids);
    monitor.Start(hookOk);
    assert monitor.ready;
    machine.Record(Launched(fileName, arguments.GetOr("")));
  }

  /** `OpenAndMonitorControlPanel`. */
  method OpenAndMonitorControlPanel(machine: Machine, explorerPids: seq<int>, commandLines: map<int, string>, hookOk: bool)
    returns (monitor: ProcessMonitor)
    modifies machine
    ensures fresh(monitor) && monitor.Valid() && monitor.ready
    ensures |machine.trace| >= 2 && machine.trace[|machine.trace| - 2] == ReadySignalled
    ensures machine.trace[|machine.trace| - 1] == Launched("ncpa.cpl", "")
  {
    monitor := OpenAndMonitor(machine, "ncpa.cpl", None, explorerPids, commandLines, hookOk);
  }

  /** `OpenAndMonitorExplorerShell`. */
  method OpenAndMonitorExplorerShell(machine: Machine, explorerPids: seq<int>, commandLines: map<int, string>, hookOk: bool)
    returns (monitor: ProcessMonitor)
    modifies machine
    ensures fresh(monitor) && monitor.Valid() && monitor.ready
    ensures |machine.trace| >= 2 && machine.trace[|machine.trace| - 2] == ReadySignalled
    ensures machine.trace[|machine.trace| - 1] == Launched("explorer.exe", "shell:::{7007ACC7-3202-11D1-AAD2-00805FC1270E}")
  {
    monitor := OpenAndMonitor(machine, "explorer.exe", Some("shell:::{7007ACC7-3202-11D1-AAD2-00805FC1270E}"),
                              explorerPids, commandLines, hookOk);
  }

  /**
   * A full run for one launch: the adopted pid is in the registry while
   * its window is open, and out of it after the window is destroyed,
   * before any kill request.
   */
  method FullRun(machine: Machine, pid: int, commandLines: map<int, string>, status: ProcessStatus)
    requires pid != 0 && pid !in machine.monitoredPids && IsFactoryExplorer(commandLines, pid)
    modifies machine
    ensures pid !in machine.monitoredPids
    ensures |machine.trace| > 0 && (status == Running <==> machine.trace[|machine.trace| - 1] == KillRequested(pid))
  {
    var monitor := OpenAndMonitor(machine, "ncpa.cpl", None, [], commandLines, true);
    assert pid !in monitor.existingPids;
    var created := WinEvent(EventObjectCreate, ObjIdWindow, 1, pid, Some("Shell_TrayWnd"));
    assert ProcessPhaseAdopts(created, monitor.existingPids, commandLines);
    monitor.OnWinEvent(created, commandLines, true);
    var phase2 := monitor.next;
    assert phase2 != null && phase2.pid == pid && phase2.hookActive;
    assert pid in machine.monitoredPids;
    monitor.EndLoop();

    var shown := WinEvent(EventObjectShow, ObjIdWindow, 2, pid, Some(TargetWindowClass));
    phase2.OnWinEvent(shown, true, status, status);
    var phase3 := phase2.next;
    assert phase3 != null && phase3.pid == pid && phase3.hookActive;
    assert pid in machine.monitoredPids;
    phase2.EndLoop();

    var destroyed := WinEvent(EventObjectDestroy, ObjIdWindow, 2, pid, Some(TargetWindowClass));
    phase3.OnWinEvent(destroyed);
    assert phase3.quitPosted;
    var beforeCleanup := machine.trace;
    phase3.EndLoop(status);
    assert pid !in machine.monitoredPids;
    assert machine.trace == beforeCleanup + [Unhooked(DestroyPhase, pid), PidRemoved(pid)] + KillStep(pid, status);
  }
}
