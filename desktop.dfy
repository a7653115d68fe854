/** The `CatOS` state engine: every timer firing and user action of the
    session object as a method, with its random draws and the clock text
    passed in. */
module Desktop {
  import opened Draws
  import opened LogBuffer
  import opened Windows
  import opened Vitals
  import opened ProcessTable
  import opened CrashOverlay

  const LostInterestChance: real := 0.2
  const ChaosChance: real := 0.3
  const ZoomiesChance: real := 0.05
  const CrashChance: real := 0.01

  const ChaosTargets: seq<string> := [
    "vase.exe", "keyboard.dll", "curtains.sys", "plant.obj",
    "glass_of_water.tmp", "laptop.exe", "paper_stack.doc"
  ]

  const CriticalMessage: string := "CRITICAL: Attention span depleted"
  const ClosedMessage: string := "Closed window (cat knocked it off desk)"
  const YarnMessage: string := "Yarn ball attacked successfully"
  const ZoomiesStartMessage: string := "⚠️ ZOOMIES ACTIVATED ⚠️"
  const ZoomiesEndMessage: string := "Zoomies concluded - assessing damage"
  const RecoveredMessage: string := "System recovered from cat crash"

  /** The entry `triggerRandomChaos` logs for a target draw. */
  function ChaosEntry(time: string, r: real): (e: LogEntry)
    requires IsDraw(r)
    ensures e.time == time && e.severity == Error
    ensures exists k :: (0 <= k < |ChaosTargets| && e.message == "CHAOS: Destroyed " + ChaosTargets[k] &&
                         k as real <= r * |ChaosTargets| as real < k as real + 1.0)
  {
    LogEntry(time, "CHAOS: Destroyed " + ChaosTargets[Bucket(r, |ChaosTargets|)], Error)
  }

  class CatOS {
    var attention: real
    var currentPriority: Priority
    var windows: seq<WindowEntry>
    var windowId: nat
    var logs: seq<LogEntry>
    var isZooming: bool
    var logsMinimized: bool
    var processes: map<ProcessKey, ProcessEntry>

    /** What every operation keeps: attention never above 100, the log within
        its cap, the window registry consistent with the shared counter, and
        the process table complete with its fixed names. */
    ghost predicate Valid()
      reads this
    {
      && attention <= MaxAttention
      && |logs| <= MaxLogs
      && WellFormed(windows, windowId)
      && Complete(processes)
    }

    /** The constructor and `init`'s three immediate log entries. */
    constructor (time: string)
      ensures Valid()
      ensures attention == 100.0 && currentPriority == Food
      ensures windows == [] && windowId == 0
      ensures !isZooming && !logsMinimized
      ensures processes == InitialTable()
      ensures logs == [
        LogEntry(time, "Scanning for food sources...", Info),
        LogEntry(time, "All 9 lives operational", Success),
        LogEntry(time, "CatOS 9.lives initialized", Success)
      ]
    {
      attention := 100.0;
      currentPriority := Food;
      windows := [];
      windowId := 0;
      logs := [];
      isZooming := false;
      logsMinimized := false;
      processes := InitialTable();
      InitialTableIsComplete();
      new;
      AddLog(time, "CatOS 9.lives initialized", Success);
      AddLog(time, "All 9 lives operational", Success);
      AddLog(time, "Scanning for food sources...", Info);
    }

    /** `addLog`: unshift the entry, pop the last one if there are now more
        than 50. */
    method AddLog(time: string, message: string, severity: Severity)
      requires Valid()
      modifies this`logs
      ensures Valid()
      ensures logs == Prepend(old(logs), LogEntry(time, message, severity))
    {
      logs := [LogEntry(time, message, severity)] + logs;
      if |logs| > MaxLogs {
        logs := logs[..|logs| - 1];
      }
    }

    /** `openApp`: an unknown app name changes nothing; otherwise the next id
        is allocated and the window appended. `losesInterest` says whether the
        one-shot "lost interest" timer was scheduled (see `LostInterest`). */
    method OpenApp(appName: string, interestDraw: real) returns (losesInterest: bool)
      requires Valid() && IsDraw(interestDraw)
      modifies this`windowId, this`windows
      ensures Valid()
      ensures WindowConfig(appName).None? ==>
        windowId == old(windowId) && windows == old(windows) && !losesInterest
      ensures WindowConfig(appName).Some? ==>
        && windowId == old(windowId) + 1
        && windows == old(windows) + [WindowEntry(windowId, appName, Auto, false)]
        && losesInterest == (interestDraw < LostInterestChance)
    {
      losesInterest := false;
      var config := WindowConfig(appName);
      if config.None? {
        return;
      }
      OpenKeepsWellFormed(windows, windowId, appName);
      windowId := windowId + 1;
      var id := windowId;
      windows := windows + [WindowEntry(id, appName, Auto, false)];
      if interestDraw < LostInterestChance {
        losesInterest := true;
      }
    }

    /** The "lost interest" timer firing: a warning, then 20 off attention
        with no clamp, so attention can go below 0 until the next decay tick. */
    method LostInterest(time: string, appName: string)
      requires Valid()
      modifies this`logs, this`attention
      ensures Valid()
      ensures logs == Prepend(old(logs), LogEntry(time, "Cat lost interest in " + appName, Warning))
      ensures attention == old(attention) - LostInterestPenalty
    {
      AddLog(time, "Cat lost interest in " + appName, Warning);
      attention := attention - LostInterestPenalty;
    }

    /** `closeWindow`: when the id is open, filter it out and log; otherwise
        nothing changes. */
    method CloseWindow(time: string, id: int)
      requires Valid()
      modifies this`windows, this`logs
      ensures Valid()
      ensures windows == Without(old(windows), id)
      ensures !IsOpen(windows, id)
      ensures !IsOpen(old(windows), id) ==> windows == old(windows) && logs == old(logs)
      ensures IsOpen(old(windows), id) ==>
        logs == Prepend(old(logs), LogEntry(time, ClosedMessage, Info))
    {
      WithoutKeepsWellFormed(windows, windowId, id);
      if !IsOpen(windows, id) {
        WithoutAbsent(windows, id);
      }
      var k := FindIndex(windows, id);
      if k >= 0 {
        windows := Without(windows, id);
        AddLog(time, ClosedMessage, Info);
      }
    }

    /** Header mousedown: the window's element only exists while the window
        is open; `++windowId` becomes its z-index, above every id and z-index
        handed out before. */
    method HeaderMouseDown(id: int)
      requires Valid() && IsOpen(windows, id)
      modifies this`windowId, this`windows
      ensures Valid()
      ensures windowId == old(windowId) + 1
      ensures windows == Raise(old(windows), id, windowId)
      ensures |windows| == |old(windows)|
      ensures forall i :: 0 <= i < |windows| && windows[i].id == id ==> windows[i] == old(windows)[i].(z := Raised(windowId))
      ensures forall i :: 0 <= i < |windows| && windows[i].id != id ==>
        windows[i] == old(windows)[i] && Level(windows[i].z) < windowId
    {
      RaiseMakesTopmost(windows, windowId, id);
      windowId := windowId + 1;
      windows := Raise(windows, id, windowId);
    }

    /** Taskbar click: raise the window if the id is open, else nothing. */
    method TaskbarClick(id: int)
      requires Valid()
      modifies this`windowId, this`windows
      ensures Valid()
      ensures !IsOpen(old(windows), id) ==> windowId == old(windowId) && windows == old(windows)
      ensures IsOpen(old(windows), id) ==>
        windowId == old(windowId) + 1 && windows == Raise(old(windows), id, windowId)
    {
      var k := FindIndex(windows, id);
      if k >= 0 {
        RaiseMakesTopmost(windows, windowId, id);
        windowId := windowId + 1;
        windows := Raise(windows, id, windowId);
      }
    }

    /** `playWithYarn`, its attention part: log, add 10, clamp to 100. */
    method PlayWithYarn(time: string)
      requires Valid()
      modifies this`logs, this`attention
      ensures Valid()
      ensures logs == Prepend(old(logs), LogEntry(time, YarnMessage, Success))
      ensures attention == Boosted(old(attention))
    {
      AddLog(time, YarnMessage, Success);
      attention := attention + YarnBoost;
      if attention > MaxAttention {
        attention := MaxAttention;
      }
    }

    /** `triggerRandomChaos`: one error entry naming a target. */
    method TriggerRandomChaos(time: string, targetDraw: real)
      requires Valid() && IsDraw(targetDraw)
      modifies this`logs
      ensures Valid()
      ensures logs == Prepend(old(logs), ChaosEntry(time, targetDraw))
    {
      var target := ChaosTargets[Bucket(targetDraw, |ChaosTargets|)];
      AddLog(time, "CHAOS: Destroyed " + target, Error);
    }

    /** One attention decay tick; the critical entry is logged exactly when
        the clamped attention is below 20, and then chaos follows with
        probability 0.3. */
    method AttentionDecayTick(time: string, decayDraw: real, chaosDraw: real, targetDraw: real)
      requires Valid() && IsDraw(decayDraw) && IsDraw(chaosDraw) && IsDraw(targetDraw)
      modifies this`attention, this`logs
      ensures Valid()
      ensures attention == Decayed(old(attention), decayDraw)
      ensures attention >= CriticalAttention ==> logs == old(logs)
      ensures attention < CriticalAttention ==>
        var critical := Prepend(old(logs), LogEntry(time, CriticalMessage, Error));
        logs == if chaosDraw < ChaosChance then Prepend(critical, ChaosEntry(time, targetDraw)) else critical
    {
      attention := attention - decayDraw * MaxDecay;
      if attention < 0.0 {
        attention := 0.0;
      }
      if attention < CriticalAttention {
        AddLog(time, CriticalMessage, Error);
        if chaosDraw < ChaosChance {
          TriggerRandomChaos(time, targetDraw);
        }
      }
    }

    /** One priority tick: the new priority depends on the draw alone. */
    method PriorityTick(r: real)
      requires Valid()
      modifies this`currentPriority
      ensures Valid()
      ensures currentPriority == PriorityFor(r)
    {
      if r < 0.4 {
        currentPriority := Food;
      } else if r < 0.65 {
        currentPriority := Chaos;
      } else if r < 0.85 {
        currentPriority := Sleep;
      } else {
        currentPriority := Affection;
      }
    }

    /** The `forEach` over the process keys: each entry, with its own draws,
        is redrawn with probability 0.2. */
    method SimulateProcesses(ds: seq<ProcessDraw>)
      requires Valid() && TickDrawsOk(ds)
      modifies this`processes
      ensures Valid()
      ensures processes == Perturbed(old(processes), ds)
    {
      ghost var start := processes;
      PerturbedUpToEnds(start, ds);
      var i := 0;
      while i < |ProcessOrder|
        invariant 0 <= i <= |ProcessOrder|
        invariant processes == PerturbedUpTo(start, ds, i)
      {
        var key := ProcessOrder[i];
        var d := ds[i];
        PerturbedUpToStep(start, ds, i);
        if d.select < SelectChance {
          var entry := processes[key];
          var redrawn := ProcessEntry(entry.name, States[Bucket(d.status, |States|)], Bucket(d.cpu, 100));
          assert entry == start[key] && redrawn == Perturb(start[key], d);
          processes := processes[key := redrawn];
        }
        i := i + 1;
      }
    }

    /** `triggerZoomies`: set the flag, log, and start the shake animation on
        every open window. It has no guard of its own. */
    method TriggerZoomies(time: string)
      requires Valid()
      modifies this`isZooming, this`logs, this`windows
      ensures Valid()
      ensures isZooming
      ensures logs == Prepend(old(logs), LogEntry(time, ZoomiesStartMessage, Error))
      ensures |windows| == |old(windows)|
      ensures forall i :: 0 <= i < |windows| ==> windows[i] == old(windows)[i].(shaking := true)
    {
      isZooming := true;
      AddLog(time, ZoomiesStartMessage, Error);
      SetShaking(true);
    }

    /** The zoomies timer firing: stop every shake, clear the flag, log. */
    method ZoomiesConcluded(time: string)
      requires Valid()
      modifies this`isZooming, this`logs, this`windows
      ensures Valid()
      ensures !isZooming
      ensures logs == Prepend(old(logs), LogEntry(time, ZoomiesEndMessage, Info))
      ensures |windows| == |old(windows)|
      ensures forall i :: 0 <= i < |windows| ==> windows[i] == old(windows)[i].(shaking := false)
    {
      SetShaking(false);
      isZooming := false;
      AddLog(time, ZoomiesEndMessage, Info);
    }

    /** `this.windows.forEach(w => w.element.style.animation = ...)`. */
    method SetShaking(on: bool)
      requires Valid()
      modifies this`windows
      ensures Valid()
      ensures |windows| == |old(windows)|
      ensures forall i :: 0 <= i < |windows| ==> windows[i] == old(windows)[i].(shaking := on)
    {
      var i := 0;
      while i < |windows|
        invariant 0 <= i <= |windows| == |old(windows)|
        invariant forall j :: 0 <= j < i ==> windows[j] == old(windows)[j].(shaking := on)
        invariant forall j :: i <= j < |windows| ==> windows[j] == old(windows)[j]
      {
        windows := windows[i := windows[i].(shaking := on)];
        i := i + 1;
      }
    }

    /** `triggerBSOC`: pick the reason, run the progress loop to 100, then the
        settle timer logs the recovery. There is no guard against a second
        crash sequence. */
    method TriggerBSOC(recoveryTime: string, reasonDraw: real, progressDraw: nat -> real)
      returns (reason: string, trace: seq<int>)
      requires Valid() && IsDraw(reasonDraw) && forall i :: IsDraw(progressDraw(i))
      modifies this`logs
      ensures Valid()
      ensures reason == Reason(reasonDraw)
      ensures 6 <= |trace| <= 20 && trace[|trace| - 1] == Done
      ensures trace[0] == Advance(0, progressDraw(0))
      ensures forall i :: 1 <= i < |trace| ==> trace[i] == Advance(trace[i - 1], progressDraw(i))
      ensures forall i, j :: 0 <= i < j < |trace| ==> trace[i] < trace[j]
      ensures logs == Prepend(old(logs), LogEntry(recoveryTime, RecoveredMessage, Success))
    {
      reason := Reason(reasonDraw);
      trace := RunProgress(progressDraw);
      AddLog(recoveryTime, RecoveredMessage, Success);
    }

    /** One process simulation tick: perturb the table, start zoomies with
        probability 0.05 when none is running, and start a crash sequence
        with probability 0.01. */
    method ProcessSimulationTick(time: string, ds: seq<ProcessDraw>, zoomDraw: real, crashDraw: real,
                                 reasonDraw: real, progressDraw: nat -> real, recoveryTime: string)
      returns (crashReason: Option<string>, crashTrace: seq<int>)
      requires Valid() && TickDrawsOk(ds) && IsDraw(zoomDraw) && IsDraw(crashDraw) && IsDraw(reasonDraw)
      requires forall i :: IsDraw(progressDraw(i))
      modifies this`processes, this`isZooming, this`logs, this`windows
      ensures Valid()
      ensures processes == Perturbed(old(processes), ds)
      ensures isZooming == (old(isZooming) || zoomDraw < ZoomiesChance)
      ensures var zoomed := zoomDraw < ZoomiesChance && !old(isZooming);
        && |windows| == |old(windows)|
        && (forall i :: 0 <= i < |windows| ==> windows[i] == if zoomed then old(windows)[i].(shaking := true) else old(windows)[i])
        && var afterZoom := if zoomed then Prepend(old(logs), LogEntry(time, ZoomiesStartMessage, Error)) else old(logs);
           logs == if crashDraw < CrashChance then Prepend(afterZoom, LogEntry(recoveryTime, RecoveredMessage, Success)) else afterZoom
      ensures crashDraw >= CrashChance ==> crashReason == None && crashTrace == []
      ensures crashDraw < CrashChance ==>
        && crashReason == Some(Reason(reasonDraw))
        && 6 <= |crashTrace| <= 20 && crashTrace[|crashTrace| - 1] == Done
        && crashTrace[0] == Advance(0, progressDraw(0))
        && (forall i :: 1 <= i < |crashTrace| ==> crashTrace[i] == Advance(crashTrace[i - 1], progressDraw(i)))
        && forall i, j :: 0 <= i < j < |crashTrace| ==> crashTrace[i] < crashTrace[j]
    {
      SimulateProcesses(ds);
      if zoomDraw < ZoomiesChance && !isZooming {
        TriggerZoomies(time);
      }
      crashReason, crashTrace := None, [];
      if crashDraw < CrashChance {
        var reason;
        reason, crashTrace := TriggerBSOC(recoveryTime, reasonDraw, progressDraw);
        crashReason := Some(reason);
      }
    }

    /** `toggleLogs`. */
    method ToggleLogs()
      requires Valid()
      modifies this`logsMinimized
      ensures Valid()
      ensures logsMinimized == !old(logsMinimized)
    {
      logsMinimized := !logsMinimized;
    }
  }

  /** Windows opened, raised and closed, through the contracts alone. */
  method WindowSession() {
    var os := new CatOS("09:00");
    var lost := os.OpenApp("yarn-ball", 0.5);
    assert os.windows == [WindowEntry(1, "yarn-ball", Auto, false)];
    lost := os.OpenApp("box-simulator", 0.5);
    assert os.windows[1] == WindowEntry(2, "box-simulator", Auto, false);
    lost := os.OpenApp("calculator", 0.1);
    assert os.windowId == 2 && |os.windows| == 2;

    assert IsOpen(os.windows, 1) by { assert os.windows[0].id == 1; }
    os.TaskbarClick(1);
    assert os.windowId == 3;
    assert os.windows[0].z == Raised(3);

    var before := os.windows;
    os.CloseWindow("09:01", 2);
    WithoutPresent(before, 1);
    assert os.windows == [WindowEntry(1, "yarn-ball", Raised(3), false)];
    var logged := os.logs;
    os.CloseWindow("09:01", 2);
    assert os.logs == logged;
  }

  /** Attention under repeated timer firings and user actions, through the
      contracts alone: five decay ticks of 4 each, one yarn play, five
      lost-interest penalties that take attention below 0, and the decay tick
      that lifts it back to 0. */
  method AttentionSession() {
    var os := new CatOS("09:00");
    for n := 0 to 5
      invariant os.Valid() && os.attention == 100.0 - 4.0 * n as real
    {
      os.AttentionDecayTick("09:02", 0.8, 0.9, 0.0);
    }
    os.PlayWithYarn("09:03");
    assert os.attention == 90.0;
    for n := 0 to 5
      invariant os.Valid() && os.attention == 90.0 - 20.0 * n as real
    {
      os.LostInterest("09:04", "yarn-ball");
    }
    assert os.attention == -10.0;
    os.AttentionDecayTick("09:05", 0.0, 0.9, 0.0);
    assert os.attention == 0.0;
  }
}
