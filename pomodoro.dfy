/** The Pomodoro timer (src/lib/stores/pomodoro.ts) as a state machine: the
    timer state, the mutable duration settings, whether the one-second interval
    is armed, and the statements written to `pomodoro_sessions`. Each interval
    firing is a `Tick` event; the asynchronous phase end it triggers is taken to
    happen within that tick. Fresh session ids (uuid) are event parameters. */
module Pomodoro {
  import opened Common
  import opened Sql

  datatype Phase = Idle | Work | ShortBreak | LongBreak

  datatype PomodoroState = PomodoroState(
    phase: Phase,
    timeRemaining: int,  // seconds
    totalTime: int,
    cycle: int,
    isRunning: bool,
    linkedTodoId: Option<string>,
    sessionId: Option<string>)

  /** The mutable POMODORO_DEFAULTS durations, in seconds. */
  datatype Durations = Durations(work: int, shortBreak: int, longBreak: int)

  const DefaultDurations: Durations := Durations(25 * 60, 5 * 60, 15 * 60)
  const CyclesBeforeLong: int := 4

  /** The state captured once, from the durations at module load. */
  const Initial: PomodoroState :=
    PomodoroState(Idle, DefaultDurations.work, DefaultDurations.work, 1, false, None, None)

  const StartSql: string := "INSERT INTO pomodoro_sessions (id, todo_id) VALUES ($1, $2)"
  const CompleteSql: string :=
    "UPDATE pomodoro_sessions SET ended_at = datetime('now'), completed = 1 WHERE id = $1"

  // ---------------------------------------------------------------------
  // Display
  // ---------------------------------------------------------------------

  /** pomodoroDisplay: `Math.floor(t / 60)` and `t % 60`, each padded to two characters. */
  function Display(t: int): string {
    PadStart2(IntToString(t / 60)) + ":" + PadStart2(IntToString(JsRem(t, 60)))
  }

  /** Padding a digit string with a leading zero keeps its digits and value. */
  lemma PadKeepsValue(s: string)
    requires |s| >= 1 && forall i :: 0 <= i < |s| ==> IsDigit(s[i])
    ensures |PadStart2(s)| >= 2 && (|s| <= 2 ==> |PadStart2(s)| == 2)
    ensures forall i :: 0 <= i < |PadStart2(s)| ==> IsDigit(PadStart2(s)[i])
    ensures DigitsValue(PadStart2(s)) == DigitsValue(s)
  {
    if |s| == 1 {
      var r := PadStart2(s);
      assert r[..1] == "0";
      assert DigitsValue("0") == 0 by {
        assert "0"[..0] == [];
      }
    }
  }

  /** Digits, a colon, and two more digits. */
  predicate IsClock(r: string) {
    && |r| >= 5 && r[|r| - 3] == ':'
    && (forall i :: 0 <= i < |r| - 3 ==> IsDigit(r[i]))
    && IsDigit(r[|r| - 2]) && IsDigit(r[|r| - 1])
  }

  function Minutes(r: string): nat
    requires IsClock(r)
  {
    DigitsValue(r[..|r| - 3])
  }

  function Seconds(r: string): nat
    requires IsClock(r)
  {
    var ss := r[|r| - 2..];
    assert IsDigit(ss[0]) && IsDigit(ss[1]);
    DigitsValue(ss)
  }

  /** For a non-negative count the display is minutes, a colon, and two digits
      of seconds, which read back as that count; it is MM:SS below 100 minutes. */
  lemma DisplayReadsBack(t: int)
    requires t >= 0
    ensures IsClock(Display(t))
    ensures Minutes(Display(t)) * 60 + Seconds(Display(t)) == t && Seconds(Display(t)) < 60
    ensures t < 6000 <==> |Display(t)| == 5
  {
    var m, sec := MinutesSeconds(t);
    var mm := PadStart2(NatToString(m));
    var ss := PadStart2(NatToString(sec));
    PaddedPart(m);
    PaddedPart(sec);
    assert Display(t) == mm + ":" + ss;
    Layout(mm, ss);
    if t >= 6000 {
      MinutesWidth(m);
    }
  }

  /** One printed, padded number: at least two digits, two below a hundred, reading back as the number. */
  lemma PaddedPart(n: nat)
    ensures var p := PadStart2(NatToString(n));
            && |p| >= 2 && (n < 100 ==> |p| == 2)
            && (forall i :: 0 <= i < |p| ==> IsDigit(p[i]))
            && DigitsValue(p) == n
  {
    NatToStringValue(n);
    PadKeepsValue(NatToString(n));
  }

  /** Where the two parts sit in `mm + ":" + ss`. */
  lemma Layout(mm: string, ss: string)
    requires |ss| == 2
    ensures var r := mm + ":" + ss;
            |r| == |mm| + 3 && r[..|r| - 3] == mm && r[|r| - 3] == ':' && r[|r| - 2..] == ss
  {
  }

  /** The two numbers the display prints for a non-negative count. */
  lemma MinutesSeconds(t: int) returns (m: nat, sec: nat)
    requires t >= 0
    ensures IntToString(t / 60) == NatToString(m) && IntToString(JsRem(t, 60)) == NatToString(sec)
    ensures m * 60 + sec == t && sec < 60
    ensures t < 6000 <==> m < 100
  {
    m := t / 60;
    sec := t % 60;
  }

  /** Three or more digits print for 100 minutes and up. */
  lemma MinutesWidth(m: nat)
    requires m >= 100
    ensures |NatToString(m)| >= 3
  {
    assert NatToString(m) == NatToString(m / 10) + [DigitChar(m % 10)];
    assert |NatToString(m / 10)| >= 2 by {
      if m / 10 >= 100 {
        MinutesWidth(m / 10);
      } else {
        NatToStringValue(m / 10);
      }
    }
  }

  // ---------------------------------------------------------------------
  // The machine
  // ---------------------------------------------------------------------

  /** The store, the durations, whether the tick interval is armed, and the session log. */
  datatype Machine = Machine(state: PomodoroState, durations: Durations, armed: bool, log: seq<Statement>)

  const InitialMachine: Machine := Machine(Initial, DefaultDurations, false, [])

  function StartStatement(sessionId: string, todoId: Option<string>): Statement {
    Statement(StartSql, [Str(sessionId), OptionToJs(todoId)])
  }

  function CompleteStatement(sessionId: string): Statement {
    Statement(CompleteSql, [Str(sessionId)])
  }

  /** startPomodoro: a work phase with a new session, running, with the interval re-armed. */
  function Start(m: Machine, todoId: Option<string>, sessionId: string): (r: Machine)
    ensures r.state.phase == Work && r.state.isRunning && r.armed
    ensures r.state.timeRemaining == r.state.totalTime == m.durations.work
    ensures r.state.cycle == m.state.cycle && r.state.linkedTodoId == todoId && r.state.sessionId == Some(sessionId)
    ensures r.durations == m.durations && r.log == m.log + [StartStatement(sessionId, todoId)]
  {
    var s := m.state.(phase := Work, timeRemaining := m.durations.work, totalTime := m.durations.work,
                      isRunning := true, linkedTodoId := todoId, sessionId := Some(sessionId));
    Machine(s, m.durations, true, m.log + [StartStatement(sessionId, todoId)])
  }

  /** The transition at the end of a work phase: a long break after the fourth cycle, a short one otherwise. */
  function AfterWork(p: PomodoroState, d: Durations): (r: PomodoroState)
    ensures p.cycle >= CyclesBeforeLong ==> r.phase == LongBreak && r.timeRemaining == d.longBreak && r.cycle == 1
    ensures p.cycle < CyclesBeforeLong ==> r.phase == ShortBreak && r.timeRemaining == d.shortBreak && r.cycle == p.cycle + 1
    ensures r.timeRemaining == r.totalTime
    ensures r.isRunning == p.isRunning && r.linkedTodoId == p.linkedTodoId && r.sessionId == p.sessionId
  {
    var isLongBreak := p.cycle >= CyclesBeforeLong;
    var nextTime := if isLongBreak then d.longBreak else d.shortBreak;
    p.(phase := if isLongBreak then LongBreak else ShortBreak, timeRemaining := nextTime, totalTime := nextTime,
       cycle := if isLongBreak then 1 else p.cycle + 1)
  }

  /** handlePhaseEnd: log a completed work session, then move on to a break or back to work. */
  function PhaseEnd(m: Machine, freshId: string): Machine {
    var p := m.state;
    var logged := if p.phase == Work && p.sessionId.Some? then m.log + [CompleteStatement(p.sessionId.value)] else m.log;
    if p.phase == Work then m.(state := AfterWork(p, m.durations), log := logged)
    else Start(m.(log := logged), p.linkedTodoId, freshId)
  }

  /** tick: nothing when paused or already at zero; the phase end instead of storing zero. */
  function TickStep(m: Machine, freshId: string): Machine {
    var p := m.state;
    if !p.isRunning || p.timeRemaining <= 0 then m
    else if p.timeRemaining - 1 <= 0 then PhaseEnd(m, freshId)
    else m.(state := p.(timeRemaining := p.timeRemaining - 1))
  }

  function Pause(m: Machine): Machine {
    m.(state := m.state.(isRunning := false), armed := false)
  }

  function Resume(m: Machine): Machine {
    m.(state := m.state.(isRunning := true), armed := true)
  }

  function Reset(m: Machine): Machine {
    m.(state := Initial, armed := false)
  }

  /** `if (settings.x) POMODORO_DEFAULTS.x = settings.x`: only a given, non-zero setting overrides. */
  function Override(current: int, setting: Option<int>): int {
    if setting.Some? && setting.value != 0 then setting.value else current
  }

  /** updatePomodoroSettings: the new durations, and an idle timer showing the new work duration. */
  function UpdateSettings(m: Machine, work: Option<int>, shortBreak: Option<int>, longBreak: Option<int>): Machine {
    var d := Durations(Override(m.durations.work, work), Override(m.durations.shortBreak, shortBreak),
                       Override(m.durations.longBreak, longBreak));
    var s := if m.state.phase == Idle then m.state.(timeRemaining := d.work, totalTime := d.work) else m.state;
    m.(state := s, durations := d)
  }

  datatype Event =
    | StartEvent(todoId: Option<string>, sessionId: string)
    | TickEvent(freshId: string)
    | PauseEvent
    | ResumeEvent
    | ResetEvent
    | SettingsEvent(work: Option<int>, shortBreak: Option<int>, longBreak: Option<int>)

  /** One event; an interval that is not armed never fires. */
  function Step(m: Machine, e: Event): Machine {
    match e
    case StartEvent(todoId, sessionId) => Start(m, todoId, sessionId)
    case TickEvent(freshId) => if m.armed then TickStep(m, freshId) else m
    case PauseEvent => Pause(m)
    case ResumeEvent => Resume(m)
    case ResetEvent => Reset(m)
    case SettingsEvent(w, s, l) => UpdateSettings(m, w, s, l)
  }

  function Run(m: Machine, es: seq<Event>): Machine
    decreases |es|
  {
    if es == [] then m else Run(Step(m, es[0]), es[1..])
  }

  // ---------------------------------------------------------------------
  // Properties
  // ---------------------------------------------------------------------

  /** What every reachable machine satisfies. */
  predicate Inv(m: Machine) {
    && 1 <= m.state.cycle <= CyclesBeforeLong
    && m.armed == m.state.isRunning
    && m.state.timeRemaining != 0 && m.state.totalTime != 0
    && m.durations.work != 0 && m.durations.shortBreak != 0 && m.durations.longBreak != 0
    && (m.state.phase == Idle <==> m.state.sessionId.None?)
  }

  lemma StepKeepsInv(m: Machine, e: Event)
    requires Inv(m)
    ensures Inv(Step(m, e))
  {
  }

  /** From the initial state, every sequence of operations keeps the cycle in
      1..4, keeps the interval armed exactly while the state says running, never
      stores a zero count, and has a session exactly outside the idle phase. */
  lemma {:induction false} RunKeepsInv(m: Machine, es: seq<Event>)
    requires Inv(m)
    ensures Inv(Run(m, es))
    decreases |es|
  {
    if es != [] {
      StepKeepsInv(m, es[0]);
      RunKeepsInv(Step(m, es[0]), es[1..]);
    }
  }

  lemma Reachable(es: seq<Event>)
    ensures var m := Run(InitialMachine, es);
            && 1 <= m.state.cycle <= 4
            && m.armed == m.state.isRunning
            && m.state.timeRemaining != 0
            && (m.state.phase == Idle <==> m.state.sessionId.None?)
  {
    RunKeepsInv(InitialMachine, es);
  }

  /** tick is a no-op when not running or at zero or below, counts down by one
      while that stays positive, and otherwise ends the phase; in a reachable
      state it never stores zero. */
  lemma TickSpec(m: Machine, freshId: string)
    ensures var p := m.state;
            var r := TickStep(m, freshId);
            && (!p.isRunning || p.timeRemaining <= 0 ==> r == m)
            && (p.isRunning && p.timeRemaining > 1 ==>
                  r == m.(state := p.(timeRemaining := p.timeRemaining - 1)))
            && (p.isRunning && p.timeRemaining == 1 ==> r == PhaseEnd(m, freshId))
    ensures Inv(m) ==> TickStep(m, freshId).state.timeRemaining != 0
  {
  }

  /** The end of a work phase records the completed session, and (in a reachable
      state) there always is one to record. */
  lemma WorkEndLogs(m: Machine, freshId: string)
    requires m.state.phase == Work
    ensures var r := PhaseEnd(m, freshId);
            && r.state == AfterWork(m.state, m.durations)
            && r.durations == m.durations && r.armed == m.armed
            && (m.state.sessionId.Some? ==> r.log == m.log + [CompleteStatement(m.state.sessionId.value)])
            && (m.state.sessionId.None? ==> r.log == m.log)
    ensures Inv(m) ==> PhaseEnd(m, freshId).log == m.log + [CompleteStatement(m.state.sessionId.value)]
  {
  }

  /** The end of a break (or of a resumed idle count) starts the next work phase
      for the same todo, with the cycle it already had and a new session. */
  lemma BreakEndRestarts(m: Machine, freshId: string)
    requires m.state.phase != Work
    ensures var r := PhaseEnd(m, freshId);
            && r.state.phase == Work && r.state.isRunning && r.armed
            && r.state.timeRemaining == r.state.totalTime == m.durations.work
            && r.state.linkedTodoId == m.state.linkedTodoId
            && r.state.cycle == m.state.cycle
            && r.state.sessionId == Some(freshId)
            && r.log == m.log + [StartStatement(freshId, m.state.linkedTodoId)]
  {
  }

  /** Pause and resume change only the running flag (and the interval with it);
      resuming a paused timer gives back the running one. */
  lemma PauseResume(m: Machine)
    ensures Pause(m).state == m.state.(isRunning := false) && !Pause(m).armed
    ensures Pause(m).durations == m.durations && Pause(m).log == m.log
    ensures Resume(m).state == m.state.(isRunning := true) && Resume(m).armed
    ensures Resume(m).durations == m.durations && Resume(m).log == m.log
    ensures Pause(Pause(m)) == Pause(m)
    ensures Inv(m) && m.state.isRunning ==> Resume(Pause(m)) == m
  {
  }

  /** Reset returns to the initial state and stops the interval, keeping the
      durations: a changed work duration is not what the reset timer shows. */
  lemma ResetSpec(m: Machine)
    ensures Reset(m).state == Initial && !Reset(m).armed && Reset(m).durations == m.durations
    ensures Reset(m).state.timeRemaining == 1500 && Reset(m).state.cycle == 1 && Reset(m).state.sessionId.None?
    ensures Reset(Reset(m)) == Reset(m)
    ensures m.durations.work != 1500 ==> Reset(m).state.timeRemaining != Reset(m).durations.work
  {
  }

  /** Settings override exactly the durations given as non-zero numbers, and
      re-time the clock only when idle. */
  lemma SettingsSpec(m: Machine, work: Option<int>, shortBreak: Option<int>, longBreak: Option<int>)
    ensures var r := UpdateSettings(m, work, shortBreak, longBreak);
            && (work.Some? && work.value != 0 ==> r.durations.work == work.value)
            && (work.None? || work.value == 0 ==> r.durations.work == m.durations.work)
            && (shortBreak.Some? && shortBreak.value != 0 ==> r.durations.shortBreak == shortBreak.value)
            && (shortBreak.None? || shortBreak.value == 0 ==> r.durations.shortBreak == m.durations.shortBreak)
            && (longBreak.Some? && longBreak.value != 0 ==> r.durations.longBreak == longBreak.value)
            && (longBreak.None? || longBreak.value == 0 ==> r.durations.longBreak == m.durations.longBreak)
            && (m.state.phase == Idle ==> r.state == m.state.(timeRemaining := r.durations.work, totalTime := r.durations.work))
            && (m.state.phase != Idle ==> r.state == m.state)
            && r.armed == m.armed && r.log == m.log
  {
  }

  /** Four work phases make a round: from cycle 1, ending work and break
      alternately brings the long break after the fourth work phase. */
  lemma {:induction false} LongBreakAfterFour(m: Machine, ids: seq<string>)
    requires Inv(m) && m.state.phase == Work && m.state.cycle == 1
    requires |ids| == 7
    ensures var r := EndPhases(m, ids);
            && r.state.phase == LongBreak && r.state.cycle == 1
            && r.state.timeRemaining == m.durations.longBreak
  {
    var m1 := PhaseEnd(m, ids[0]);
    assert m1.state.phase == ShortBreak && m1.state.cycle == 2;
    var m2 := PhaseEnd(m1, ids[1]);
    assert m2.state.phase == Work && m2.state.cycle == 2;
    var m3 := PhaseEnd(m2, ids[2]);
    assert m3.state.phase == ShortBreak && m3.state.cycle == 3;
    var m4 := PhaseEnd(m3, ids[3]);
    var m5 := PhaseEnd(m4, ids[4]);
    assert m5.state.phase == ShortBreak && m5.state.cycle == 4;
    var m6 := PhaseEnd(m5, ids[5]);
    var m7 := PhaseEnd(m6, ids[6]);
    EndPhasesUnfold(m, ids);
  }

  /** Successive phase ends, each with its fresh id. */
  function EndPhases(m: Machine, ids: seq<string>): Machine
    decreases |ids|
  {
    if ids == [] then m else EndPhases(PhaseEnd(m, ids[0]), ids[1..])
  }

  lemma EndPhasesUnfold(m: Machine, ids: seq<string>)
    requires |ids| == 7
    ensures EndPhases(m, ids) ==
      PhaseEnd(PhaseEnd(PhaseEnd(PhaseEnd(PhaseEnd(PhaseEnd(PhaseEnd(m, ids[0]), ids[1]), ids[2]), ids[3]), ids[4]), ids[5]), ids[6])
  {
    var m1 := PhaseEnd(m, ids[0]);
    var m2 := PhaseEnd(m1, ids[1]);
    var m3 := PhaseEnd(m2, ids[2]);
    var m4 := PhaseEnd(m3, ids[3]);
    var m5 := PhaseEnd(m4, ids[4]);
    var m6 := PhaseEnd(m5, ids[5]);
    var m7 := PhaseEnd(m6, ids[6]);
    assert EndPhases(m6, ids[6..]) == m7 by {
      assert ids[6..][1..] == [];
    }
    assert EndPhases(m5, ids[5..]) == EndPhases(m6, ids[6..]) by { assert ids[5..][1..] == ids[6..]; }
    assert EndPhases(m4, ids[4..]) == EndPhases(m5, ids[5..]) by { assert ids[4..][1..] == ids[5..]; }
    assert EndPhases(m3, ids[3..]) == EndPhases(m4, ids[4..]) by { assert ids[3..][1..] == ids[4..]; }
    assert EndPhases(m2, ids[2..]) == EndPhases(m3, ids[3..]) by { assert ids[2..][1..] == ids[3..]; }
    assert EndPhases(m1, ids[1..]) == EndPhases(m2, ids[2..]) by { assert ids[1..][1..] == ids[2..]; }
  }

  // ---------------------------------------------------------------------
  // The store
  // ---------------------------------------------------------------------

  /** The `pomodoro` store, POMODORO_DEFAULTS, the `interval` handle (armed or
      cleared) and the statements sent to the database. */
  class PomodoroTimer {
    var state: PomodoroState
    var durations: Durations
    var interval: bool
    var log: seq<Statement>

    function Current(): Machine
      reads this
    {
      Machine(state, durations, interval, log)
    }

    constructor ()
      ensures Current() == InitialMachine
    {
      state := Initial;
      durations := DefaultDurations;
      interval := false;
      log := [];
    }

    /** The pomodoroDisplay derived store. */
    function DisplayText(): string
      reads this
    {
      Display(state.timeRemaining)
    }

    method StartPomodoro(todoId: Option<string>, sessionId: string)
      modifies this
      ensures Current() == Start(old(Current()), todoId, sessionId)
    {
      state := state.(phase := Work, timeRemaining := durations.work, totalTime := durations.work,
                      isRunning := true, linkedTodoId := todoId, sessionId := Some(sessionId));
      log := log + [Statement(StartSql, [Str(sessionId), OptionToJs(todoId)])];
      interval := true;
    }

    method HandlePhaseEnd(freshId: string)
      modifies this
      ensures Current() == PhaseEnd(old(Current()), freshId)
    {
      var p := state;
      if p.phase == Work && p.sessionId.Some? {
        log := log + [Statement(CompleteSql, [Str(p.sessionId.value)])];
      }
      if p.phase == Work {
        var isLongBreak := p.cycle >= CyclesBeforeLong;
        var nextTime := if isLongBreak then durations.longBreak else durations.shortBreak;
        state := p.(phase := if isLongBreak then LongBreak else ShortBreak, timeRemaining := nextTime,
                    totalTime := nextTime, cycle := if isLongBreak then 1 else p.cycle + 1);
      } else {
        StartPomodoro(p.linkedTodoId, freshId);
      }
    }

    /** One firing of the interval. */
    method Tick(freshId: string)
      requires interval
      modifies this
      ensures Current() == TickStep(old(Current()), freshId)
    {
      if !state.isRunning || state.timeRemaining <= 0 {
        return;
      }
      var remaining := state.timeRemaining - 1;
      if remaining <= 0 {
        HandlePhaseEnd(freshId);
        return;
      }
      state := state.(timeRemaining := remaining);
    }

    method PausePomodoro()
      modifies this
      ensures Current() == Pause(old(Current()))
    {
      interval := false;
      state := state.(isRunning := false);
    }

    method ResumePomodoro()
      modifies this
      ensures Current() == Resume(old(Current()))
    {
      state := state.(isRunning := true);
      interval := true;
    }

    method ResetPomodoro()
      modifies this
      ensures Current() == Reset(old(Current()))
    {
      interval := false;
      state := Initial;
    }

    method UpdatePomodoroSettings(work: Option<int>, shortBreak: Option<int>, longBreak: Option<int>)
      modifies this
      ensures Current() == UpdateSettings(old(Current()), work, shortBreak, longBreak)
    {
      if work.Some? && work.value != 0 {
        durations := durations.(work := work.value);
      }
      if shortBreak.Some? && shortBreak.value != 0 {
        durations := durations.(shortBreak := shortBreak.value);
      }
      if longBreak.Some? && longBreak.value != 0 {
        durations := durations.(longBreak := longBreak.value);
      }
      if state.phase == Idle {
        state := state.(timeRemaining := durations.work, totalTime := durations.work);
      }
    }
  }
}
