/**
  The timed tank-drive manoeuvre test: forward, a left turn in place, a
  right turn in place, a short stop, a spin of about 180 degrees and a
  final stop. Every tick while it runs re-issues its phase's speed command
  (a keep-alive for the drive's dead-man timer) and moves to the next phase
  once the wrapping millisecond clock shows the phase's time has passed.
  The tick source is a parameter and the `Tank_SetSpeed` calls are
  returned as commands.
 */
module TankTest {
  import opened Ints

  const DefaultFwdMs: u32 := 3000
  const DefaultLeftMs: u32 := 2000
  const DefaultRightMs: u32 := 2000
  const DefaultSpinMs: u32 := 1500
  const Stop1Ms: u32 := 200
  const Stop2Ms: u32 := 300

  /** `tt_state_t`. */
  datatype Phase = Idle | Fwd | Left | Right | Stop1 | Spin180 | Stop2 | Done

  /** The order in which phases are visited. */
  function Rank(p: Phase): nat
  {
    match p
    case Idle => 0
    case Fwd => 1
    case Left => 2
    case Right => 3
    case Stop1 => 4
    case Spin180 => 5
    case Stop2 => 6
    case Done => 7
  }

  /** A `Tank_SetSpeed(left, right)` call. */
  datatype Cmd = Cmd(left: int, right: int)

  /** The test's static state `tt`. */
  datatype State = State(running: bool, phase: Phase, fwdSpeed: int, turnSpeed: int, t0: u32,
                         fwdMs: u32, leftMs: u32, rightMs: u32, spinMs: u32)

  /** The zeroed state before the first start. */
  const Zero: State := State(false, Idle, 0, 0, 0, 0, 0, 0, 0)

  /** The stored speeds are within the drive's percent range. */
  predicate Valid(s: State)
  {
    -100 <= s.fwdSpeed <= 100 && 0 <= s.turnSpeed <= 100
  }

  /**
    `TankTest_Start`: the forward speed clamped to -100..100, the turn speed
    to at most 100, each zero duration replaced by its default, and the
    forward phase begun at `now`.
   */
  function Started(fwd: i8, turn: u8, fwdT: u32, leftT: u32, rightT: u32, spinT: u32, now: u32): (s: State)
    ensures Valid(s) && s.running && s.phase == Fwd && s.t0 == now
    ensures s.fwdSpeed == Clamp(fwd, -100, 100) && s.turnSpeed == Min(turn, 100)
    ensures s.fwdMs == (if fwdT == 0 then DefaultFwdMs else fwdT)
    ensures s.leftMs == (if leftT == 0 then DefaultLeftMs else leftT)
    ensures s.rightMs == (if rightT == 0 then DefaultRightMs else rightT)
    ensures s.spinMs == (if spinT == 0 then DefaultSpinMs else spinT)
    ensures s.fwdMs > 0 && s.leftMs > 0 && s.rightMs > 0 && s.spinMs > 0
  {
    State(true, Fwd, Clamp(fwd, -100, 100), Min(turn, 100), now,
          OrDefault(fwdT, DefaultFwdMs), OrDefault(leftT, DefaultLeftMs),
          OrDefault(rightT, DefaultRightMs), OrDefault(spinT, DefaultSpinMs))
  }

  /** A duration argument of 0 selects the default. */
  function OrDefault(t: u32, d: u32): (r: u32)
    ensures t == 0 ==> r == d
    ensures t != 0 ==> r == t
  {
    if t == 0 then d else t
  }

  /** What each phase commands: straight ahead, turn left, turn right, stop, spin left, stop. */
  function PhaseCmd(s: State): (c: Cmd)
    requires Valid(s)
    ensures -100 <= c.left <= 100 && -100 <= c.right <= 100
    ensures s.phase == Fwd ==> c.left == c.right == s.fwdSpeed
    ensures s.phase == Left || s.phase == Spin180 ==> c.left == -s.turnSpeed && c.right == s.turnSpeed
    ensures s.phase == Right ==> c.left == s.turnSpeed && c.right == -s.turnSpeed
    ensures s.phase == Idle || s.phase == Stop1 || s.phase == Stop2 || s.phase == Done ==> c == Cmd(0, 0)
  {
    match s.phase
    case Fwd => Cmd(s.fwdSpeed, s.fwdSpeed)
    case Left => Cmd(-s.turnSpeed, s.turnSpeed)
    case Right => Cmd(s.turnSpeed, -s.turnSpeed)
    case Spin180 => Cmd(-s.turnSpeed, s.turnSpeed)
    case _ => Cmd(0, 0)
  }

  /** The phases that end when their time is up: all but `Idle` and `Done`. */
  predicate Timed(p: Phase)
  {
    p != Idle && p != Done
  }

  /** How long a phase lasts; the two stops have fixed lengths. */
  function PhaseMs(s: State): u32
  {
    match s.phase
    case Fwd => s.fwdMs
    case Left => s.leftMs
    case Right => s.rightMs
    case Stop1 => Stop1Ms
    case Spin180 => s.spinMs
    case _ => Stop2Ms
  }

  function Successor(p: Phase): Phase
  {
    match p
    case Fwd => Left
    case Left => Right
    case Right => Stop1
    case Stop1 => Spin180
    case Spin180 => Stop2
    case _ => Done
  }

  /**
    `TankTest_Tick` at time `now`: nothing when stopped. Otherwise the
    phase's command is issued, and once the phase's time has elapsed the
    next phase begins (stamped at `now`; the final stop passes to `Done`
    without a new stamp). In `Done`, or an unknown phase, the test stops
    and commands a stop.
   */
  function Next(s: State, now: u32): (r: (State, seq<Cmd>))
    requires Valid(s)
    ensures Valid(r.0)
    ensures !s.running ==> r == (s, [])
    ensures s.running ==> r.1 == [PhaseCmd(s)]
    ensures Rank(s.phase) <= Rank(r.0.phase) <= Rank(s.phase) + 1
    ensures s.running && Timed(s.phase) ==>
              (r.0.phase == Successor(s.phase) <==> Due(now, s.t0, PhaseMs(s))) && r.0.running
    ensures s.running && !Timed(s.phase) ==> !r.0.running && r.0.phase == s.phase
    ensures r.0.phase != s.phase && s.phase != Stop2 ==> r.0.t0 == now
    ensures r.0.phase == s.phase || s.phase == Stop2 ==> r.0.t0 == s.t0
    ensures r.0.fwdSpeed == s.fwdSpeed && r.0.turnSpeed == s.turnSpeed
    ensures r.0.fwdMs == s.fwdMs && r.0.leftMs == s.leftMs && r.0.rightMs == s.rightMs && r.0.spinMs == s.spinMs
  {
    if !s.running then (s, [])
    else
      var c := PhaseCmd(s);
      if s.phase == Idle || s.phase == Done then (s.(running := false), [c])
      else if Sub32(now, s.t0) >= PhaseMs(s) then
        if s.phase == Stop2 then (s.(phase := Done), [c])
        else (s.(phase := Successor(s.phase), t0 := now), [c])
      else (s, [c])
  }

  /** `TankTest_Abort`: stopped, in `Done`, with a stop command. */
  function Aborted(s: State): (r: (State, Cmd))
    ensures !r.0.running && r.0.phase == Done && r.1 == Cmd(0, 0)
    ensures r.0 == s.(running := false, phase := Done)
  {
    (s.(running := false, phase := Done), Cmd(0, 0))
  }

  /** Ticks at the given times, one after another, with the commands they issue in order. */
  function Run(s: State, times: seq<u32>): (r: (State, seq<Cmd>))
    requires Valid(s)
    ensures Valid(r.0)
    decreases |times|
  {
    if |times| == 0 then (s, [])
    else
      var n := Next(s, times[0]);
      var rest := Run(n.0, times[1..]);
      (rest.0, n.1 + rest.1)
  }

  /** A stopped test, after an abort or at its end, ignores every later tick. */
  lemma {:induction false} StoppedStaysStopped(s: State, times: seq<u32>)
    requires Valid(s) && !s.running
    ensures Run(s, times) == (s, [])
    decreases |times|
  {
    if |times| > 0 {
      assert Next(s, times[0]) == (s, []);
      StoppedStaysStopped(s, times[1..]);
      assert Run(s, times).1 == [] + [];
    }
  }

  /** A tick exactly when a phase's time runs out moves to the next phase, stamped at that tick. */
  lemma PhaseEnds(s: State, t: u32, a: nat, b: nat)
    requires Valid(s) && s.running && Timed(s.phase) && s.phase != Stop2
    requires a <= b < U32 && s.t0 == Add32(t, a) && PhaseMs(s) == b - a
    ensures Next(s, Add32(t, b)) == (s.(phase := Successor(s.phase), t0 := Add32(t, b)), [PhaseCmd(s)])
  {
    ElapsedBetween(t, a, b);
  }

  /** One tick, then the rest of the run. */
  lemma RunStep(s: State, times: seq<u32>, s1: State, c: seq<Cmd>, s2: State, cs: seq<Cmd>)
    requires Valid(s) && |times| > 0 && Next(s, times[0]) == (s1, c)
    requires Run(s1, times[1..]) == (s2, cs)
    ensures Run(s, times) == (s2, c + cs)
  {
  }

  /**
    With every duration left at its default, ticking exactly as each phase
    runs out (3000, 2000, 2000, 200, 1500 and 300 ms apart) and once more
    plays the whole manoeuvre and stops: forward, left, right, stop, spin,
    stop, and the final stop command.
   */
  lemma {:induction false} WholeManoeuvre(fwd: i8, turn: u8, t: u32, later: u32)
    ensures var s := Started(fwd, turn, 0, 0, 0, 0, t);
            var f := s.fwdSpeed;
            var v := s.turnSpeed;
            var times := [Add32(t, 3000), Add32(t, 5000), Add32(t, 7000), Add32(t, 7200), Add32(t, 8700), Add32(t, 9000), later];
            var r := Run(s, times);
            !r.0.running && r.0.phase == Done &&
            r.1 == [Cmd(f, f), Cmd(-v, v), Cmd(v, -v), Cmd(0, 0), Cmd(-v, v), Cmd(0, 0), Cmd(0, 0)]
  {
    var s0 := Started(fwd, turn, 0, 0, 0, 0, t);
    var f := s0.fwdSpeed;
    var v := s0.turnSpeed;
    var rest := [Add32(t, 7200), Add32(t, 8700), Add32(t, 9000), later];
    var times := [Add32(t, 3000), Add32(t, 5000), Add32(t, 7000)] + rest;
    var s3 := OpeningStretch(s0, t, rest);
    var s7 := FinalStretch(s3, t, later);
    assert times == [Add32(t, 3000), Add32(t, 5000), Add32(t, 7000), Add32(t, 7200), Add32(t, 8700), Add32(t, 9000), later];
    assert Run(s0, times) == (s7, [Cmd(f, f), Cmd(-v, v), Cmd(v, -v)] + [Cmd(0, 0), Cmd(-v, v), Cmd(0, 0), Cmd(0, 0)]);
    assert [Cmd(f, f), Cmd(-v, v), Cmd(v, -v)] + [Cmd(0, 0), Cmd(-v, v), Cmd(0, 0), Cmd(0, 0)]
        == [Cmd(f, f), Cmd(-v, v), Cmd(v, -v), Cmd(0, 0), Cmd(-v, v), Cmd(0, 0), Cmd(0, 0)];
  }

  /**
    The first half of the manoeuvre: from the forward phase begun at `t`,
    ticks at `t + 3000`, `t + 5000` and `t + 7000` end the forward run and
    the two turns, issuing their commands, and begin the first stop; the
    later ticks `rest` then run from there.
   */
  lemma {:induction false} OpeningStretch(s0: State, t: u32, rest: seq<u32>) returns (s3: State)
    requires Valid(s0) && s0.running && s0.phase == Fwd && s0.t0 == t
    requires s0.fwdMs == 3000 && s0.leftMs == 2000 && s0.rightMs == 2000
    ensures s3 == s0.(phase := Stop1, t0 := Add32(t, 7000))
    ensures var f, v := s0.fwdSpeed, s0.turnSpeed;
            Run(s0, [Add32(t, 3000), Add32(t, 5000), Add32(t, 7000)] + rest) ==
            (Run(s3, rest).0, [Cmd(f, f), Cmd(-v, v), Cmd(v, -v)] + Run(s3, rest).1)
  {
    var f := s0.fwdSpeed;
    var v := s0.turnSpeed;
    var times := [Add32(t, 3000), Add32(t, 5000), Add32(t, 7000)] + rest;
    assert Add32(t, 0) == t;
    var s1 := s0.(phase := Left, t0 := times[0]);
    var s2 := s1.(phase := Right, t0 := times[1]);
    s3 := s2.(phase := Stop1, t0 := times[2]);
    PhaseEnds(s0, t, 0, 3000);
    PhaseEnds(s1, t, 3000, 5000);
    PhaseEnds(s2, t, 5000, 7000);
    var tail := Run(s3, rest);
    assert times[2..][1..] == rest;
    RunStep(s2, times[2..], s3, [Cmd(v, -v)], tail.0, tail.1);
    assert times[1..][1..] == times[2..];
    RunStep(s1, times[1..], s2, [Cmd(-v, v)], tail.0, [Cmd(v, -v)] + tail.1);
    RunStep(s0, times, s1, [Cmd(f, f)], tail.0, [Cmd(-v, v)] + ([Cmd(v, -v)] + tail.1));
    assert [Cmd(f, f)] + ([Cmd(-v, v)] + ([Cmd(v, -v)] + tail.1)) == [Cmd(f, f), Cmd(-v, v), Cmd(v, -v)] + tail.1;
  }

  /**
    The second half of the manoeuvre: from the first stop begun at `t + 7000`,
    ticks at `t + 7200`, `t + 8700` and `t + 9000` and once more end the
    stop, the spin and the final stop, then stop the test.
   */
  lemma {:induction false} FinalStretch(s3: State, t: u32, later: u32) returns (s7: State)
    requires Valid(s3) && s3.running && s3.phase == Stop1 && s3.t0 == Add32(t, 7000) && s3.spinMs == 1500
    ensures !s7.running && s7.phase == Done
    ensures Run(s3, [Add32(t, 7200), Add32(t, 8700), Add32(t, 9000), later]) ==
            (s7, [Cmd(0, 0), Cmd(-s3.turnSpeed, s3.turnSpeed), Cmd(0, 0), Cmd(0, 0)])
  {
    var v := s3.turnSpeed;
    var times := [Add32(t, 7200), Add32(t, 8700), Add32(t, 9000), later];
    var s4 := s3.(phase := Spin180, t0 := times[0]);
    var s5 := s4.(phase := Stop2, t0 := times[1]);
    var s6 := s5.(phase := Done);
    s7 := s6.(running := false);
    PhaseEnds(s3, t, 7000, 7200);
    PhaseEnds(s4, t, 7200, 8700);
    ElapsedBetween(t, 8700, 9000);
    assert Next(s5, times[2]) == (s6, [Cmd(0, 0)]);
    assert Next(s6, times[3]) == (s7, [Cmd(0, 0)]);
    RunStep(s6, times[3..], s7, [Cmd(0, 0)], s7, []);
    assert times[2..][1..] == times[3..];
    RunStep(s5, times[2..], s6, [Cmd(0, 0)], s7, [Cmd(0, 0)] + []);
    assert times[1..][1..] == times[2..];
    RunStep(s4, times[1..], s5, [Cmd(-v, v)], s7, [Cmd(0, 0)] + ([Cmd(0, 0)] + []));
    RunStep(s3, times, s4, [Cmd(0, 0)], s7, [Cmd(-v, v)] + ([Cmd(0, 0)] + ([Cmd(0, 0)] + [])));
    assert [Cmd(0, 0)] + ([Cmd(-v, v)] + ([Cmd(0, 0)] + ([Cmd(0, 0)] + []))) == [Cmd(0, 0), Cmd(-v, v), Cmd(0, 0), Cmd(0, 0)];
  }

  /** The test's static state and the speed commands it has issued. */
  class Test {
    var running: bool
    var phase: Phase
    var fwdSpeed: int
    var turnSpeed: int
    var t0: u32
    var fwdMs: u32
    var leftMs: u32
    var rightMs: u32
    var spinMs: u32
    ghost var issued: seq<Cmd>

    function Snapshot(): State
      reads this
    {
      State(running, phase, fwdSpeed, turnSpeed, t0, fwdMs, leftMs, rightMs, spinMs)
    }

    constructor ()
      ensures Snapshot() == Zero && issued == []
    {
      running, phase, fwdSpeed, turnSpeed, t0 := false, Idle, 0, 0, 0;
      fwdMs, leftMs, rightMs, spinMs := 0, 0, 0, 0;
      issued := [];
    }

    /** `tt_phase`: enter a phase and stamp its start. */
    method EnterPhase(p: Phase, now: u32)
      modifies this`phase, this`t0
      ensures phase == p && t0 == now
    {
      phase := p;
      t0 := now;
    }

    /** `TankTest_Start`. */
    method Start(fwd: i8, turn: u8, fwdT: u32, leftT: u32, rightT: u32, spinT: u32, now: u32)
      modifies this
      ensures Snapshot() == Started(fwd, turn, fwdT, leftT, rightT, spinT, now) && issued == old(issued)
    {
      running, phase, fwdSpeed, turnSpeed, t0 := false, Idle, 0, 0, 0;
      fwdMs, leftMs, rightMs, spinMs := 0, 0, 0, 0;
      running := true;
      fwdSpeed := Clamp(fwd, -100, 100);
      turnSpeed := Min(turn, 100);
      fwdMs := OrDefault(fwdT, DefaultFwdMs);
      leftMs := OrDefault(leftT, DefaultLeftMs);
      rightMs := OrDefault(rightT, DefaultRightMs);
      spinMs := OrDefault(spinT, DefaultSpinMs);
      EnterPhase(Fwd, now);
    }

    /** `TankTest_Tick`. */
    method Tick(now: u32)
      requires Valid(Snapshot())
      modifies this
      ensures Valid(Snapshot())
      ensures Snapshot() == Next(old(Snapshot()), now).0
      ensures issued == old(issued) + Next(old(Snapshot()), now).1
    {
      if !running {
        return;
      }
      match phase
      case Fwd =>
        KeepAlive(Cmd(fwdSpeed, fwdSpeed), fwdMs, Left, now);
      case Left =>
        var v := turnSpeed;
        KeepAlive(Cmd(-v, v), leftMs, Right, now);
      case Right =>
        var v := turnSpeed;
        KeepAlive(Cmd(v, -v), rightMs, Stop1, now);
      case Stop1 =>
        KeepAlive(Cmd(0, 0), Stop1Ms, Spin180, now);
      case Spin180 =>
        var v := turnSpeed;
        KeepAlive(Cmd(-v, v), spinMs, Stop2, now);
      case Stop2 =>
        issued := issued + [Cmd(0, 0)];
        if Sub32(now, t0) >= Stop2Ms {
          phase := Done;
        }
      case _ =>
        running := false;
        issued := issued + [Cmd(0, 0)];
    }

    /**
      One timed phase of `TankTest_Tick`: re-issue the phase's command, and
      once `ms` have elapsed since the phase began, enter phase `next`.
     */
    method KeepAlive(c: Cmd, ms: u32, next: Phase, now: u32)
      modifies this`issued, this`phase, this`t0
      ensures issued == old(issued) + [c]
      ensures Sub32(now, old(t0)) >= ms ==> phase == next && t0 == now
      ensures Sub32(now, old(t0)) < ms ==> phase == old(phase) && t0 == old(t0)
    {
      issued := issued + [c];
      if Sub32(now, t0) >= ms {
        EnterPhase(next, now);
      }
    }

    /** `TankTest_IsRunning`. */
    function IsRunning(): (r: bool)
      reads this
      ensures r == Snapshot().running
    {
      running
    }

    /** `TankTest_Abort`. */
    method Abort()
      modifies this`running, this`phase, this`issued
      ensures Snapshot() == Aborted(old(Snapshot())).0
      ensures issued == old(issued) + [Aborted(old(Snapshot())).1]
    {
      running := false;
      phase := Done;
      issued := issued + [Cmd(0, 0)];
    }
  }
}
