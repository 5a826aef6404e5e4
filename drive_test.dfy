/**
  The scripted drive test: four timed steps (forward, neutral, reverse,
  neutral), each issuing one `Tank_SetTarget(l, r)` when it begins. A step
  ends once the wrapping millisecond clock shows its duration has passed
  since the step began; after the last one the targets go to zero and the
  test stops. The tick source is a parameter and the target calls are
  returned as commands.
 */
module DriveTest {
  import opened Ints

  /** One entry of `DT_SCRIPT`. */
  datatype Step = Step(left: i8, right: i8, durMs: u32)

  /** A `Tank_SetTarget(left, right)` call. */
  datatype Cmd = Cmd(left: int, right: int)

  const Script: seq<Step> := [Step(50, 50, 3000), Step(0, 0, 600), Step(-50, -50, 3000), Step(0, 0, 300)]
  const Len: nat := 4

  /** `s_idx`, `s_t0`, `s_running`. */
  datatype State = State(idx: nat, t0: u32, running: bool)

  /** The script index never passes the end, and while running it names a step. */
  predicate Valid(s: State)
  {
    s.idx <= Len && (s.running ==> s.idx < Len)
  }

  function StepCmd(i: nat): Cmd
    requires i < Len
  {
    Cmd(Script[i].left, Script[i].right)
  }

  /** `DriveTest_Start`: step 0 from `now`, and its target (+50 %, +50 %) is issued. */
  function Started(now: u32): (r: (State, Cmd))
    ensures Valid(r.0) && r.0.running && r.0.idx == 0 && r.0.t0 == now
    ensures r.1 == Cmd(50, 50)
  {
    (State(0, now, true), StepCmd(0))
  }

  /**
    `DriveTest_Tick` at time `now`: nothing when stopped or while the
    current step's duration has not elapsed; otherwise the next step begins
    at `now` and issues its target, or, after the last step, the targets go
    to zero and the test stops.
   */
  function Next(s: State, now: u32): (r: (State, Option<Cmd>))
    requires Valid(s)
    ensures Valid(r.0)
    ensures !s.running || !Due(now, s.t0, Script[s.idx].durMs) ==> r == (s, None)
    ensures s.running && Due(now, s.t0, Script[s.idx].durMs) ==>
              r.0.idx == s.idx + 1 && r.0.t0 == now && r.1.Some?
    ensures r.0.running && r.1.Some? ==> r.1.value == StepCmd(r.0.idx)
    ensures s.running && !r.0.running ==> r.0.idx == Len && r.1 == Some(Cmd(0, 0))
  {
    if !s.running then (s, None)
    else if Sub32(now, s.t0) >= Script[s.idx].durMs then
      var i := s.idx + 1;
      if i < Len then (State(i, now, true), Some(StepCmd(i)))
      else (State(i, now, false), Some(Cmd(0, 0)))
    else (s, None)
  }

  /** The commands one tick issues: none or one. */
  function Issued(c: Option<Cmd>): seq<Cmd>
  {
    if c.Some? then [c.value] else []
  }

  /** Ticks at the given times, one after another, with the commands they issue in order. */
  function Run(s: State, times: seq<u32>): (r: (State, seq<Cmd>))
    requires Valid(s)
    ensures Valid(r.0)
    decreases |times|
  {
    if |times| == 0 then (s, [])
    else
      var n := Next(s, times[0]);
      var rest := Run(n.0, times[1..]);
      (rest.0, Issued(n.1) + rest.1)
  }

  /**
    Every command a run issues comes with exactly one step advance, so a
    run issues as many commands as steps it advanced, never more than the
    script has left, and never moves backwards.
   */
  lemma {:induction false} OneCommandPerStep(s: State, times: seq<u32>)
    requires Valid(s)
    ensures s.idx <= Run(s, times).0.idx <= Len
    ensures |Run(s, times).1| == Run(s, times).0.idx - s.idx
    decreases |times|
  {
    if |times| > 0 {
      OneCommandPerStep(Next(s, times[0]).0, times[1..]);
    }
  }

  /** A stopped test ignores every later tick. */
  lemma {:induction false} StoppedStaysStopped(s: State, times: seq<u32>)
    requires Valid(s) && !s.running
    ensures Run(s, times) == (s, [])
    decreases |times|
  {
    if |times| > 0 {
      assert Next(s, times[0]) == (s, None);
      StoppedStaysStopped(s, times[1..]);
      assert Run(s, times).1 == [] + [];
    }
  }

  /**
    Ticking exactly when each step's time is up (3000, 600, 3000 and 300 ms
    apart) plays the whole script: neutral, reverse 50 %, neutral, and the
    final zero targets, and the test stops at that last tick, 6900 ms after
    the start, however the clock wraps.
   */
  lemma {:induction false} WholeScript(t: u32)
    ensures var times := [Add32(t, 3000), Add32(t, 3600), Add32(t, 6600), Add32(t, 6900)];
            Run(Started(t).0, times) == (State(4, Add32(t, 6900), false), [Cmd(0, 0), Cmd(-50, -50), Cmd(0, 0), Cmd(0, 0)])
  {
    var times := [Add32(t, 3000), Add32(t, 3600), Add32(t, 6600), Add32(t, 6900)];
    ElapsedBetween(t, 0, 3000);
    assert Add32(t, 0) == t;
    ElapsedBetween(t, 3000, 3600);
    ElapsedBetween(t, 3600, 6600);
    ElapsedBetween(t, 6600, 6900);
    var s0 := Started(t).0;
    var s1 := State(1, times[0], true);
    var s2 := State(2, times[1], true);
    var s3 := State(3, times[2], true);
    var s4 := State(4, times[3], false);
    assert Next(s0, times[0]) == (s1, Some(Cmd(0, 0)));
    assert Next(s1, times[1]) == (s2, Some(Cmd(-50, -50)));
    assert Next(s2, times[2]) == (s3, Some(Cmd(0, 0)));
    assert Next(s3, times[3]) == (s4, Some(Cmd(0, 0)));
    assert times[3..][1..] == [];
    assert Run(s3, times[3..]).1 == [Cmd(0, 0)] + [];
    assert times[2..][1..] == times[3..];
    assert Run(s2, times[2..]).1 == [Cmd(0, 0)] + [Cmd(0, 0)];
    assert times[1..][1..] == times[2..];
    assert Run(s1, times[1..]).1 == [Cmd(-50, -50)] + [Cmd(0, 0), Cmd(0, 0)];
    assert Run(s0, times).1 == [Cmd(0, 0)] + [Cmd(-50, -50), Cmd(0, 0), Cmd(0, 0)];
    assert Run(s0, times).1 == [Cmd(0, 0), Cmd(-50, -50), Cmd(0, 0), Cmd(0, 0)];
    assert Run(s0, times).0 == s4;
  }

  /** The drive test's static state and the targets it has issued. */
  class Test {
    var idx: nat
    var t0: u32
    var running: bool
    ghost var issued: seq<Cmd>

    function Snapshot(): State
      reads this
    {
      State(idx, t0, running)
    }

    constructor ()
      ensures Snapshot() == State(0, 0, false) && issued == []
    {
      idx, t0, running := 0, 0, false;
      issued := [];
    }

    /** `DriveTest_Start`. */
    method Start(now: u32)
      modifies this
      ensures Snapshot() == Started(now).0 && issued == old(issued) + [Started(now).1]
    {
      idx := 0;
      running := true;
      t0 := now;
      issued := issued + [StepCmd(idx)];
    }

    /** `DriveTest_Tick`. */
    method Tick(now: u32)
      requires Valid(Snapshot())
      modifies this
      ensures Valid(Snapshot())
      ensures Snapshot() == Next(old(Snapshot()), now).0
      ensures issued == old(issued) + Issued(Next(old(Snapshot()), now).1)
    {
      if !running {
        return;
      }
      if Sub32(now, t0) >= Script[idx].durMs {
        idx := idx + 1;
        t0 := now;
        if idx < Len {
          issued := issued + [StepCmd(idx)];
        } else {
          issued := issued + [Cmd(0, 0)];
          running := false;
        }
      }
    }

    /** `DriveTest_IsRunning`. */
    function IsRunning(): (r: bool)
      reads this
      ensures r == Snapshot().running
    {
      running
    }
  }
}
