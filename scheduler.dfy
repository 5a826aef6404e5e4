/**
  The cooperative main-loop dispatchers. Every pass reads the millisecond
  tick once and checks four periodic tasks in a fixed order (drive,
  sensors, display, serial panel). A task runs when the wrapping elapsed
  time since its stamp has reached its period, and its stamp then becomes
  that pass's `now`: lateness is not caught up, and after start-up every
  task first runs one full period after the common seed. The task bodies
  are recorded as events; sensor reads are inputs of the pass.
 */
module Scheduler {
  import opened Ints
  import opened LunaFilter
  import opened Tcs

  datatype Task = DriveTask | SensorTask | OledTask | UartTask

  /** The fixed order in which a pass checks the tasks. */
  function Rank(k: Task): nat
  {
    match k
    case DriveTask => 0
    case SensorTask => 1
    case OledTask => 2
    case UartTask => 3
  }

  /** The four task stamps (`tTank`, `tSens`, `tOLED`, `tUART`). */
  datatype Stamps = Stamps(drive: u32, sensors: u32, oled: u32, uart: u32)

  /** The four task periods in milliseconds. */
  datatype Periods = Periods(drive: int, sensors: int, oled: int, uart: int)

  /** The periods of the application loop: the drive's configured tick, then 100, 200 and 200 ms. */
  function AppPeriods(tickMs: u16): Periods
  {
    Periods(tickMs, 100, 200, 200)
  }

  function StampOf(st: Stamps, k: Task): u32
  {
    match k
    case DriveTask => st.drive
    case SensorTask => st.sensors
    case OledTask => st.oled
    case UartTask => st.uart
  }

  function PeriodOf(p: Periods, k: Task): int
  {
    match k
    case DriveTask => p.drive
    case SensorTask => p.sensors
    case OledTask => p.oled
    case UartTask => p.uart
  }

  predicate IsDue(st: Stamps, p: Periods, now: u32, k: Task)
  {
    Due(now, StampOf(st, k), PeriodOf(p, k))
  }

  /** `App_Init`'s seeding: every stamp the same tick. */
  function Seed(now: u32): (st: Stamps)
    ensures forall k :: StampOf(st, k) == now
  {
    Stamps(now, now, now, now)
  }

  /**
    The tasks one pass runs: exactly the due ones, each once, in the fixed
    order drive, sensors, display, serial.
   */
  function DueTasks(st: Stamps, p: Periods, now: u32): (ts: seq<Task>)
    ensures forall k :: k in ts <==> IsDue(st, p, now, k)
    ensures forall i, j :: 0 <= i < j < |ts| ==> Rank(ts[i]) < Rank(ts[j])
  {
    Piece(st, p, now, DriveTask) + Piece(st, p, now, SensorTask) +
    Piece(st, p, now, OledTask) + Piece(st, p, now, UartTask)
  }

  /** The one check of a pass for task `k`. */
  function Piece(st: Stamps, p: Periods, now: u32, k: Task): seq<Task>
  {
    if IsDue(st, p, now, k) then [k] else []
  }

  /** The stamps after a pass: `now` for each task that ran, unchanged for the others. */
  function Restamp(st: Stamps, p: Periods, now: u32): (r: Stamps)
    ensures forall k :: StampOf(r, k) == if IsDue(st, p, now, k) then now else StampOf(st, k)
  {
    Stamps(if IsDue(st, p, now, DriveTask) then now else st.drive,
           if IsDue(st, p, now, SensorTask) then now else st.sensors,
           if IsDue(st, p, now, OledTask) then now else st.oled,
           if IsDue(st, p, now, UartTask) then now else st.uart)
  }

  /**
    After the common seed at `t`, a pass `d` milliseconds later runs a task
    exactly when `d` has reached its period, so no task with a nonzero
    period runs before one full period has passed.
   */
  lemma FirstRunAfterFullPeriod(t: u32, p: Periods, d: u32, k: Task)
    ensures k in DueTasks(Seed(t), p, Add32(t, d)) <==> d >= PeriodOf(p, k)
  {
    DueAfterExactly(t, d, PeriodOf(p, k));
  }

  /**
    A task that ran at `now` is stamped `now`, so it runs again exactly once
    a full period has passed since that pass, however the clock wraps.
   */
  lemma NextRunOnePeriodLater(st: Stamps, p: Periods, now: u32, k: Task, d: u32)
    requires IsDue(st, p, now, k)
    ensures IsDue(Restamp(st, p, now), p, Add32(now, d), k) <==> d >= PeriodOf(p, k)
  {
    DueAfterExactly(now, d, PeriodOf(p, k));
  }

  /**
    No catch-up: when a run is `late` milliseconds behind its slot
    `last + period`, the next run moves `late` milliseconds later as well,
    so the task is not due at `last + 2 period`, where a phase-keeping
    stamp (`last + period`) would have made it due.
   */
  lemma {:induction false} LatenessIsNotCaughtUp(st: Stamps, p: Periods, k: Task, late: nat)
    requires 0 < late < PeriodOf(p, k) && 2 * PeriodOf(p, k) < U32
    ensures var last := StampOf(st, k);
            var per := PeriodOf(p, k);
            var run := Add32(last, per + late);
            IsDue(st, p, run, k) &&
            !IsDue(Restamp(st, p, run), p, Add32(last, 2 * per), k) &&
            Due(Add32(last, 2 * per), Add32(last, per), per)
  {
    var last, per := StampOf(st, k), PeriodOf(p, k);
    Slip(last, per, late);
    var run := Add32(last, per + late);
    assert IsDue(st, p, run, k);
    assert StampOf(Restamp(st, p, run), k) == run;
  }

  /** The wrapping arithmetic behind `LatenessIsNotCaughtUp`. */
  lemma Slip(last: u32, per: nat, late: nat)
    requires 0 < late < per && 2 * per < U32
    ensures Due(Add32(last, per + late), last, per)
    ensures !Due(Add32(last, 2 * per), Add32(last, per + late), per)
    ensures Due(Add32(last, 2 * per), Add32(last, per), per)
  {
    DueAfterExactly(last, per + late, per);
    ElapsedBetween(last, per + late, 2 * per);
    ElapsedBetween(last, per, 2 * per);
  }

  /** What the application loop's task bodies do, in order. */
  datatype Event = TankUpdate | DriveTestTick | SensorsRead | OledShow | UartShow

  /** The bodies of the tasks a pass runs; the drive task updates the drive, then steps the drive test. */
  function Events(ts: seq<Task>): seq<Event>
    decreases |ts|
  {
    if |ts| == 0 then [] else Body(ts[0]) + Events(ts[1..])
  }

  function Body(k: Task): seq<Event>
  {
    match k
    case DriveTask => [TankUpdate, DriveTestTick]
    case SensorTask => [SensorsRead]
    case OledTask => [OledShow]
    case UartTask => [UartShow]
  }

  /** Within a pass the drive is always updated before the drive test steps. */
  lemma {:induction false} TankUpdateBeforeDriveTest(ts: seq<Task>, i: nat)
    requires i < |Events(ts)| && Events(ts)[i] == DriveTestTick
    ensures i > 0 && Events(ts)[i - 1] == TankUpdate
    decreases |ts|
  {
    var head := Body(ts[0]);
    assert Events(ts) == head + Events(ts[1..]);
    if i >= |head| {
      TankUpdateBeforeDriveTest(ts[1..], i - |head|);
    }
  }

  /** The application loop of `main.c` and `app.c`: the stamps and the last good readings. */
  class App {
    var stamps: Stamps
    var rightLuna: LunaData
    var leftLuna: LunaData
    var rightColor: ColorData
    var leftColor: ColorData
    ghost var events: seq<Event>

    constructor ()
      ensures stamps == Seed(0) && rightLuna == NoData && leftLuna == NoData
      ensures rightColor == NoColor && leftColor == NoColor && events == []
    {
      stamps := Seed(0);
      rightLuna, leftLuna := NoData, NoData;
      rightColor, leftColor := NoColor, NoColor;
      events := [];
    }

    /** The end of `App_Init`: the first readings are stored as they are, and every stamp is seeded with `now`. */
    method Init(now: u32, r: LunaData, l: LunaData, rc: ColorData, lc: ColorData)
      modifies this`stamps, this`rightLuna, this`leftLuna, this`rightColor, this`leftColor
      ensures stamps == Seed(now)
      ensures rightLuna == r && leftLuna == l && rightColor == rc && leftColor == lc
    {
      rightLuna := r;
      leftLuna := l;
      rightColor := rc;
      leftColor := lc;
      stamps := Seed(now);
    }

    /** Check 1: when the drive tick is due, the drive is updated, then the drive test steps. */
    method DriveCheck(now: u32, tickMs: u16)
      modifies this`stamps, this`events
      ensures Due(now, old(stamps).drive, tickMs) ==> stamps == old(stamps).(drive := now) && events == old(events) + Body(DriveTask)
      ensures !Due(now, old(stamps).drive, tickMs) ==> stamps == old(stamps) && events == old(events)
    {
      if Sub32(now, stamps.drive) >= tickMs {
        events := events + Body(DriveTask);
        stamps := stamps.(drive := now);
      }
    }

    /**
      Check 2: when the sensor period is due, both distance sensors and both
      colour sensors are read; a distance reading replaces the stored one
      only when its frame is ready, the colours always do.
     */
    method SensorCheck(now: u32, r: LunaData, l: LunaData, rc: ColorData, lc: ColorData)
      modifies this`stamps, this`events, this`rightLuna, this`leftLuna, this`rightColor, this`leftColor
      ensures Due(now, old(stamps).sensors, 100) ==>
                stamps == old(stamps).(sensors := now) && events == old(events) + Body(SensorTask) &&
                rightLuna == (if r.frameReady then r else old(rightLuna)) &&
                leftLuna == (if l.frameReady then l else old(leftLuna)) &&
                rightColor == rc && leftColor == lc
      ensures !Due(now, old(stamps).sensors, 100) ==>
                stamps == old(stamps) && events == old(events) &&
                rightLuna == old(rightLuna) && leftLuna == old(leftLuna) &&
                rightColor == old(rightColor) && leftColor == old(leftColor)
    {
      if Sub32(now, stamps.sensors) >= 100 {
        if r.frameReady {
          rightLuna := r;
        }
        if l.frameReady {
          leftLuna := l;
        }
        rightColor := rc;
        leftColor := lc;
        events := events + Body(SensorTask);
        stamps := stamps.(sensors := now);
      }
    }

    /** Check 3: when the display period is due, the sensor panel is drawn. */
    method OledCheck(now: u32)
      modifies this`stamps, this`events
      ensures Due(now, old(stamps).oled, 200) ==> stamps == old(stamps).(oled := now) && events == old(events) + Body(OledTask)
      ensures !Due(now, old(stamps).oled, 200) ==> stamps == old(stamps) && events == old(events)
    {
      if Sub32(now, stamps.oled) >= 200 {
        events := events + Body(OledTask);
        stamps := stamps.(oled := now);
      }
    }

    /** Check 4: when the serial period is due, the serial panel is printed. */
    method UartCheck(now: u32)
      modifies this`stamps, this`events
      ensures Due(now, old(stamps).uart, 200) ==> stamps == old(stamps).(uart := now) && events == old(events) + Body(UartTask)
      ensures !Due(now, old(stamps).uart, 200) ==> stamps == old(stamps) && events == old(events)
    {
      if Sub32(now, stamps.uart) >= 200 {
        events := events + Body(UartTask);
        stamps := stamps.(uart := now);
      }
    }

    /**
      `App_Tick` at `now`, with the drive's configured tick and the values
      the four sensor reads return on this pass: the four checks in order,
      each against the one `now`.
     */
    method Tick(now: u32, tickMs: u16, r: LunaData, l: LunaData, rc: ColorData, lc: ColorData)
      modifies this`stamps, this`rightLuna, this`leftLuna, this`rightColor, this`leftColor, this`events
      ensures stamps == Restamp(old(stamps), AppPeriods(tickMs), now)
      ensures events == old(events) + Events(DueTasks(old(stamps), AppPeriods(tickMs), now))
      ensures IsDue(old(stamps), AppPeriods(tickMs), now, SensorTask) ==>
                rightLuna == (if r.frameReady then r else old(rightLuna)) &&
                leftLuna == (if l.frameReady then l else old(leftLuna)) &&
                rightColor == rc && leftColor == lc
      ensures !IsDue(old(stamps), AppPeriods(tickMs), now, SensorTask) ==>
                rightLuna == old(rightLuna) && leftLuna == old(leftLuna) &&
                rightColor == old(rightColor) && leftColor == old(leftColor)
    {
      ghost var st := stamps;
      ghost var P := AppPeriods(tickMs);
      ghost var e0 := events;
      ghost var e1, e2, e3, e4 := PieceEvents(st, P, now, DriveTask), PieceEvents(st, P, now, SensorTask),
                                  PieceEvents(st, P, now, OledTask), PieceEvents(st, P, now, UartTask);
      DriveCheck(now, tickMs);
      assert events == e0 + e1;
      SensorCheck(now, r, l, rc, lc);
      assert events == e0 + e1 + e2;
      OledCheck(now);
      assert events == e0 + e1 + e2 + e3;
      UartCheck(now);
      assert events == e0 + e1 + e2 + e3 + e4;
      PassEvents(st, P, now);
      Regroup(e0, e1, e2, e3, e4);
    }
  }

  /** The bodies one check runs: its task's, when due. */
  ghost function PieceEvents(st: Stamps, p: Periods, now: u32, k: Task): (e: seq<Event>)
    ensures e == Events(Piece(st, p, now, k))
    ensures e == if IsDue(st, p, now, k) then Body(k) else []
  {
    var ts := Piece(st, p, now, k);
    if IsDue(st, p, now, k) then
      assert ts[1..] == [];
      assert Events(ts) == Body(k) + [];
      Body(k)
    else []
  }

  lemma Regroup<T>(e: seq<T>, a: seq<T>, b: seq<T>, c: seq<T>, d: seq<T>)
    ensures e + a + b + c + d == e + (a + b + c + d)
  {
  }

  /** The bodies a pass runs are those of its four checks, in order. */
  lemma PassEvents(st: Stamps, p: Periods, now: u32)
    ensures Events(DueTasks(st, p, now)) ==
            Events(Piece(st, p, now, DriveTask)) + Events(Piece(st, p, now, SensorTask)) +
            Events(Piece(st, p, now, OledTask)) + Events(Piece(st, p, now, UartTask))
  {
    var a, b, c, d := Piece(st, p, now, DriveTask), Piece(st, p, now, SensorTask), Piece(st, p, now, OledTask), Piece(st, p, now, UartTask);
    EventsAppend(a, b);
    EventsAppend(a + b, c);
    EventsAppend(a + b + c, d);
  }

  /** The bodies of two runs one after the other are the bodies of each. */
  lemma {:induction false} EventsAppend(a: seq<Task>, b: seq<Task>)
    ensures Events(a + b) == Events(a) + Events(b)
    decreases |a|
  {
    if |a| > 0 {
      assert (a + b)[0] == a[0];
      assert (a + b)[1..] == a[1..] + b;
      EventsAppend(a[1..], b);
    } else {
      assert a + b == b;
    }
  }

  /** One task body of the minimal loop and the value its stamp had when it ran. */
  datatype Ran = Ran(task: Task, stampSeen: u32)

  /** The minimal loop stamps each task before its body: every body sees its stamp already at `now`. */
  function StampedFirst(ts: seq<Task>, now: u32): (rs: seq<Ran>)
    ensures |rs| == |ts|
    ensures forall i :: 0 <= i < |rs| ==> rs[i] == Ran(ts[i], now)
  {
    seq(|ts|, i requires 0 <= i < |ts| => Ran(ts[i], now))
  }

  /**
    The minimal loop of the second application (`SMIETNIK/app.c`): the same
    four checks against configured periods, each stamping before its body.
   */
  class MinimalApp {
    var stamps: Stamps
    ghost var runs: seq<Ran>

    constructor ()
      ensures stamps == Seed(0) && runs == []
    {
      stamps := Seed(0);
      runs := [];
    }

    /** `App_Init`'s seeding; the ESC arming before it is not part of this loop. */
    method Init(now: u32)
      modifies this`stamps
      ensures stamps == Seed(now)
    {
      stamps := Seed(now);
    }

    /** `App_Tick` at `now` with the configured periods. */
    method Tick(now: u32, p: Periods)
      modifies this`stamps, this`runs
      ensures stamps == Restamp(old(stamps), p, now)
      ensures runs == old(runs) + StampedFirst(DueTasks(old(stamps), p, now), now)
    {
      ghost var st := stamps;
      ghost var r0 := runs;
      if Sub32(now, stamps.drive) >= p.drive {
        stamps := stamps.(drive := now);
        runs := runs + [Ran(DriveTask, stamps.drive)];
      }
      assert runs == r0 + StampedFirst(Piece(st, p, now, DriveTask), now);
      if Sub32(now, stamps.sensors) >= p.sensors {
        stamps := stamps.(sensors := now);
        runs := runs + [Ran(SensorTask, stamps.sensors)];
      }
      assert runs == r0 + StampedFirst(Piece(st, p, now, DriveTask), now) + StampedFirst(Piece(st, p, now, SensorTask), now);
      if Sub32(now, stamps.oled) >= p.oled {
        stamps := stamps.(oled := now);
        runs := runs + [Ran(OledTask, stamps.oled)];
      }
      assert runs == r0 + StampedFirst(Piece(st, p, now, DriveTask), now) + StampedFirst(Piece(st, p, now, SensorTask), now)
                       + StampedFirst(Piece(st, p, now, OledTask), now);
      if Sub32(now, stamps.uart) >= p.uart {
        stamps := stamps.(uart := now);
        runs := runs + [Ran(UartTask, stamps.uart)];
      }
      assert runs == r0 + StampedFirst(Piece(st, p, now, DriveTask), now) + StampedFirst(Piece(st, p, now, SensorTask), now)
                       + StampedFirst(Piece(st, p, now, OledTask), now) + StampedFirst(Piece(st, p, now, UartTask), now);
      PassStamped(st, p, now);
      Regroup(r0, StampedFirst(Piece(st, p, now, DriveTask), now), StampedFirst(Piece(st, p, now, SensorTask), now),
              StampedFirst(Piece(st, p, now, OledTask), now), StampedFirst(Piece(st, p, now, UartTask), now));
    }
  }

  /** Stamped-first records of a pass are those of its four checks, in order. */
  lemma PassStamped(st: Stamps, p: Periods, now: u32)
    ensures StampedFirst(DueTasks(st, p, now), now) ==
            StampedFirst(Piece(st, p, now, DriveTask), now) + StampedFirst(Piece(st, p, now, SensorTask), now) +
            StampedFirst(Piece(st, p, now, OledTask), now) + StampedFirst(Piece(st, p, now, UartTask), now)
  {
    var a, b, c, d := Piece(st, p, now, DriveTask), Piece(st, p, now, SensorTask), Piece(st, p, now, OledTask), Piece(st, p, now, UartTask);
    StampedFirstAppend(a, b, now);
    StampedFirstAppend(a + b, c, now);
    StampedFirstAppend(a + b + c, d, now);
  }

  lemma StampedFirstAppend(a: seq<Task>, b: seq<Task>, now: u32)
    ensures StampedFirst(a + b, now) == StampedFirst(a, now) + StampedFirst(b, now)
  {
    var x, y := StampedFirst(a + b, now), StampedFirst(a, now) + StampedFirst(b, now);
    assert |x| == |y|;
    forall i | 0 <= i < |x|
      ensures x[i] == y[i]
    {
      if i < |a| {
        assert (a + b)[i] == a[i];
      } else {
        assert (a + b)[i] == b[i - |a|];
      }
    }
  }
}
