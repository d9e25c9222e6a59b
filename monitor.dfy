/**
 * The render loop of the monitor: on every tick it samples CPU and memory, splits the
 * uptime, enumerates the processes and shows the frame; then it looks at the pending key:
 * `q` stops, `k` runs the kill path and starts the next tick at once, anything else sleeps.
 */
module Monitor {
  import opened Common
  import opened Cpu
  import opened Memory
  import opened Processes
  import opened Display

  /**
   * What the outside world supplies to one tick: the `/proc/stat` sample, the `/proc/meminfo`
   * lines, the `/proc` listing (None when it cannot be opened), the whole seconds elapsed since
   * start, the pending key (None when no byte is waiting) and the answers along the kill path.
   */
  datatype TickInput = TickInput(stat: CpuSample, meminfo: seq<Field>, proc: Option<seq<DirEntry>>,
                                 elapsed: int, key: Option<char>, kill: KillInput)

  /** The figures one frame shows. */
  datatype Frame = Frame(cpu: real, mem: real, uptime: Hms, processes: seq<ProcessInfo>)

  /** How a tick ends once its frame is shown. */
  datatype TickEnd = Stopped | KillReport(outcome: KillOutcome) | Slept

  /** The frame of a tick when `prev` is the calculator's remembered state. */
  function FrameOf(prev: Counters, t: TickInput): Frame
  {
    Frame(CpuPercent(prev, t.stat), MemPercent(ScanMeminfo(t.meminfo)), SplitUptime(t.elapsed),
          if t.proc.None? then [] else ProcessTable(t.proc.value))
  }

  /** The end of a tick, decided by the pending key. */
  function EndOf(t: TickInput): TickEnd
  {
    match Dispatch(t.key)
    case Quit => Stopped
    case KillPath => KillReport(KillDecision(t.kill))
    case Sleep => Slept
  }

  /** How each tick that runs ends: the script up to and including the first `q`. */
  function Endings(ticks: seq<TickInput>): seq<TickEnd>
    decreases |ticks|
  {
    if ticks == [] then []
    else [EndOf(ticks[0])] + if Dispatch(ticks[0].key) == Quit then [] else Endings(ticks[1..])
  }

  /** The frames shown by the ticks that run, starting from remembered state `prev`. */
  function Frames(prev: Counters, ticks: seq<TickInput>): seq<Frame>
    decreases |ticks|
  {
    if ticks == [] then []
    else
      [FrameOf(prev, ticks[0])] +
      if Dispatch(ticks[0].key) == Quit then [] else Frames(Aggregates(ticks[0].stat), ticks[1..])
  }

  /** The calculator's remembered counters once the ticks that run have run. */
  function Remembered(prev: Counters, ticks: seq<TickInput>): Counters
    decreases |ticks|
  {
    if ticks == [] then prev
    else if Dispatch(ticks[0].key) == Quit then Aggregates(ticks[0].stat)
    else Remembered(Aggregates(ticks[0].stat), ticks[1..])
  }

  lemma AppendAssoc<T>(a: seq<T>, b: seq<T>, c: seq<T>)
    ensures (a + b) + c == a + (b + c)
  {
  }

  /** The sampling half of a tick, in the order the loop performs it. */
  method Sample(monitor: CpuMonitor, t: TickInput) returns (frame: Frame)
    modifies monitor
    ensures frame == FrameOf(old(monitor.Stored()), t)
    ensures monitor.Stored() == Aggregates(t.stat)
  {
    var cpuUsage := monitor.GetCpuUsage(t.stat);
    var memUsage := GetMemoryUsage(t.meminfo);
    var uptime := SplitUptime(t.elapsed);
    var processes := GetProcesses(t.proc);
    frame := Frame(cpuUsage, memUsage, uptime, processes);
  }

  /**
   * The loop itself, run over a finite script of ticks: the frames it shows, and how each
   * tick ended.
   */
  method Run(monitor: CpuMonitor, ticks: seq<TickInput>) returns (frames: seq<Frame>, ends: seq<TickEnd>)
    modifies monitor
    ensures frames == Frames(old(monitor.Stored()), ticks)
    ensures ends == Endings(ticks)
    ensures monitor.Stored() == Remembered(old(monitor.Stored()), ticks)
  {
    frames, ends := [], [];
    var i := 0;
    assert ticks[i..] == ticks;
    while i < |ticks|
      invariant 0 <= i <= |ticks|
      invariant frames + Frames(monitor.Stored(), ticks[i..]) == Frames(old(monitor.Stored()), ticks)
      invariant ends + Endings(ticks[i..]) == Endings(ticks)
      invariant Remembered(monitor.Stored(), ticks[i..]) == Remembered(old(monitor.Stored()), ticks)
    {
      var t := ticks[i];
      assert ticks[i..][0] == t && ticks[i..][1..] == ticks[i + 1..];

      var frame := Sample(monitor, t);
      AppendAssoc(frames, [frame], Frames(monitor.Stored(), ticks[i + 1..]));
      frames := frames + [frame];

      var action := Dispatch(t.key);
      if action == Quit {
        ends := ends + [Stopped];
        return;
      } else if action == KillPath {
        ends := ends + [KillReport(KillDecision(t.kill))];
      } else {
        ends := ends + [Slept];
      }
      AppendAssoc(ends[..|ends| - 1], [EndOf(t)], Endings(ticks[i + 1..]));
      i := i + 1;
    }
  }

  /** Each tick that runs shows exactly one frame before it ends. */
  lemma {:induction false} OneFramePerTick(prev: Counters, ticks: seq<TickInput>)
    ensures |Frames(prev, ticks)| == |Endings(ticks)|
    decreases |ticks|
  {
    if ticks != [] && Dispatch(ticks[0].key) != Quit {
      OneFramePerTick(Aggregates(ticks[0].stat), ticks[1..]);
    }
  }

  /**
   * A `q` on tick i ends the run with that tick: i + 1 ticks run, the last of them stops,
   * and none before it does (no sleep follows the quit).
   */
  lemma {:induction false} QuitStopsRun(ticks: seq<TickInput>, i: nat)
    requires i < |ticks| && ticks[i].key == Some('q')
    requires forall j :: 0 <= j < i ==> ticks[j].key != Some('q')
    ensures |Endings(ticks)| == i + 1
    ensures Endings(ticks)[i] == Stopped
    ensures Stopped !in Endings(ticks)[..i]
    decreases i
  {
    if i > 0 {
      assert ticks[0].key != Some('q');
      assert forall j :: 0 <= j < i - 1 ==> ticks[1..][j] == ticks[j + 1];
      QuitStopsRun(ticks[1..], i - 1);
      var tail := Endings(ticks[1..]);
      assert Endings(ticks) == [EndOf(ticks[0])] + tail;
      assert Endings(ticks)[..i] == [EndOf(ticks[0])] + tail[..i - 1];
    }
  }

  /**
   * Without a `q` every tick of the script runs, each ends as its own key decides,
   * and the loop never stops.
   */
  lemma {:induction false} NoQuitRunsEveryTick(ticks: seq<TickInput>)
    requires forall j :: 0 <= j < |ticks| ==> ticks[j].key != Some('q')
    ensures |Endings(ticks)| == |ticks|
    ensures forall j :: 0 <= j < |ticks| ==> Endings(ticks)[j] == EndOf(ticks[j])
    ensures Stopped !in Endings(ticks)
    decreases |ticks|
  {
    if ticks != [] {
      assert forall j :: 0 <= j < |ticks| - 1 ==> ticks[1..][j] == ticks[j + 1];
      NoQuitRunsEveryTick(ticks[1..]);
      assert Endings(ticks) == [EndOf(ticks[0])] + Endings(ticks[1..]);
    }
  }

  /** The counters never go backwards from one tick to the next, starting from `prev`. */
  predicate CountersMonotone(prev: Counters, ticks: seq<TickInput>)
    decreases |ticks|
  {
    ticks == [] ||
    (NonDecreasing(prev, Aggregates(ticks[0].stat)) && CountersMonotone(Aggregates(ticks[0].stat), ticks[1..]))
  }

  /** With counters that never go backwards every CPU figure shown is a percentage. */
  lemma {:induction false} FramesCpuInRange(prev: Counters, ticks: seq<TickInput>)
    requires CountersMonotone(prev, ticks)
    ensures forall j :: 0 <= j < |Frames(prev, ticks)| ==> 0.0 <= Frames(prev, ticks)[j].cpu <= 100.0
    decreases |ticks|
  {
    if ticks != [] {
      CpuPercentInRange(prev, ticks[0].stat);
      if Dispatch(ticks[0].key) != Quit {
        FramesCpuInRange(Aggregates(ticks[0].stat), ticks[1..]);
      }
    }
  }

  /** The first frame after start shows 0% CPU, whatever the first sample says. */
  lemma FirstFrameShowsZeroCpu(ticks: seq<TickInput>)
    requires ticks != []
    ensures Frames(Zero, ticks) != [] && Frames(Zero, ticks)[0].cpu == 0.0
  {
  }
}
