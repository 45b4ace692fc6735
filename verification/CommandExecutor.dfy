/** The CAN3 cycle of the vehicle command executor: it applies the published command to the
    adapter object, or a safe default when there is none or it is stale, and publishes the
    valve outputs.  Run over any number of cycles, it shows on the object itself what the
    theorems say about runs. */
module CommandExecutor {
  import opened Clock
  import opened CanopenService
  import opened ValveMasks
  import opened LiftModel
  import opened HydraulicModel
  import opened DeviceModel
  import opened LiftHydraulicDevices
  import opened LiftAuthority
  import opened LiftStop
  import opened ValveSafety

  const STALE_MS: nat := 50
  const FUTURE_SKEW_MS: nat := 10

  /** What a cycle reads from the mailbox: a coherent command, or nothing usable. */
  datatype Mailbox = Unreadable | Snapshot(cmd: Command, timestamp: U32)

  /** One cycle; `trackReady` is false while the track-width valves wait for the steering. */
  datatype Cycle = Cycle(svc: Service, mailbox: Mailbox, trackReady: bool, time: nat)

  const SAFE_DEFAULT := Command(0.0, 0.0, SafeStop, false, false, false, false, 0)

  /** The firmware's test of a snapshot's stamp. */
  predicate Fresh(now: U32, timestamp: U32) {
    if Reached(now, timestamp) then Elapsed(now, timestamp) <= STALE_MS
    else Elapsed(timestamp, now) <= FUTURE_SKEW_MS
  }

  /** The clock as it read some milliseconds before a time, or after it. */
  function Ago(time: nat, age: int): U32 {
    (time - age) % WRAP
  }

  /** The cycle finds a command that was stamped at most 50 ms ago, or at most 10 ms ahead
      by a publisher that overtook the cycle. */
  predicate Live(c: Cycle) {
    c.mailbox.Snapshot? && exists age :: -10 <= age <= 50 && c.mailbox.timestamp == Ago(c.time, age)
  }

  lemma AgeOf(time: nat, age: int)
    requires -HALF < age < HALF
    ensures Elapsed(At(time), Ago(time, age)) == if age >= 0 then age else age + WRAP
    ensures Elapsed(Ago(time, age), At(time)) == if age > 0 then WRAP - age else -age
    ensures Reached(At(time), Ago(time, age)) <==> age >= 0
  {
    WrapsOnce(time, age);
  }

  lemma WrapsOnce(time: nat, age: int)
    requires -HALF < age < HALF
    ensures var d := At(time) - Ago(time, age); d == age || d == age - WRAP || d == age + WRAP
  {
    var q, r := time / WRAP, (time - age) / WRAP;
    assert time == q * WRAP + At(time) && time - age == r * WRAP + Ago(time, age);
    assert q == r || q == r + 1 || q == r - 1;
  }

  /** The firmware's test on wrapping counters is that age, for every stamp. */
  lemma FreshExactly(time: nat, timestamp: U32)
    ensures Fresh(At(time), timestamp) <==> exists age :: -10 <= age <= 50 && timestamp == Ago(time, age)
  {
    hide Fresh, Ago;
    if Fresh(At(time), timestamp) {
      var age := FreshAge(time, timestamp);
    }
    forall age | -10 <= age <= 50 && timestamp == Ago(time, age) ensures Fresh(At(time), timestamp) {
      AgedFresh(time, age);
    }
  }

  lemma AgedFresh(time: nat, age: int)
    requires -10 <= age <= 50
    ensures Fresh(At(time), Ago(time, age))
  {
    hide Ago, Elapsed, Reached;
    AgeOf(time, age);
  }

  lemma FreshAge(time: nat, timestamp: U32) returns (age: int)
    requires Fresh(At(time), timestamp)
    ensures -10 <= age <= 50 && timestamp == Ago(time, age)
  {
    if Reached(At(time), timestamp) {
      age := Elapsed(At(time), timestamp);
    } else {
      age := 0 - Elapsed(timestamp, At(time));
    }
    Back(time, timestamp, age);
  }

  lemma Back(time: nat, timestamp: U32, age: int)
    requires (At(time) - timestamp - age) % WRAP == 0
    ensures timestamp == Ago(time, age)
  {
    var q, k := time / WRAP, (At(time) - timestamp - age) / WRAP;
    assert time - age == (q + k) * WRAP + timestamp;
  }

  /** On absolute times: a command stamped at s is live at t, if these are less than half a
      wrap apart, exactly from 10 ms before s to 50 ms after it. */
  lemma LiveExactly(c: Cycle, s: nat)
    requires c.mailbox.Snapshot? && c.mailbox.timestamp == At(s) && s < c.time + HALF && c.time < s + HALF
    ensures Live(c) <==> c.time <= s + 50 && s <= c.time + 10
  {
    hide Ago;
    AgoIs(c.time, s);
    FreshExactly(c.time, c.mailbox.timestamp);
    OnlyAge(c.time, c.time - s);
  }

  lemma AgoIs(time: nat, s: nat)
    ensures Ago(time, time - s) == At(s)
  {
  }

  lemma OnlyAge(time: nat, age: int)
    requires -HALF < age < HALF
    ensures Fresh(At(time), Ago(time, age)) <==> -10 <= age <= 50
  {
    hide Ago, Elapsed, Reached;
    AgeOf(time, age);
  }

  function Gated(cmd: Command, trackReady: bool): Command {
    if trackReady then cmd else cmd.(valveMask := cmd.valveMask & !TRACK_WIDTH_VALVES)
  }

  /** The command a cycle hands to the adapter. */
  function Executed(c: Cycle): Command {
    if Live(c) then Gated(c.mailbox.cmd, c.trackReady) else SAFE_DEFAULT
  }

  /** The calls of the adapter that a number of cycles make. */
  function Calls(cycles: seq<Cycle>): (run: seq<Tick>)
    ensures |run| == |cycles|
  {
    seq(|cycles|, n requires 0 <= n < |cycles| => Tick(cycles[n].svc, Executed(cycles[n]), cycles[n].time))
  }

  /** All traffic of the first n calls of a run. */
  function Traffic(d: Device, cfg: ValveConfig, run: seq<Tick>, n: nat): seq<Event>
    requires n <= |run|
  {
    if n == 0 then [] else Traffic(d, cfg, run, n - 1) + Sent(d, cfg, run, n - 1)
  }

  /** A live command that asks for motion with high voltage present. */
  predicate CommandsMotion(c: Cycle) {
    Live(c) && Authorised(c.mailbox.cmd)
  }

  lemma OnlyLiveAuthorises(c: Cycle)
    requires Authorised(Executed(c))
    ensures CommandsMotion(c)
  {
    hide Live;
  }

  /** What may be on the bus after these cycles: every moving group was sent in one of them
      with a live, authorised command; everything else is harmless or a reverse-only pump
      command. */
  predicate Accounted(d: Device, cfg: ValveConfig, cycles: seq<Cycle>, e: Event) {
    && (e.PumpCommand? || Harmless(e)) && ReverseOnly(e)
    && (Moving(e) ==>
          exists n: nat :: n < |cycles| && CommandsMotion(cycles[n]) && e in Sent(d, cfg, Calls(cycles), n))
  }

  lemma {:induction false} TrafficAccounted(d: Device, cfg: ValveConfig, cycles: seq<Cycle>, n: nat, j: nat)
    requires n <= |cycles| && j < |Traffic(d, cfg, Calls(cycles), n)|
    ensures Accounted(d, cfg, cycles, Traffic(d, cfg, Calls(cycles), n)[j])
  {
    hide Sent, Moving, Harmless, Authorised, ReverseOnly, CommandsMotion, Executed;
    var run := Calls(cycles);
    var before := Traffic(d, cfg, run, n - 1);
    if j < |before| {
      TrafficAccounted(d, cfg, cycles, n - 1, j);
    } else {
      var e := Traffic(d, cfg, run, n)[j];
      assert e == Sent(d, cfg, run, n - 1)[j - |before|];
      MotionAuthority(d, cfg, run, n - 1);
      PumpReverseOnly(d, cfg, run, n - 1);
      if Moving(e) {
        OnlyLiveAuthorises(cycles[n - 1]);
      }
    }
  }

  /** The published outputs of a cycle. */
  function Intent(live: bool, open: bv32, enable: bv32): bv32 {
    if live && open != 0 then open | enable else 0
  }

  function Union(a: bv32, b: bv32): bv32 {
    a | b
  }

  /** Nothing is published exactly when no valve is open or no command live. */
  lemma IntentOpens(live: bool, open: bv32, enable: bv32)
    ensures Intent(live, open, enable) != 0 <==> live && open != 0
    ensures live && open != 0 ==> Intent(live, open, enable) == Union(open, enable)
  {
    if open != 0 {
      UnionLasts(open, enable);
    }
  }

  lemma UnionLasts(open: bv32, enable: bv32)
    requires open != 0
    ensures Union(open, enable) != 0
  {
  }

  /** What a published valve output stands for: a live command asking for the pump, its
      sanitized selection without a complete pair, track-width valves only when the steering
      is ready, pump feedback of this cycle that is fault-free, at most 200 ms old and
      without forward rotation, and a ready pump speed read in some cycle less than 500 ms
      ago. */
  predicate OutputJustified(cfg: ValveConfig, enable: bv32, cycles: seq<Cycle>, n: nat, intent: bv32)
    requires n < |cycles|
  {
    && Openable(cfg, cycles[n], Sanitized(cfg, Executed(cycles[n]).valveMask))
    && intent == Union(Sanitized(cfg, Executed(cycles[n]).valveMask), enable)
    && exists m: nat :: m <= n && ReadCycle(cycles[m])
                        && Elapsed(At(cycles[n].time), At(cycles[m].time)) < 500
  }

  predicate Openable(cfg: ValveConfig, c: Cycle, open: bv32) {
    && Live(c) && open != 0
    && c.mailbox.cmd.hydraulicEnable && c.mailbox.cmd.powerEnable && !c.mailbox.cmd.powerDisable
    && c.mailbox.cmd.highVoltage
    && Apart(open, cfg.pair12) && Apart(open, cfg.pair34) && Apart(open, cfg.pair56)
    && (!c.trackReady ==> TrackShut(open))
    && WellHeard(c.svc.pump, c.time) && c.svc.pump.velocity <= 5000
  }

  /** The cycle reads the pump in reverse, faster than 1,333,333 units. */
  predicate ReadCycle(c: Cycle) {
    WellHeard(c.svc.pump, c.time) && c.svc.pump.velocity < -1333333
  }

  /** No track-width valve is selected. */
  predicate TrackShut(mask: bv32) {
    mask & 0x50 == 0
  }

  lemma GateKeepsShut(mask: bv32)
    ensures TrackShut(mask & !TRACK_WIDTH_VALVES)
  {
  }

  lemma PartShut(part: bv32, managed: bv32, requested: bv32)
    requires Part(part, requested & managed) && TrackShut(requested)
    ensures TrackShut(part)
  {
  }

  /** What a cycle reports and publishes. */
  predicate Published(d: Device, cfg: ValveConfig, enable: bv32, cycles: seq<Cycle>, n: nat, ok: bool, intent: bv32)
    requires n < |cycles|
  {
    var run := Calls(cycles);
    && ok == (Step(After(d, cfg, run, n), cfg, run[n]).verdict == Applied)
    && intent == Intent(Live(cycles[n]), After(d, cfg, run, n + 1).pump.openMask, enable)
  }

  lemma OutputsJustified(d: Device, cfg: ValveConfig, enable: bv32, cycles: seq<Cycle>, n: nat, ok: bool, intent: bv32)
    requires !d.pump.pressureReady && n < |cycles| && Published(d, cfg, enable, cycles, n, ok, intent) && intent != 0
    ensures OutputJustified(cfg, enable, cycles, n, intent)
  {
    hide Step, After, Live, Sanitized, Elapsed, Openable, Executed, Intent, Union;
    IntentOpens(Live(cycles[n]), After(d, cfg, Calls(cycles), n + 1).pump.openMask, enable);
    var m := OpenedBecause(d, cfg, cycles, n);
  }

  lemma OpenedBecause(d: Device, cfg: ValveConfig, cycles: seq<Cycle>, n: nat) returns (m: nat)
    requires !d.pump.pressureReady && n < |cycles| && After(d, cfg, Calls(cycles), n + 1).pump.openMask != 0
    ensures var open := After(d, cfg, Calls(cycles), n + 1).pump.openMask;
      open == Sanitized(cfg, Executed(cycles[n]).valveMask) && Openable(cfg, cycles[n], open)
    ensures m <= n && ReadCycle(cycles[m]) && Elapsed(At(cycles[n].time), At(cycles[m].time)) < 500
  {
    hide Step, After, Live, Sanitized, Apart, Elapsed, WellHeard, Executed, Attended, TrackShut;
    m := OpenValveEvidence(d, cfg, Calls(cycles), n);
    ExecutedLive(cycles[n]);
    if !cycles[n].trackReady {
      GatedShut(cfg, cycles[n]);
    }
  }

  /** Only a live command asks for the pump. */
  lemma ExecutedLive(c: Cycle)
    requires PumpRequested(Executed(c))
    ensures Live(c)
    ensures var r := c.mailbox.cmd; r.hydraulicEnable && r.powerEnable && !r.powerDisable && r.highVoltage
  {
    hide Live;
  }

  lemma GatedShut(cfg: ValveConfig, c: Cycle)
    requires Live(c) && !c.trackReady
    ensures TrackShut(Sanitized(cfg, Executed(c).valveMask))
  {
    hide Fresh, Ago, Sanitized, Part, TrackShut;
    assert c.mailbox.Snapshot?;
    GateKeepsShut(c.mailbox.cmd.valveMask);
    SanitizedMask(cfg, Executed(c).valveMask);
    PartShut(Sanitized(cfg, Executed(c).valveMask), cfg.managed, Executed(c).valveMask);
  }

  /** A cycle without a live command hands over the safe default: no motion, no valves. */
  lemma StaleHandsNothing(c: Cycle)
    requires !Live(c)
    ensures Executed(c) == Command(0.0, 0.0, SafeStop, false, false, false, false, 0)
    ensures !Authorised(Executed(c)) && !PumpRequested(Executed(c))
  {
    hide Live;
  }

  /** A command in time is handed over as it is, but for a valve selection that waits for
      the steering. */
  lemma TimelyHandsOver(c: Cycle, s: nat)
    requires c.mailbox.Snapshot? && c.mailbox.timestamp == At(s) && s < c.time + HALF && c.time < s + HALF
    requires c.time <= s + 50 && s <= c.time + 10
    ensures Executed(c) == if c.trackReady then c.mailbox.cmd
                           else c.mailbox.cmd.(valveMask := c.mailbox.cmd.valveMask & !0x50)
  {
    hide Live;
    LiveExactly(c, s);
  }

  /** Without a live command no group that moves a leg goes out, every valve ends closed and
      the published output is zero. */
  lemma DeadCycle(d: Device, cfg: ValveConfig, enable: bv32, cycles: seq<Cycle>, n: nat, ok: bool, intent: bv32)
    requires n < |cycles| && !Live(cycles[n]) && Published(d, cfg, enable, cycles, n, ok, intent)
    ensures forall e :: e in Sent(d, cfg, Calls(cycles), n) ==> !Moving(e)
    ensures After(d, cfg, Calls(cycles), n + 1).pump.openMask == 0 && intent == 0
  {
    hide Step, After, Live, Executed, Moving, Harmless, Authorised, PumpRequested;
    StaleHandsNothing(cycles[n]);
    MotionAuthority(d, cfg, Calls(cycles), n);
    ClosedWithoutPump(d, cfg, Calls(cycles), n);
  }

  /** On absolute times: so it is in every cycle more than 50 ms behind its command's stamp,
      or more than 10 ms ahead of it. */
  lemma StaleCycle(d: Device, cfg: ValveConfig, enable: bv32, cycles: seq<Cycle>, n: nat, s: nat,
                   ok: bool, intent: bv32)
    requires n < |cycles| && Published(d, cfg, enable, cycles, n, ok, intent)
    requires var c := cycles[n];
             c.mailbox.Snapshot? && c.mailbox.timestamp == At(s) && s < c.time + HALF && c.time < s + HALF
    requires cycles[n].time > s + 50 || s > cycles[n].time + 10
    ensures forall e :: e in Sent(d, cfg, Calls(cycles), n) ==> !Moving(e)
    ensures After(d, cfg, Calls(cycles), n + 1).pump.openMask == 0 && intent == 0
  {
    hide Sent, After, Live, Executed, Moving, Published;
    LiveExactly(cycles[n], s);
    DeadCycle(d, cfg, enable, cycles, n, ok, intent);
  }

  /** One cycle on the object. */
  method FlushLiftHydraulic(device: LiftHydraulicDevice, cfg: ValveConfig, enable: bv32, c: Cycle)
      returns (ok: bool, intent: bv32)
    modifies device
    ensures var a := DeviceModel.Apply(Device(old(device.lift), old(device.pump)), cfg, c.svc, Executed(c), At(c.time));
            && Device(device.lift, device.pump) == a.device && device.log == old(device.log) + a.sent
            && ok == (a.verdict == Applied) && intent == Intent(Live(c), a.device.pump.openMask, enable)
  {
    hide DeviceModel.Apply, Fresh;
    if c.mailbox.Snapshot? {
      FreshExactly(c.time, c.mailbox.timestamp);
    }
    var verdict;
    if c.mailbox.Unreadable? || !Fresh(At(c.time), c.mailbox.timestamp) {
      verdict := device.Apply(cfg, c.svc, SAFE_DEFAULT, At(c.time));
      intent := 0;
    } else {
      verdict := device.Apply(cfg, c.svc, Gated(c.mailbox.cmd, c.trackReady), At(c.time));
      intent := device.pump.openMask;
      if intent != 0 {
        intent := intent | enable;
      }
    }
    ok := verdict == Applied;
  }

  /** What n cycles from d have come to: the device, its traffic, reports and outputs. */
  predicate Ran(d: Device, cfg: ValveConfig, enable: bv32, cycles: seq<Cycle>, n: nat,
                now: Device, traffic: seq<Event>, oks: seq<bool>, intents: seq<bv32>)
  {
    && n <= |cycles| && |oks| == |intents| == n
    && now == After(d, cfg, Calls(cycles), n) && traffic == Traffic(d, cfg, Calls(cycles), n)
    && forall i :: 0 <= i < n ==> Published(d, cfg, enable, cycles, i, oks[i], intents[i])
  }

  lemma NothingRan(d: Device, cfg: ValveConfig, enable: bv32, cycles: seq<Cycle>)
    ensures Ran(d, cfg, enable, cycles, 0, d, [], [], [])
  {
  }

  lemma OneMoreRan(d: Device, cfg: ValveConfig, enable: bv32, cycles: seq<Cycle>, n: nat,
                   now: Device, traffic: seq<Event>, oks: seq<bool>, intents: seq<bv32>, ok: bool, intent: bv32)
    requires n < |cycles| && Ran(d, cfg, enable, cycles, n, now, traffic, oks, intents)
    requires var c := cycles[n];
             var a := DeviceModel.Apply(now, cfg, c.svc, Executed(c), At(c.time));
             ok == (a.verdict == Applied) && intent == Intent(Live(c), a.device.pump.openMask, enable)
    ensures var c := cycles[n];
            var a := DeviceModel.Apply(now, cfg, c.svc, Executed(c), At(c.time));
            Ran(d, cfg, enable, cycles, n + 1, a.device, traffic + a.sent, oks + [ok], intents + [intent])
  {
    hide DeviceModel.Apply, Live, Executed, Intent;
  }

  /** What the run on the object shows: its traffic is accounted for and its outputs are
      justified. */
  lemma RunShows(d: Device, cfg: ValveConfig, enable: bv32, cycles: seq<Cycle>,
                 now: Device, traffic: seq<Event>, oks: seq<bool>, intents: seq<bv32>)
    requires Ran(d, cfg, enable, cycles, |cycles|, now, traffic, oks, intents)
    ensures forall e :: e in traffic ==> Accounted(d, cfg, cycles, e)
    ensures !d.pump.pressureReady ==>
              forall n :: 0 <= n < |cycles| && intents[n] != 0 ==> OutputJustified(cfg, enable, cycles, n, intents[n])
  {
    hide Accounted, Traffic, After, Published, OutputJustified;
    forall e | e in traffic ensures Accounted(d, cfg, cycles, e) {
      var j: nat :| j < |traffic| && traffic[j] == e;
      TrafficAccounted(d, cfg, cycles, |cycles|, j);
    }
    if !d.pump.pressureReady {
      forall n | 0 <= n < |cycles| && intents[n] != 0
        ensures OutputJustified(cfg, enable, cycles, n, intents[n])
      {
        OutputsJustified(d, cfg, enable, cycles, n, oks[n], intents[n]);
      }
    }
  }

  /** Any number of cycles on the object: it ends where the model's run ends, has put
      exactly the run's traffic on the bus, all of it accounted for, and every output it
      published, if it started without a pressure proof as after power-up, is justified. */
  method RunCycles(device: LiftHydraulicDevice, cfg: ValveConfig, enable: bv32, cycles: seq<Cycle>)
      returns (oks: seq<bool>, intents: seq<bv32>, ghost traffic: seq<Event>)
    modifies device
    ensures device.log == old(device.log) + traffic
    ensures Ran(Device(old(device.lift), old(device.pump)), cfg, enable, cycles, |cycles|,
                Device(device.lift, device.pump), traffic, oks, intents)
    ensures forall e :: e in traffic ==> Accounted(Device(old(device.lift), old(device.pump)), cfg, cycles, e)
    ensures |intents| == |cycles|
    ensures !old(device.pump).pressureReady ==>
              forall n :: 0 <= n < |cycles| && intents[n] != 0 ==> OutputJustified(cfg, enable, cycles, n, intents[n])
  {
    hide DeviceModel.Apply, Live, Executed, Intent, Accounted, Ran, OutputJustified;
    ghost var d := Device(device.lift, device.pump);
    oks, intents, traffic := [], [], [];
    NothingRan(d, cfg, enable, cycles);
    for n := 0 to |cycles|
      invariant Ran(d, cfg, enable, cycles, n, Device(device.lift, device.pump), traffic, oks, intents)
      invariant device.log == old(device.log) + traffic && |intents| == n
    {
      ghost var now := Device(device.lift, device.pump);
      var ok, intent := FlushLiftHydraulic(device, cfg, enable, cycles[n]);
      OneMoreRan(d, cfg, enable, cycles, n, now, traffic, oks, intents, ok, intent);
      oks, intents := oks + [ok], intents + [intent];
      traffic := traffic + DeviceModel.Apply(now, cfg, cycles[n].svc, Executed(cycles[n]), At(cycles[n].time)).sent;
    }
    RunShows(d, cfg, enable, cycles, Device(device.lift, device.pump), traffic, oks, intents);
  }

  // ------------------------------------------------------------------ losing the commands

  /** Cycles that find no usable command, on a working bus that serves each of them. */
  predicate Abandoned(d: Device, cfg: ValveConfig, cycles: seq<Cycle>, aborts: U32) {
    && (forall n :: 0 <= n < |cycles| ==> !Live(cycles[n]) && cycles[n].svc.initialized && cycles[n].svc.canNormal)
    && (forall n :: 0 <= n < |cycles| ==>
          LiftStop.Served(After(d, cfg, Calls(cycles), n), cfg, Calls(cycles)[n], aborts))
    && Frequent(Calls(cycles))
  }

  lemma SafeDefaultStops(c: Cycle)
    requires !Live(c) && c.svc.initialized && c.svc.canNormal
    ensures StopTick(Tick(c.svc, Executed(c), c.time)) && !PumpRequested(Executed(c))
  {
    hide Live;
  }

  /** When the commands stop coming, the valves are closed by the first such cycle and every
      state of lift and pump is stopped after fourteen of them. */
  lemma AbandonedStops(d: Device, cfg: ValveConfig, cycles: seq<Cycle>, aborts: U32)
    requires Abandoned(d, cfg, cycles, aborts) && |cycles| > STOP_CALLS
    ensures After(d, cfg, Calls(cycles), STOP_CALLS + 1).lift.phase == Stopped
    ensures PumpStopSent(After(d, cfg, Calls(cycles), STOP_CALLS + 1).pump)
    ensures forall n :: 0 < n <= |cycles| ==> After(d, cfg, Calls(cycles), n).pump.openMask == 0
  {
    hide After, Live, Executed, LiftStop.Served, StopTick, PumpRequested, Frequent, PumpStopSent;
    var run := Calls(cycles);
    forall i | 0 <= i < |run| ensures StopTick(run[i]) && !PumpRequested(run[i].cmd) {
      SafeDefaultStops(cycles[i]);
    }
    StopBesidePump(d, cfg, run, aborts);
    forall n | 0 < n <= |cycles| ensures After(d, cfg, run, n).pump.openMask == 0 {
      ClosedWithoutPump(d, cfg, run, n - 1);
    }
  }

  lemma ClosedWithoutPump(d: Device, cfg: ValveConfig, run: seq<Tick>, n: nat)
    requires n < |run| && !PumpRequested(run[n].cmd)
    ensures After(d, cfg, run, n + 1).pump.openMask == 0
  {
    hide DeviceModel.Apply, PumpRequested, Evidence, HoldKept;
    ApplyValves(After(d, cfg, run, n), cfg, run[n].svc, run[n].cmd, At(run[n].time));
  }
}
