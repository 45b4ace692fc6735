/** The set-up writes of the lift drives, and what they leave in every drive. */
module LiftSetup {
  import opened CanopenService
  import opened LiftModel

  // ------------------------------------------------------------ what the writes leave

  /** The objects of one drive after a sequence of writes; later ones win. */
  function Replayed(writes: seq<SdoWrite>, leg: nat): map<SdoObject, int> {
    if writes == [] then map[]
    else
      var before, w := Replayed(writes[..|writes| - 1], leg), writes[|writes| - 1];
      if w.leg == leg then before[w.entry := w.value] else before
  }

  lemma OneMore(writes: seq<SdoWrite>, w: SdoWrite, leg: nat)
    ensures Replayed(writes + [w], leg)
            == if w.leg == leg then Replayed(writes, leg)[w.entry := w.value] else Replayed(writes, leg)
  {
    assert (writes + [w])[..|writes|] == writes;
  }

  predicate ForLeg(writes: seq<SdoWrite>, leg: nat) {
    forall w :: w in writes ==> w.leg == leg
  }

  lemma {:induction false} Foreign(writes: seq<SdoWrite>, more: seq<SdoWrite>, other: nat, leg: nat)
    requires ForLeg(more, other) && other != leg
    ensures Replayed(writes + more, leg) == Replayed(writes, leg)
    decreases |more|
  {
    if more == [] {
      assert writes + more == writes;
    } else {
      var n := |more| - 1;
      assert writes + more == (writes + more[..n]) + [more[n]];
      OneMore(writes + more[..n], more[n], leg);
      Foreign(writes, more[..n], other, leg);
    }
  }

  lemma {:induction false} OwnAfter(writes: seq<SdoWrite>, more: seq<SdoWrite>, leg: nat)
    requires Replayed(writes, leg) == map[]
    ensures Replayed(writes + more, leg) == Replayed(more, leg)
    decreases |more|
  {
    if more == [] {
      assert writes + more == writes;
    } else {
      var n := |more| - 1;
      assert writes + more == (writes + more[..n]) + [more[n]];
      assert more == more[..n] + [more[n]];
      OneMore(writes + more[..n], more[n], leg);
      OneMore(more[..n], more[n], leg);
      OwnAfter(writes, more[..n], leg);
    }
  }

  lemma LegWritesOwn(leg: nat, f: NodeFeedback, enable: bool)
    ensures ForLeg(LegWrites(leg, f, enable), leg)
  {
  }

  /** Among the writes of the legs below `legs`, a drive sees just its own. */
  lemma {:induction false} SetupWritesOwn(feedback: LegFeedback, enable: bool, legs: nat, leg: nat)
    requires legs <= 4 && leg < 4
    ensures Replayed(SetupWrites(feedback, enable, legs), leg)
            == if leg < legs then Replayed(LegWrites(leg, feedback[leg], enable), leg) else map[]
  {
    hide LegWrites;
    if legs > 0 {
      SetupWritesOwn(feedback, enable, legs - 1, leg);
      var last := LegWrites(legs - 1, feedback[legs - 1], enable);
      LegWritesOwn(legs - 1, feedback[legs - 1], enable);
      if legs - 1 == leg {
        OwnAfter(SetupWrites(feedback, enable, legs - 1), last, leg);
      } else {
        Foreign(SetupWrites(feedback, enable, legs - 1), last, legs - 1, leg);
      }
    }
  }

  /** The drive stays disabled, but ready to be switched on if that is what the set-up is
      for; it interpolates positions, with points every 20 ms and an empty buffer; and a
      latched fault has been acknowledged by its own word. */
  predicate Configured(m: map<SdoObject, int>, f: NodeFeedback, enable: bool) {
    && {Controlword, InterpolationOption, ModesOfOperation, InterpolationMode, InterpolationPeriod,
        BufferClear} <= m.Keys
    && m[Controlword] == (if enable then 0x0006 else 0x0000)
    && m[ModesOfOperation] == 7 && m[InterpolationMode] == 0 && m[InterpolationOption] == 0x1E
    && m[InterpolationPeriod] == 20 && m[BufferClear] == 0
    && (if f.readable && f.tpdo1Valid && f.faultWord != 0 then FaultLatched in m.Keys && m[FaultLatched] == f.faultWord
        else FaultLatched !in m.Keys)
    && (enable ==> Profiled(m))
  }

  /** The limits a drive that is going to move has been given. */
  predicate Profiled(m: map<SdoObject, int>) {
    && {ProfileVelocity, ProfileAcceleration, ProfileDeceleration, FollowingErrorWindow} <= m.Keys
    && m[ProfileVelocity] == 53000000 && m[ProfileAcceleration] == 250000 == m[ProfileDeceleration]
    && m[FollowingErrorWindow] == 2621440
  }

  /** The fault acknowledgement that comes first, if there is a fault. */
  function Acknowledged(leg: nat, f: NodeFeedback): seq<SdoWrite> {
    if HardFault(f) then [SdoWrite(leg, FaultLatched, f.faultWord)] else []
  }

  function Common(leg: nat): seq<SdoWrite> {
    [SdoWrite(leg, Controlword, DISABLE_VOLTAGE), SdoWrite(leg, Controlword, FAULT_RESET),
     SdoWrite(leg, Controlword, SHUTDOWN), SdoWrite(leg, InterpolationOption, 0x1E),
     SdoWrite(leg, ModesOfOperation, 7), SdoWrite(leg, InterpolationMode, 0),
     SdoWrite(leg, InterpolationPeriod, 20), SdoWrite(leg, BufferClear, 0)]
  }

  function Tail(leg: nat, enable: bool): seq<SdoWrite> {
    if enable then
      [SdoWrite(leg, ProfileVelocity, 53000000), SdoWrite(leg, ProfileAcceleration, 250000),
       SdoWrite(leg, ProfileDeceleration, 250000), SdoWrite(leg, FollowingErrorWindow, FOLLOWING_WINDOW)]
    else [SdoWrite(leg, Controlword, DISABLE_VOLTAGE)]
  }

  lemma WritesParts(leg: nat, f: NodeFeedback, enable: bool)
    ensures LegWrites(leg, f, enable) == Acknowledged(leg, f) + Common(leg) + Tail(leg, enable)
  {
  }

  function Set(m: map<SdoObject, int>, w: SdoWrite): map<SdoObject, int> {
    m[w.entry := w.value]
  }

  lemma FourMore(before: seq<SdoWrite>, a: SdoWrite, b: SdoWrite, c: SdoWrite, d: SdoWrite, leg: nat)
    requires a.leg == b.leg == c.leg == d.leg == leg
    ensures Replayed(before + [a, b, c, d], leg) == Set(Set(Set(Set(Replayed(before, leg), a), b), c), d)
  {
    hide Replayed;
    OneMore(before, a, leg);
    OneMore(before + [a], b, leg);
    OneMore(before + [a] + [b], c, leg);
    OneMore(before + [a] + [b] + [c], d, leg);
    assert before + [a, b, c, d] == before + [a] + [b] + [c] + [d];
  }

  lemma AcknowledgedLeaves(leg: nat, f: NodeFeedback)
    ensures Replayed(Acknowledged(leg, f), leg) == if HardFault(f) then map[FaultLatched := f.faultWord] else map[]
  {
    if HardFault(f) {
      OneMore([], SdoWrite(leg, FaultLatched, f.faultWord), leg);
      assert [] + Acknowledged(leg, f) == Acknowledged(leg, f);
    }
  }

  /** The objects after the writes common to both kinds of set-up. */
  predicate Interpolates(m: map<SdoObject, int>, start: map<SdoObject, int>) {
    && m.Keys == start.Keys + {Controlword, InterpolationOption, ModesOfOperation, InterpolationMode,
                               InterpolationPeriod, BufferClear}
    && m[Controlword] == 6 && m[InterpolationOption] == 0x1E && m[ModesOfOperation] == 7
    && m[InterpolationMode] == 0 && m[InterpolationPeriod] == 20 && m[BufferClear] == 0
    && (FaultLatched in start ==> m[FaultLatched] == start[FaultLatched])
  }

  lemma CommonLeaves(before: seq<SdoWrite>, leg: nat)
    ensures Interpolates(Replayed(before + Common(leg), leg), Replayed(before, leg))
  {
    hide Replayed;
    var w := Common(leg);
    FourMore(before, w[0], w[1], w[2], w[3], leg);
    FourMore(before + [w[0], w[1], w[2], w[3]], w[4], w[5], w[6], w[7], leg);
    assert before + w == before + [w[0], w[1], w[2], w[3]] + [w[4], w[5], w[6], w[7]];
  }

  lemma TailLeaves(before: seq<SdoWrite>, leg: nat, enable: bool)
    ensures Replayed(before + Tail(leg, enable), leg)
            == if enable then
                 Replayed(before, leg)[ProfileVelocity := 53000000][ProfileAcceleration := 250000]
                   [ProfileDeceleration := 250000][FollowingErrorWindow := 2621440]
               else Replayed(before, leg)[Controlword := 0]
  {
    hide Replayed;
    var w := Tail(leg, enable);
    if enable {
      FourMore(before, w[0], w[1], w[2], w[3], leg);
      assert w == [w[0], w[1], w[2], w[3]];
    } else {
      OneMore(before, w[0], leg);
    }
  }

  lemma LegConfigured(leg: nat, f: NodeFeedback, enable: bool)
    ensures Configured(Replayed(LegWrites(leg, f, enable), leg), f, enable)
  {
    hide Replayed, Acknowledged, Common, Tail, LegWrites;
    WritesParts(leg, f, enable);
    AcknowledgedLeaves(leg, f);
    CommonLeaves(Acknowledged(leg, f), leg);
    TailLeaves(Acknowledged(leg, f) + Common(leg), leg, enable);
  }

  /** The writes of one set-up leave every drive configured, whatever it was before. */
  lemma SetupConfigures(feedback: LegFeedback, enable: bool, leg: nat)
    requires leg < 4
    ensures Configured(Replayed(SetupWrites(feedback, enable, 4), leg), feedback[leg], enable)
  {
    hide Replayed, LegWrites, Configured;
    SetupWritesOwn(feedback, enable, 4, leg);
    LegConfigured(leg, feedback[leg], enable);
  }

  /** A latched fault is acknowledged first; then the drive is disabled, its fault reset and
      the drive shut down, before anything is changed; and no word enables it. */
  lemma WordsInOrder(leg: nat, f: NodeFeedback, enable: bool)
    ensures var w, first := LegWrites(leg, f, enable), if HardFault(f) then 1 else 0;
      && |w| >= first + 3
      && (HardFault(f) ==> w[0] == SdoWrite(leg, FaultLatched, f.faultWord))
      && w[first..first + 3]
         == [SdoWrite(leg, Controlword, 0x0000), SdoWrite(leg, Controlword, 0x0080), SdoWrite(leg, Controlword, 0x0006)]
      && forall i :: first + 3 <= i < |w| && w[i].entry == Controlword ==>
           !enable && i == |w| - 1 && w[i].value == 0x0000
  {
    hide Acknowledged, Tail;
    WritesParts(leg, f, enable);
    AcknowledgedIs(leg, f);
    TailIs(leg, enable);
    var a, c, t := Acknowledged(leg, f), Common(leg), Tail(leg, enable);
    assert (a + c + t)[|a|..|a| + 3] == c[..3];
  }

  lemma AcknowledgedIs(leg: nat, f: NodeFeedback)
    ensures |Acknowledged(leg, f)| == if HardFault(f) then 1 else 0
    ensures HardFault(f) ==> Acknowledged(leg, f)[0] == SdoWrite(leg, FaultLatched, f.faultWord)
  {
  }

  lemma TailIs(leg: nat, enable: bool)
    ensures var t := Tail(leg, enable);
      if enable then forall w :: w in t ==> w.entry != Controlword else t == [SdoWrite(leg, Controlword, 0x0000)]
  {
  }
}
