/** The progress observer over any series of looks at four travelling legs: what it goes by
    for each leg, and when it reports a stall. */
module LiftProgress {
  import opened Clock
  import opened Legs
  import opened LiftModel

  /** One look: where the legs are, and when. */
  datatype Look = Look(position: Quad, now: U32)

  /** The observer after the first n looks. */
  function WatchAfter(w: Watch, looks: seq<Look>, target: int, n: nat): Watch
    requires n <= |looks|
  {
    if n == 0 then w
    else Watched(WatchAfter(w, looks, target, n - 1), looks[n - 1].position, target, looks[n - 1].now)
  }

  /** A stall is reported in look n. */
  predicate StallAt(w: Watch, looks: seq<Look>, target: int, n: nat)
    requires n < |looks|
  {
    Stalled(WatchAfter(w, looks, target, n), looks[n].position, target, looks[n].now)
  }

  /** From one look to a later one the leg gets nowhere: it has moved by less than 13,107
      counts, and is more than 3 mm away from its target. */
  predicate Idle(from: Look, to: Look, target: int, leg: nat)
    requires leg < 4
  {
    Abs(to.position[leg] - from.position[leg]) < 13107 && Abs(to.position[leg] - target) > 786432
  }

  /** Since look m the leg has been nowhere, in all looks before n. */
  predicate IdleSince(looks: seq<Look>, target: int, leg: nat, m: nat, n: nat)
    requires leg < 4 && n <= |looks|
  {
    m < n && forall j :: m < j < n ==> Idle(looks[m], looks[j], target, leg)
  }

  /** The observer goes by look m for this leg. */
  predicate GoesBy(w: Watch, looks: seq<Look>, leg: nat, m: nat)
    requires leg < 4 && m < |looks|
  {
    w.started && w.position[leg] == looks[m].position[leg] && w.stamp[leg] == looks[m].now
  }

  lemma LegMovingIs(w: Watch, looks: seq<Look>, target: int, leg: nat, m: nat, n: nat)
    requires leg < 4 && m < n < |looks| && GoesBy(w, looks, leg, m)
    ensures LegMoving(w, looks[n].position, target, leg) <==> !Idle(looks[m], looks[n], target, leg)
    ensures LegStalled(w, looks[n].position, target, looks[n].now, leg)
            <==> Idle(looks[m], looks[n], target, leg) && Elapsed(looks[n].now, looks[m].now) >= 5000
  {
    hide Elapsed;
  }

  lemma WatchedLeg(w: Watch, look: Look, target: int, leg: nat)
    requires leg < 4
    ensures var t := Watched(w, look.position, target, look.now);
      && t.started
      && if !w.started || Stalled(w, look.position, target, look.now) || LegMoving(w, look.position, target, leg) then
           t.position[leg] == look.position[leg] && t.stamp[leg] == look.now
         else t.position[leg] == w.position[leg] && t.stamp[leg] == w.stamp[leg]
  {
    hide LegMoving, Stalled;
  }

  /** For every leg the observer goes by one look since which that leg has been nowhere; and
      that is the first look, one in which the leg had got somewhere, or one with a stall. */
  lemma {:induction false} MarkOf(w: Watch, looks: seq<Look>, target: int, leg: nat, n: nat) returns (m: nat)
    requires !w.started && leg < 4 && 0 < n <= |looks|
    ensures IdleSince(looks, target, leg, m, n) && GoesBy(WatchAfter(w, looks, target, n), looks, leg, m)
    ensures m == 0 || StallAt(w, looks, target, m) || Progressed(w, looks, target, leg, m)
    decreases n
  {
    hide Watched, Stalled, LegMoving, LegStalled, Idle;
    var before := WatchAfter(w, looks, target, n - 1);
    WatchedLeg(before, looks[n - 1], target, leg);
    if n == 1 {
      m := 0;
    } else {
      m := MarkOf(w, looks, target, leg, n - 1);
      LegMovingIs(before, looks, target, leg, m, n - 1);
      if StallAt(w, looks, target, n - 1) || !Idle(looks[m], looks[n - 1], target, leg) {
        m := n - 1;
      }
    }
  }

  /** In look m the leg had got somewhere since an earlier one. */
  predicate Progressed(w: Watch, looks: seq<Look>, target: int, leg: nat, m: nat)
    requires leg < 4 && m < |looks|
  {
    exists i :: 0 <= i < m && IdleSince(looks, target, leg, i, m) && !Idle(looks[i], looks[m], target, leg)
  }

  /** Some leg has been nowhere up to and including look n, for five seconds at least since
      the look the observer goes by. */
  predicate LegIdles(w: Watch, looks: seq<Look>, target: int, leg: nat, n: nat)
    requires leg < 4 && n < |looks|
  {
    exists m :: 0 <= m < n && GoesBy(WatchAfter(w, looks, target, n), looks, leg, m)
                && IdleSince(looks, target, leg, m, n + 1) && Elapsed(looks[n].now, looks[m].now) >= 5000
  }

  /** Over every series of looks: a stall is reported in a look exactly when some leg has
      been nowhere for five seconds. */
  lemma StallsExactly(w: Watch, looks: seq<Look>, target: int, n: nat)
    requires !w.started && n < |looks|
    ensures StallAt(w, looks, target, n) <==> exists leg :: 0 <= leg < 4 && LegIdles(w, looks, target, leg, n)
  {
    hide WatchAfter, Elapsed, Idle, LegMoving, LegStalled, LegIdles;
    var t := WatchAfter(w, looks, target, n);
    StartsUnstarted(w, looks, target, n);
    forall leg | 0 <= leg < 4
      ensures t.started ==> (LegStalled(t, looks[n].position, target, looks[n].now, leg)
                             <==> LegIdles(w, looks, target, leg, n))
      ensures !t.started ==> !LegIdles(w, looks, target, leg, n)
    {
      LegIdlesExactly(w, looks, target, leg, n);
    }
  }

  lemma StartsUnstarted(w: Watch, looks: seq<Look>, target: int, n: nat)
    requires !w.started && n < |looks|
    ensures WatchAfter(w, looks, target, n).started <==> n > 0
  {
  }

  lemma LegIdlesExactly(w: Watch, looks: seq<Look>, target: int, leg: nat, n: nat)
    requires !w.started && leg < 4 && n < |looks|
    ensures var t := WatchAfter(w, looks, target, n);
      && (t.started ==> (LegStalled(t, looks[n].position, target, looks[n].now, leg)
                         <==> LegIdles(w, looks, target, leg, n)))
      && (!t.started ==> !LegIdles(w, looks, target, leg, n))
  {
    hide WatchAfter, Elapsed, Idle, LegMoving, LegStalled;
    var t := WatchAfter(w, looks, target, n);
    StartsUnstarted(w, looks, target, n);
    if n > 0 {
      var m := MarkOf(w, looks, target, leg, n);
      LegMovingIs(t, looks, target, leg, m, n);
      forall i | 0 <= i < n && GoesBy(t, looks, leg, i)
        ensures LegStalled(t, looks[n].position, target, looks[n].now, leg)
                <==> Idle(looks[i], looks[n], target, leg) && Elapsed(looks[n].now, looks[i].now) >= 5000
      {
        LegMovingIs(t, looks, target, leg, i, n);
      }
    }
  }

  // ------------------------------------------------------------ what a stall does

  /** The leg has been nowhere since the look the observer goes by, five seconds ago. */
  predicate Stands5(w: Watch, position: Quad, target: int, now: U32, leg: nat)
    requires leg < 4
  {
    && Abs(position[leg] - target) > 786432 && Abs(position[leg] - w.position[leg]) < 13107
    && Elapsed(now, w.stamp[leg]) >= 5000
  }

  /** A stall stops nothing: it only takes back the mark of having arrived. */
  lemma StallOnlyUnmarks(l: Lift, target: int, now: U32)
    ensures var k := ProgressSeen(l, target, now);
      && k == l.(watch := k.watch, atTarget := k.atTarget)
      && (k.atTarget <==> l.atTarget
                          && !(l.watch.started
                               && exists i :: 0 <= i < 4 && Stands5(l.watch, l.axes.position, target, now, i)))
  {
    hide Elapsed, Watched;
    forall i | 0 <= i < 4
      ensures LegStalled(l.watch, l.axes.position, target, now, i)
              <==> Stands5(l.watch, l.axes.position, target, now, i)
    {
    }
  }
}
