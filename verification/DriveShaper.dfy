/** Four-axis drive velocity shaping: one common ramp step, and a reversal rule. */
module DriveShaper {
  import opened Legs
  import opened SteeringShaper

  const DEADBAND := 80000
  const SMALL_ERROR := 250000
  const MEDIUM_ERROR := 1000000
  const SMALL_RATE := 600000
  const MEDIUM_RATE := 1200000
  const LARGE_RATE := 2000000
  const REVERSAL_RATE := 500000
  const MIN_STEP := 1000
  const MAX_DRIVE_ELAPSED_MS: nat := 40

  predicate AxisReverses(current: int, requested: int) {
    (current > DEADBAND && requested < -DEADBAND) || (current < -DEADBAND && requested > DEADBAND)
  }

  predicate Reverses(current: Quad, requested: Quad) {
    exists i :: 0 <= i < 4 && AxisReverses(current[i], requested[i])
  }

  /** During a reversal the whole group is sent towards zero. */
  function Effective(current: Quad, requested: Quad): Quad {
    if Reverses(current, requested) then Same(0) else requested
  }

  function Rate(maximum: nat, reversing: bool): int {
    if reversing then REVERSAL_RATE
    else if maximum <= SMALL_ERROR then SMALL_RATE
    else if maximum <= MEDIUM_ERROR then MEDIUM_RATE
    else LARGE_RATE
  }

  function RampStep(maximum: nat, reversing: bool, elapsed: nat): int {
    Max(Rate(maximum, reversing) * BoundedElapsed(elapsed, MAX_DRIVE_ELAPSED_MS) / 1000, MIN_STEP)
  }

  /** One axis's share of the common step. */
  function Share(current: int, requested: int, maximum: nat, step: int): int
    requires maximum > 0
  {
    var error := requested - current;
    var scaled := Quotient(error * step, maximum);
    var signed := if scaled == 0 && error > 0 then 1 else if scaled == 0 && error < 0 then -1 else scaled;
    var next := current + signed;
    if (error > 0 && next > requested) || (error < 0 && next < requested) then requested else next
  }

  /** The group moved towards its request so that the largest error loses one step. */
  function Advanced(current: Quad, requested: Quad, maximum: nat, step: int): Quad {
    if maximum == 0 || step >= maximum then requested
    else seq(4, i requires 0 <= i < 4 => Share(current[i], requested[i], maximum, step))
  }

  /** One call of the drive shaper. */
  function Driven(current: Quad, requested: Quad, elapsed: nat): Quad {
    var effective := Effective(current, requested);
    var maximum := MaxError(current, effective);
    Advanced(current, effective, maximum, RampStep(maximum, Reverses(current, requested), elapsed))
  }

  // ------------------------------------------------------------------ the C functions

  method GroupRequestsReversal(current: array<int>, requested: array<int>) returns (reversing: bool)
    requires current.Length == 4 && requested.Length == 4
    ensures reversing == Reverses(current[..], requested[..])
  {
    for wheel := 0 to 4
      invariant forall i :: 0 <= i < wheel ==> !AxisReverses(current[..][i], requested[..][i])
    {
      if AxisReverses(current[wheel], requested[wheel]) {
        assert AxisReverses(current[..][wheel], requested[..][wheel]);
        return true;
      }
    }
    return false;
  }

  method CopyGroup(source: array<int>, destination: array<int>)
    requires source.Length == 4 && destination.Length == 4
    modifies destination
    ensures destination[..] == old(source[..])
  {
    for wheel := 0 to 4
      invariant forall i :: 0 <= i < wheel ==> destination[i] == old(source[i])
      invariant forall i :: wheel <= i < 4 ==> source[i] == old(source[i])
    {
      destination[wheel] := source[wheel];
    }
  }

  /** Works in place: the output may be the array of current values. */
  method AdvanceGroup(current: array<int>, requested: array<int>, maximum: nat, step: int, output: array<int>)
    requires current.Length == 4 && requested.Length == 4 && output.Length == 4 && requested != output
    modifies output
    ensures output[..] == Advanced(old(current[..]), old(requested[..]), maximum, step)
  {
    if maximum == 0 || step >= maximum {
      CopyGroup(requested, output);
      return;
    }
    ghost var result := Advanced(current[..], requested[..], maximum, step);
    for wheel := 0 to 4
      invariant forall i :: 0 <= i < wheel ==> output[i] == result[i]
      invariant forall i :: wheel <= i < 4 ==> current[i] == old(current[i])
      invariant requested[..] == old(requested[..])
    {
      var error := requested[wheel] - current[wheel];
      var scaled := Quotient(error * step, maximum);
      if scaled == 0 && error != 0 {
        scaled := if error > 0 then 1 else -1;
      }
      var next := current[wheel] + scaled;
      if (error > 0 && next > requested[wheel]) || (error < 0 && next < requested[wheel]) {
        next := requested[wheel];
      }
      assert next == Share(old(current[..])[wheel], old(requested[..])[wheel], maximum, step);
      output[wheel] := next;
    }
    assert output[..] == result;
  }

  /** Shape one drive group in place; the arrays may be shared. */
  method ShapeDriveGroup(current: array?<int>, requested: array?<int>, elapsed: nat, output: array?<int>)
      returns (ok: bool, reversing: bool)
    requires current != null ==> current.Length == 4
    requires requested != null ==> requested.Length == 4
    requires output != null ==> output.Length == 4
    modifies output
    ensures ok == (current != null && requested != null && output != null)
    ensures ok ==> reversing == Reverses(old(current[..]), old(requested[..]))
    ensures ok ==> output[..] == Driven(old(current[..]), old(requested[..]), elapsed)
    ensures !ok && output != null ==> output[..] == old(output[..])
  {
    hide Advanced, Reverses, MaxError;
    if current == null || requested == null || output == null {
      return false, false;
    }
    reversing := GroupRequestsReversal(current, requested);
    var effective := new int[4];
    for wheel := 0 to 4
      invariant forall i :: 0 <= i < wheel ==> effective[i] == if reversing then 0 else requested[i]
      invariant current[..] == old(current[..]) && requested[..] == old(requested[..])
    {
      effective[wheel] := if reversing then 0 else requested[wheel];
    }
    assert effective[..] == Effective(old(current[..]), old(requested[..]));
    var maximum := MaxAbsError(current, effective);
    if maximum == 0 {
      CopyGroup(effective, output);
      ZeroErrorCopies(old(current[..]), effective[..], RampStep(maximum, reversing, elapsed));
      return true, reversing;
    }
    var step := Rate(maximum, reversing) * BoundedElapsed(elapsed, MAX_DRIVE_ELAPSED_MS) / 1000;
    if step < MIN_STEP {
      step := MIN_STEP;
    }
    AdvanceGroup(current, effective, maximum, step, output);
    return true, reversing;
  }

  lemma ZeroErrorCopies(current: Quad, requested: Quad, step: int)
    ensures Advanced(current, requested, 0, step) == requested
  {
  }
}
