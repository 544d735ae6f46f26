/** The wheel's state object and its target angles, and how they read against both digit layouts. */
module WheelEngine {
  import opened Prelude
  import opened Wheel
  import Decimal

  /** The angle to spin to: the next one ahead that shows segment `digit`, plus whole extra turns. */
  function CalculateTargetAngle(digit: Digit, current: real, extra: nat): real {
    var desiredBase := Remainder(360.0 - digit as real * SEGMENT_DEG, 360.0);
    var diff := desiredBase - Mod360(current);
    current + (if diff < 0.0 then diff + 360.0 else diff) + extra as real * 360.0
  }

  lemma DesiredBaseIs(digit: Digit)
    ensures Remainder(360.0 - digit as real * SEGMENT_DEG, 360.0) == if digit == 0 then 0.0
              else 360.0 - 36.0 * digit as real
  {
    FloorIs((360.0 - digit as real * SEGMENT_DEG) / 360.0, if digit == 0 then 1 else 0);
  }

  /** At any whole number of turns past a segment's place, that segment is the one read. */
  lemma ReadsSegment(angle: real, turns: int, digit: Digit)
    requires angle == 360.0 * turns as real - 36.0 * digit as real
    ensures SegmentAtPointer(angle) == digit && Mod360(-angle) == 36.0 * digit as real
  {
    hide Mod360, SegmentAtPointer;
    Mod360Is(-angle, -turns, 36.0 * digit as real);
    SegmentReads(angle, 36.0 * digit as real, digit);
  }

  /** A spin makes its extra turns and less than one more, and stops with segment `digit` under the pointer. */
  lemma TargetAngle(digit: Digit, current: real, extra: nat)
    ensures var target := CalculateTargetAngle(digit, current, extra);
      && 360.0 * extra as real <= target - current < 360.0 * (extra as real + 1.0)
      && Mod360(-target) == 36.0 * digit as real
      && SegmentAtPointer(target) == digit
  {
    hide Mod360, Remainder, SegmentAtPointer;
    var target := CalculateTargetAngle(digit, current, extra);
    var k := Mod360Turns(current);
    DesiredBaseIs(digit);
    var base := if digit == 0 then 0.0 else 360.0 - 36.0 * digit as real;
    var turns := k + extra + (if digit == 0 then 0 else 1) + (if base < Mod360(current) then 1 else 0);
    ReadsSegment(target, turns, digit);
  }

  /**
   * The engine counts segments 0 to 9 clockwise. Read with the rings' own digit orders instead, its target
   * shows the digit asked for in two cases only: 1 and 8 on the middle ring.
   */
  lemma ShowsDigitExactly(ring: Ring, digit: Digit, current: real, extra: nat)
    ensures DigitAtPointer(ring, CalculateTargetAngle(digit, current, extra)) == digit <==> ring == 1 && digit in {1, 8}
  {
    hide CalculateTargetAngle, SegmentAtPointer;
    TargetAngle(digit, current, extra);
  }

  /** Asked for 0 from rest, the engine leaves the outer ring on its digit 5, not on 0. */
  lemma ShowsWrongDigit()
    ensures DigitAtPointer(0, CalculateTargetAngle(0, 0.0, 5)) == 5
  {
    hide CalculateTargetAngle, SegmentAtPointer;
    TargetAngle(0, 0.0, 5);
  }

  /** A ring's angle after spinning to each digit in turn. */
  function SpinAll(start: real, digits: seq<Digit>, extra: nat): real {
    if digits == [] then start
    else CalculateTargetAngle(digits[|digits| - 1], SpinAll(start, digits[..|digits| - 1], extra), extra)
  }

  /** Over any number of spins from any angle nothing drifts: the last digit asked for is under the pointer. */
  lemma {:induction false} SpinsAccumulate(start: real, digits: seq<Digit>, extra: nat)
    requires digits != []
    ensures SegmentAtPointer(SpinAll(start, digits, extra)) == digits[|digits| - 1]
    ensures Mod360(-SpinAll(start, digits, extra)) == 36.0 * digits[|digits| - 1] as real
    ensures var ahead, spins := SpinAll(start, digits, extra) - start, |digits|;
      360.0 * (extra * spins) as real <= ahead < 360.0 * ((extra + 1) * spins) as real
  {
    hide CalculateTargetAngle, SegmentAtPointer, Mod360;
    var before := digits[..|digits| - 1];
    TargetAngle(digits[|digits| - 1], SpinAll(start, before, extra), extra);
    if before == [] {
      assert SpinAll(start, before, extra) == start;
    } else {
      SpinsAccumulate(start, before, extra);
    }
    assert extra * |digits| == extra * |before| + extra;
    assert (extra + 1) * |digits| == (extra + 1) * |before| + extra + 1;
  }

  datatype AnimationState = Idle | Active | Rotating | Slowing | ResultAlignment | FinalResult

  datatype Target = Target(triple: Digit, double: Digit, single: Digit)

  function Shown(target: Target): string {
    [Decimal.DigitChar(target.triple), Decimal.DigitChar(target.double), Decimal.DigitChar(target.single)]
  }

  class WheelEngine {
    var state: AnimationState
    var outerAngle: real
    var middleAngle: real
    var innerAngle: real
    var currentResult: Option<string>
    var targetResult: Option<Target>

    constructor ()
      ensures state == Idle && outerAngle == 0.0 && middleAngle == 0.0 && innerAngle == 0.0
      ensures currentResult == None && targetResult == None
    {
      state, outerAngle, middleAngle, innerAngle := Idle, 0.0, 0.0, 0.0;
      currentResult, targetResult := None, None;
    }

    method SetAngles(outer: real, middle: real, inner: real)
      modifies `outerAngle, `middleAngle, `innerAngle
      ensures outerAngle == outer && middleAngle == middle && innerAngle == inner
    {
      outerAngle, middleAngle, innerAngle := outer, middle, inner;
    }

    /** Starts a spin; every ring will stop ahead, on the segment asked for, the outer one after the most turns. */
    method SetTargetResult(target: Target) returns (targetOuter: real, targetMiddle: real, targetInner: real)
      modifies `targetResult, `state, `currentResult
      ensures targetResult == Some(target) && state == Rotating && currentResult == None
      ensures 1800.0 <= targetOuter - outerAngle < 2160.0 && SegmentAtPointer(targetOuter) == target.triple
      ensures Mod360(-targetOuter) == 36.0 * target.triple as real
      ensures 1440.0 <= targetMiddle - middleAngle < 1800.0 && SegmentAtPointer(targetMiddle) == target.double
      ensures Mod360(-targetMiddle) == 36.0 * target.double as real
      ensures 1080.0 <= targetInner - innerAngle < 1440.0 && SegmentAtPointer(targetInner) == target.single
      ensures Mod360(-targetInner) == 36.0 * target.single as real
    {
      hide SegmentAtPointer, CalculateTargetAngle, Mod360;
      targetResult := Some(target);
      state := Rotating;
      currentResult := None;
      targetOuter := CalculateTargetAngle(target.triple, outerAngle, 5);
      targetMiddle := CalculateTargetAngle(target.double, middleAngle, 4);
      targetInner := CalculateTargetAngle(target.single, innerAngle, 3);
      TargetAngle(target.triple, outerAngle, 5);
      TargetAngle(target.double, middleAngle, 4);
      TargetAngle(target.single, innerAngle, 3);
    }

    method FinalizeResult()
      modifies `currentResult, `state
      ensures targetResult.None? ==> currentResult == old(currentResult) && state == old(state)
      ensures targetResult.Some? ==> currentResult == Some(Shown(targetResult.value)) && state == FinalResult
    {
      if targetResult.Some? {
        currentResult := Some(Shown(targetResult.value));
        state := FinalResult;
      }
    }

    method Reset()
      modifies `state, `currentResult, `targetResult
      ensures state == Idle && currentResult == None && targetResult == None
    {
      state, currentResult, targetResult := Idle, None, None;
    }

    /** The container's use of the engine for one result: at the end the text shown is what the pointer reads. */
    method Spin(target: Target)
      modifies this
      ensures currentResult == Some(Shown(target)) && state == FinalResult
      ensures currentResult == Some([Decimal.DigitChar(SegmentAtPointer(outerAngle)),
                                     Decimal.DigitChar(SegmentAtPointer(middleAngle)),
                                     Decimal.DigitChar(SegmentAtPointer(innerAngle))])
      ensures SegmentAtPointer(outerAngle) == target.triple
      ensures SegmentAtPointer(middleAngle) == target.double
      ensures SegmentAtPointer(innerAngle) == target.single
      ensures outerAngle >= old(outerAngle) + 1800.0 && middleAngle >= old(middleAngle) + 1440.0
      ensures innerAngle >= old(innerAngle) + 1080.0
    {
      hide SegmentAtPointer, Mod360;
      var targetOuter, targetMiddle, targetInner := SetTargetResult(target);
      SetAngles(targetOuter, targetMiddle, targetInner);
      FinalizeResult();
    }
  }
}
