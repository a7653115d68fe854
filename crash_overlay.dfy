/** The "blue screen of cat": a reason code and a progress counter that
    advances on its own timer until it reaches 100. */
module CrashOverlay {
  import opened Draws

  const Reasons: seq<string> := [
    "HAIRBALL_OVERFLOW_EXCEPTION",
    "FOOD_BOWL_EMPTY_CRITICAL_ERROR",
    "HUMAN_PET_WRONG_SPOT",
    "CUCUMBER_DETECTED_PANIC",
    "VACUUM_CLEANER_TERROR",
    "BATH_TIME_SYSTEM_FAILURE"
  ]

  const Done: int := 100
  const MinIncrement: int := 5
  const IncrementSpan: nat := 15

  /** The reason shown, picked uniformly from the six codes. */
  function Reason(r: real): (s: string)
    requires IsDraw(r)
    ensures exists k :: (0 <= k < |Reasons| && s == Reasons[k] &&
      k as real <= r * |Reasons| as real < k as real + 1.0)
  {
    Reasons[Bucket(r, |Reasons|)]
  }

  /** `Math.floor(r * 15) + 5`: a whole step of at least 5 and at most 19. */
  function Increment(r: real): (inc: int)
    requires IsDraw(r)
    ensures MinIncrement <= inc <= MinIncrement + IncrementSpan - 1
  {
    Bucket(r, IncrementSpan) + MinIncrement
  }

  /** One firing of the progress timer: add the step, and stop at exactly 100
      once the sum reaches it. */
  function Advance(p: int, r: real): (q: int)
    requires IsDraw(r)
    ensures q <= Done
    ensures q == Done <==> p + Increment(r) >= Done
    ensures q != Done ==> q == p + Increment(r)
  {
    var s := p + Increment(r);
    if s >= Done then Done else s
  }

  /** The crash sequence's progress loop, started at 0, with `draw(i)` the
      draw of the i-th firing. It returns every value the counter takes.
      The counter strictly increases, each value is the previous one advanced
      by that firing's draw, only the last value is 100 (that firing cancels
      the timer), and the timer fires at least 6 and at most 20 times. */
  method RunProgress(draw: nat -> real) returns (trace: seq<int>)
    requires forall i :: IsDraw(draw(i))
    ensures 6 <= |trace| <= 20
    ensures trace[0] == Advance(0, draw(0))
    ensures forall i :: 1 <= i < |trace| ==> trace[i] == Advance(trace[i - 1], draw(i))
    ensures forall i, j :: 0 <= i < j < |trace| ==> trace[i] < trace[j]
    ensures forall i :: 0 <= i < |trace| - 1 ==> trace[i] < Done
    ensures trace[|trace| - 1] == Done
  {
    var progress := 0;
    trace := [];
    while progress < Done
      invariant |trace| <= 20
      invariant progress <= Done
      invariant progress < Done ==> MinIncrement * |trace| <= progress
      invariant progress <= (MinIncrement + IncrementSpan - 1) * |trace|
      invariant trace == [] ==> progress == 0
      invariant trace != [] ==> trace[0] == Advance(0, draw(0)) && trace[|trace| - 1] == progress
      invariant forall i :: 1 <= i < |trace| ==> trace[i] == Advance(trace[i - 1], draw(i))
      invariant forall i, j :: 0 <= i < j < |trace| ==> trace[i] < trace[j]
      invariant forall i :: 0 <= i < |trace| ==> trace[i] <= progress
      invariant forall i :: 0 <= i < |trace| - 1 ==> trace[i] < Done
      decreases Done - progress
    {
      progress := progress + Increment(draw(|trace|));
      if progress >= Done {
        progress := Done;
      }
      trace := trace + [progress];
    }
  }
}
