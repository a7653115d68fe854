/** Vital stats: the attention level and the current priority. */
module Vitals {
  import opened Draws

  const MaxAttention: real := 100.0
  const CriticalAttention: real := 20.0
  const YarnBoost: real := 10.0
  const LostInterestPenalty: real := 20.0
  const MaxDecay: real := 5.0

  /** One decay tick: `attention -= r * 5`, then raised to 0 if it went below.
      Whatever the attention was before (a lost-interest penalty can leave it
      negative), the result is at least 0. */
  function Decayed(a: real, r: real): (b: real)
    requires IsDraw(r)
    ensures 0.0 <= b
    ensures a - MaxDecay < b
    ensures b == 0.0 || b == a - r * MaxDecay
    ensures a - r * MaxDecay <= b
  {
    var d := a - r * MaxDecay;
    if d < 0.0 then 0.0 else d
  }

  /** The yarn action: `attention += 10`, then lowered to 100 if it went above. */
  function Boosted(a: real): (b: real)
    ensures b <= MaxAttention
    ensures b <= a + YarnBoost
    ensures b == MaxAttention || b == a + YarnBoost
  {
    var g := a + YarnBoost;
    if g > MaxAttention then MaxAttention else g
  }

  /** The two clamped ways attention changes. */
  datatype Stimulus = DecayTick(draw: real) | YarnPlay

  predicate DrawsOk(ss: seq<Stimulus>) {
    forall i :: 0 <= i < |ss| && ss[i].DecayTick? ==> IsDraw(ss[i].draw)
  }

  function Apply(a: real, s: Stimulus): real
    requires s.DecayTick? ==> IsDraw(s.draw)
  {
    match s
    case DecayTick(r) => Decayed(a, r)
    case YarnPlay => Boosted(a)
  }

  /** The attention after the stimuli, in order. */
  function Replay(a: real, ss: seq<Stimulus>): real
    requires DrawsOk(ss)
    decreases |ss|
  {
    if ss == [] then a
    else
      var last := ss[|ss| - 1];
      Apply(Replay(a, ss[..|ss| - 1]), last)
  }

  /** Decay and yarn together keep attention within [0, 100]. */
  lemma {:induction false} ReplayStaysInRange(a: real, ss: seq<Stimulus>)
    requires 0.0 <= a <= MaxAttention && DrawsOk(ss)
    ensures 0.0 <= Replay(a, ss) <= MaxAttention
    decreases |ss|
  {
    if ss != [] {
      var init := ss[..|ss| - 1];
      assert DrawsOk(init) by {
        forall i | 0 <= i < |init| && init[i].DecayTick? ensures IsDraw(init[i].draw) {
          assert init[i] == ss[i];
        }
      }
      ReplayStaysInRange(a, init);
    }
  }

  datatype Priority = Food | Chaos | Sleep | Affection

  /** `this.priorities`, in the order of the weights below. */
  const Priorities: seq<Priority> := [Food, Chaos, Sleep, Affection]

  /** The priority redraw: cumulative thresholds 0.4, 0.65 and 0.85. */
  function PriorityFor(r: real): (p: Priority)
    ensures var k := PriorityIndex(p);
      && (k == 0 || Sum(PriorityWeights[..k]) <= r)
      && (k == |Priorities| - 1 || r < Sum(PriorityWeights[..k + 1]))
  {
    CumulativeWeights();
    if r < 0.4 then Food
    else if r < 0.65 then Chaos
    else if r < 0.85 then Sleep
    else Affection
  }

  /** The intended distribution: food 40%, chaos 25%, sleep 20%, affection 15%. */
  const PriorityWeights: seq<real> := [0.4, 0.25, 0.2, 0.15]

  /** The running totals of the weights are the thresholds in the code. */
  lemma CumulativeWeights()
    ensures Sum(PriorityWeights[..1]) == 0.4
    ensures Sum(PriorityWeights[..2]) == 0.65
    ensures Sum(PriorityWeights[..3]) == 0.85
  {
    assert PriorityWeights[..1] == [0.4];
    assert PriorityWeights[..2] == [0.4, 0.25];
    assert PriorityWeights[..3] == [0.4, 0.25, 0.2];
    assert Sum([0.2]) == 0.2 + Sum([]);
    assert Sum([0.25, 0.2]) == 0.25 + Sum([0.2]);
    assert Sum([0.4, 0.25, 0.2]) == 0.4 + Sum([0.25, 0.2]);
    assert Sum([0.25]) == 0.25 + Sum([]);
    assert Sum([0.4, 0.25]) == 0.4 + Sum([0.25]);
  }

  function Sum(ws: seq<real>): real
    decreases |ws|
  {
    if ws == [] then 0.0 else ws[0] + Sum(ws[1..])
  }

  /** Weighted selection: the first index whose slice of the line, laid out
      by the weights in order, holds `r`; the last index takes the rest. */
  function Pick(ws: seq<real>, r: real): (k: nat)
    requires |ws| > 0
    ensures k < |ws|
    decreases |ws|
  {
    if |ws| == 1 || r < ws[0] then 0 else 1 + Pick(ws[1..], r - ws[0])
  }

  /** If the weights are non-negative and `r` is too, the picked index is the
      slice that holds `r`: its start is at or below `r`, and unless it is the
      last slice, its end is above `r`. */
  lemma {:induction false} PickIsSlice(ws: seq<real>, r: real)
    requires |ws| > 0 && 0.0 <= r
    requires forall i :: 0 <= i < |ws| ==> 0.0 <= ws[i]
    ensures Sum(ws[..Pick(ws, r)]) <= r
    ensures Pick(ws, r) < |ws| - 1 ==> r < Sum(ws[..Pick(ws, r) + 1])
    decreases |ws|
  {
    var k := Pick(ws, r);
    if |ws| == 1 || r < ws[0] {
      assert ws[..0] == [];
      assert ws[..1] == [ws[0]];
      assert Sum([ws[0]]) == ws[0] + Sum([]);
    } else {
      var rest := ws[1..];
      PickIsSlice(rest, r - ws[0]);
      var j := Pick(rest, r - ws[0]);
      assert k == j + 1;
      assert ws[..k][1..] == rest[..j];
      assert Sum(ws[..k]) == ws[0] + Sum(rest[..j]);
      if k < |ws| - 1 {
        assert ws[..k + 1][1..] == rest[..j + 1];
        assert Sum(ws[..k + 1]) == ws[0] + Sum(rest[..j + 1]);
      }
    }
  }

  lemma PriorityWeightsSumToOne()
    ensures Sum(PriorityWeights) == 1.0
  {
  }

  /** The thresholds in the code are the weighted selection over the
      intended distribution, for every draw. */
  lemma PriorityFollowsWeights(r: real)
    requires IsDraw(r)
    ensures PriorityFor(r) == Priorities[Pick(PriorityWeights, r)]
  {
  }

  /** A larger draw never selects an earlier priority. */
  lemma PriorityMonotone(r: real, s: real)
    requires r <= s
    ensures PriorityIndex(PriorityFor(r)) <= PriorityIndex(PriorityFor(s))
  {
  }

  function PriorityIndex(p: Priority): (i: nat)
    ensures i < |Priorities| && Priorities[i] == p
  {
    match p
    case Food => 0
    case Chaos => 1
    case Sleep => 2
    case Affection => 3
  }
}
