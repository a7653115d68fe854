/** The simulated process table: five fixed entries whose status and load are
    redrawn at random. */
module ProcessTable {
  import opened Draws

  datatype ProcessKey = FoodScanner | SleepMode | ZoomiesDaemon | HumanDetector | ChaosEngine

  datatype Status = Running | Standby | Waiting | Critical

  /** The status list a redraw picks from, in its order. */
  const States: seq<Status> := [Running, Standby, Waiting, Critical]

  datatype ProcessEntry = ProcessEntry(name: string, status: Status, cpu: int)

  /** `Object.keys(this.processes)`: the insertion order of the table. */
  const ProcessOrder: seq<ProcessKey> := [FoodScanner, SleepMode, ZoomiesDaemon, HumanDetector, ChaosEngine]

  /** The probability with which one entry is redrawn on a tick. */
  const SelectChance: real := 0.2

  function KeyIndex(k: ProcessKey): (i: nat)
    ensures i < |ProcessOrder| && ProcessOrder[i] == k
  {
    match k
    case FoodScanner => 0
    case SleepMode => 1
    case ZoomiesDaemon => 2
    case HumanDetector => 3
    case ChaosEngine => 4
  }

  function NameOf(k: ProcessKey): string {
    match k
    case FoodScanner => "🐟 Food Scanner"
    case SleepMode => "🛏️ Sleep Mode"
    case ZoomiesDaemon => "💥 Zoomies Daemon"
    case HumanDetector => "👤 Human Detector"
    case ChaosEngine => "🔥 Chaos Engine"
  }

  /** Every key is present and carries its fixed name. */
  predicate Complete(t: map<ProcessKey, ProcessEntry>) {
    forall k: ProcessKey :: k in t && t[k].name == NameOf(k)
  }

  /** The table as the constructor sets it up. */
  function InitialTable(): (t: map<ProcessKey, ProcessEntry>)
    ensures forall k :: k in t ==> t[k].name == NameOf(k) && 0 <= t[k].cpu <= 99
  {
    map[
      FoodScanner := ProcessEntry(NameOf(FoodScanner), Running, 45),
      SleepMode := ProcessEntry(NameOf(SleepMode), Standby, 5),
      ZoomiesDaemon := ProcessEntry(NameOf(ZoomiesDaemon), Waiting, 0),
      HumanDetector := ProcessEntry(NameOf(HumanDetector), Running, 12),
      ChaosEngine := ProcessEntry(NameOf(ChaosEngine), Running, 78)
    ]
  }

  lemma InitialTableIsComplete()
    ensures Complete(InitialTable())
  {
    var t := InitialTable();
    forall k: ProcessKey ensures k in t && t[k].name == NameOf(k) {
      match k
      case FoodScanner =>
      case SleepMode =>
      case ZoomiesDaemon =>
      case HumanDetector =>
      case ChaosEngine =>
    }
  }

  /** The three draws one entry may consume on a tick: whether it is selected,
      then its new status and its new load. */
  datatype ProcessDraw = ProcessDraw(select: real, status: real, cpu: real)

  predicate DrawOk(d: ProcessDraw) {
    IsDraw(d.select) && IsDraw(d.status) && IsDraw(d.cpu)
  }

  predicate TickDrawsOk(ds: seq<ProcessDraw>) {
    |ds| == |ProcessOrder| && forall i :: 0 <= i < |ds| ==> DrawOk(ds[i])
  }

  /** `Math.floor(r * 100)`: the load is the draw's whole percentage. */
  function CpuFor(r: real): (cpu: int)
    requires IsDraw(r)
    ensures 0 <= cpu <= 99
    ensures cpu as real <= r * 100.0 < cpu as real + 1.0
  {
    Bucket(r, 100)
  }

  /** One entry under one tick: a selected entry gets the status whose quarter
      of the draw holds it and a load in [0, 99]; its name never changes, and an entry that
      is not selected keeps everything. */
  function Perturb(e: ProcessEntry, d: ProcessDraw): (r: ProcessEntry)
    requires DrawOk(d)
    ensures r.name == e.name
    ensures d.select >= SelectChance ==> r == e
    ensures d.select < SelectChance ==> 0 <= r.cpu <= 99
    ensures d.select < SelectChance ==>
      (exists k :: 0 <= k < |States| && r.status == States[k] &&
                   k as real <= d.status * 4.0 < k as real + 1.0)
    ensures d.select < SelectChance ==> r.cpu as real <= d.cpu * 100.0 < r.cpu as real + 1.0
  {
    if d.select < SelectChance
    then ProcessEntry(e.name, States[Bucket(d.status, |States|)], CpuFor(d.cpu))
    else e
  }

  /** The whole table after one tick, each key with its own draw. The key set
      and every name are kept, so a complete table stays complete. */
  function Perturbed(t: map<ProcessKey, ProcessEntry>, ds: seq<ProcessDraw>): (r: map<ProcessKey, ProcessEntry>)
    requires TickDrawsOk(ds)
    ensures r.Keys == t.Keys
    ensures forall k :: k in t ==> r[k].name == t[k].name
    ensures Complete(t) ==> Complete(r)
  {
    map k | k in t :: Perturb(t[k], ds[KeyIndex(k)])
  }

  /** The table once the first `n` keys, in `ProcessOrder`, have had their turn. */
  ghost function PerturbedUpTo(t: map<ProcessKey, ProcessEntry>, ds: seq<ProcessDraw>, n: nat): map<ProcessKey, ProcessEntry>
    requires TickDrawsOk(ds)
  {
    map k | k in t :: if KeyIndex(k) < n then Perturb(t[k], ds[KeyIndex(k)]) else t[k]
  }

  lemma PerturbedUpToEnds(t: map<ProcessKey, ProcessEntry>, ds: seq<ProcessDraw>)
    requires TickDrawsOk(ds)
    ensures PerturbedUpTo(t, ds, 0) == t
    ensures PerturbedUpTo(t, ds, |ProcessOrder|) == Perturbed(t, ds)
  {
  }

  lemma PerturbedUpToStep(t: map<ProcessKey, ProcessEntry>, ds: seq<ProcessDraw>, n: nat)
    requires TickDrawsOk(ds) && n < |ProcessOrder| && ProcessOrder[n] in t
    ensures var key := ProcessOrder[n];
      PerturbedUpTo(t, ds, n + 1) ==
        if ds[n].select < SelectChance
        then PerturbedUpTo(t, ds, n)[key := Perturb(t[key], ds[n])]
        else PerturbedUpTo(t, ds, n)
  {
  }
}
