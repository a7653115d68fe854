/** The window registry: the `windows` list, the app names `getWindowConfig`
    knows, and the z-index that a raise hands out. */
module Windows {

  datatype Option<T> = None | Some(value: T)

  /** The six apps that `getWindowConfig` has a configuration for. */
  datatype AppKind = FoodScannerApp | SleepModeApp | ZoomiesApp | YarnBallApp | BoxSimulatorApp | HumanIgnoreApp

  /** The configuration key of each app. */
  function AppKey(k: AppKind): string {
    match k
    case FoodScannerApp => "food-scanner"
    case SleepModeApp => "sleep-mode"
    case ZoomiesApp => "zoomies"
    case YarnBallApp => "yarn-ball"
    case BoxSimulatorApp => "box-simulator"
    case HumanIgnoreApp => "human-ignore"
  }

  /** `getWindowConfig`, reduced to which app, if any, the name configures.
      It is the inverse of `AppKey`. */
  function WindowConfig(name: string): (r: Option<AppKind>)
    ensures r.Some? ==> AppKey(r.value) == name
    ensures r.None? ==> forall k :: AppKey(k) != name
  {
    if name == "food-scanner" then Some(FoodScannerApp)
    else if name == "sleep-mode" then Some(SleepModeApp)
    else if name == "zoomies" then Some(ZoomiesApp)
    else if name == "yarn-ball" then Some(YarnBallApp)
    else if name == "box-simulator" then Some(BoxSimulatorApp)
    else if name == "human-ignore" then Some(HumanIgnoreApp)
    else None
  }

  lemma WindowConfigOfKey(k: AppKind)
    ensures WindowConfig(AppKey(k)) == Some(k)
  {
  }

  /** A window element's inline `style.zIndex`: none is set until the window
      is first raised, and then it is the counter value handed out. `Level`
      counts an unset one as 0, so comparisons are between counter values. */
  datatype ZIndex = Auto | Raised(level: nat)

  function Level(z: ZIndex): nat {
    if z.Raised? then z.level else 0
  }

  /** One entry of `windows`; `shaking` is whether its element runs the shake
      animation. */
  datatype WindowEntry = WindowEntry(id: nat, appName: string, z: ZIndex, shaking: bool)

  /** Ids strictly increase along the list, so they are pairwise distinct. */
  predicate Increasing(ws: seq<WindowEntry>) {
    forall i, j :: 0 <= i < j < |ws| ==> ws[i].id < ws[j].id
  }

  /** The registry's invariant against the shared counter `windowId`: every id
      and every z-index was handed out by it, and ids are in insertion order. */
  predicate WellFormed(ws: seq<WindowEntry>, counter: nat) {
    && (forall i :: 0 <= i < |ws| ==> 1 <= ws[i].id <= counter && Level(ws[i].z) <= counter)
    && Increasing(ws)
  }

  predicate IsOpen(ws: seq<WindowEntry>, id: int) {
    exists i :: 0 <= i < |ws| && ws[i].id == id
  }

  /** `windows.find(w => w.id === id)`, as the index of the first match or -1. */
  function FindIndex(ws: seq<WindowEntry>, id: int): (k: int)
    ensures -1 <= k < |ws|
    ensures 0 <= k ==> ws[k].id == id && forall j :: 0 <= j < k ==> ws[j].id != id
    ensures k == -1 ==> forall j :: 0 <= j < |ws| ==> ws[j].id != id
  {
    if ws == [] then -1
    else if ws[0].id == id then 0
    else
      var k := FindIndex(ws[1..], id);
      if k == -1 then -1 else k + 1
  }

  /** `windows.filter(w => w.id !== id)`. */
  function Without(ws: seq<WindowEntry>, id: int): (r: seq<WindowEntry>)
    ensures |r| <= |ws|
  {
    if ws == [] then []
    else if ws[0].id == id then Without(ws[1..], id)
    else [ws[0]] + Without(ws[1..], id)
  }

  /** Exactly the entries with another id survive the filter. */
  lemma {:induction false} WithoutMembers(ws: seq<WindowEntry>, id: int)
    ensures forall w :: w in Without(ws, id) <==> w in ws && w.id != id
    decreases |ws|
  {
    if ws != [] {
      WithoutMembers(ws[1..], id);
      assert ws == [ws[0]] + ws[1..];
    }
  }

  /** Filtering out an id that is not there leaves the list as it was. */
  lemma {:induction false} WithoutAbsent(ws: seq<WindowEntry>, id: int)
    requires !IsOpen(ws, id)
    ensures Without(ws, id) == ws
    decreases |ws|
  {
    if ws != [] {
      assert ws[0].id != id;
      assert !IsOpen(ws[1..], id) by {
        forall i | 0 <= i < |ws[1..]| ensures ws[1..][i].id != id {
          assert ws[1..][i] == ws[i + 1];
        }
      }
      WithoutAbsent(ws[1..], id);
      assert ws == [ws[0]] + ws[1..];
    }
  }

  /** With distinct ids, filtering out the id at position `k` removes exactly
      that entry and keeps the others in their order. */
  lemma {:induction false} WithoutPresent(ws: seq<WindowEntry>, k: nat)
    requires Increasing(ws) && k < |ws|
    ensures Without(ws, ws[k].id) == ws[..k] + ws[k + 1..]
    decreases |ws|
  {
    var id, rest := ws[k].id, ws[1..];
    assert Increasing(rest) by {
      forall i, j | 0 <= i < j < |rest| ensures rest[i].id < rest[j].id {
        assert rest[i] == ws[i + 1] && rest[j] == ws[j + 1];
      }
    }
    if k == 0 {
      assert !IsOpen(rest, id) by {
        forall i | 0 <= i < |rest| ensures rest[i].id != id {
          assert rest[i] == ws[i + 1];
        }
      }
      WithoutAbsent(rest, id);
      assert Without(ws, id) == rest;
    } else {
      assert ws[0].id != id;
      assert Without(ws, id) == [ws[0]] + Without(rest, id);
      assert rest[k - 1] == ws[k];
      WithoutPresent(rest, k - 1);
      assert ws[..k] == [ws[0]] + rest[..k - 1];
      assert ws[k + 1..] == rest[k..];
    }
  }

  /** Closing is idempotent: filtering the same id twice is filtering it once. */
  lemma WithoutTwice(ws: seq<WindowEntry>, id: int)
    ensures Without(Without(ws, id), id) == Without(ws, id)
  {
  }

  /** Closing a window keeps the registry's invariant. */
  lemma WithoutKeepsWellFormed(ws: seq<WindowEntry>, counter: nat, id: int)
    requires WellFormed(ws, counter)
    ensures WellFormed(Without(ws, id), counter)
    ensures !IsOpen(Without(ws, id), id)
  {
    var k := FindIndex(ws, id);
    if k == -1 {
      WithoutAbsent(ws, id);
    } else {
      WithoutPresent(ws, k);
      var r := ws[..k] + ws[k + 1..];
      forall i | 0 <= i < |r| ensures r[i] == ws[if i < k then i else i + 1] {
      }
    }
    var r := Without(ws, id);
    WithoutMembers(ws, id);
    assert forall i :: 0 <= i < |r| ==> r[i] in r;
  }

  /** Opening appends the next id at the end and keeps the invariant. */
  lemma OpenKeepsWellFormed(ws: seq<WindowEntry>, counter: nat, name: string)
    requires WellFormed(ws, counter)
    ensures WellFormed(ws + [WindowEntry(counter + 1, name, Auto, false)], counter + 1)
  {
  }

  /** What `windowData.element.style.zIndex = level` does to the first window
      with this id; the list is unchanged when there is none. */
  function Raise(ws: seq<WindowEntry>, id: int, level: nat): (r: seq<WindowEntry>)
    ensures |r| == |ws|
    ensures forall i :: 0 <= i < |ws| ==> r[i].(z := ws[i].z) == ws[i]
    ensures forall i :: 0 <= i < |ws| && r[i] != ws[i] ==> ws[i].id == id && r[i].z == Raised(level)
    ensures IsOpen(ws, id) ==> exists i :: 0 <= i < |ws| && ws[i].id == id && r[i].z == Raised(level)
  {
    var k := FindIndex(ws, id);
    if k < 0 then ws else ws[k := ws[k].(z := Raised(level))]
  }

  /** Raising a window to the next counter value makes it topmost: its level
      is above every id and every level handed out before, its own old level
      included, and no other entry changes. */
  lemma RaiseMakesTopmost(ws: seq<WindowEntry>, counter: nat, id: int)
    requires WellFormed(ws, counter) && IsOpen(ws, id)
    ensures |Raise(ws, id, counter + 1)| == |ws|
    ensures WellFormed(Raise(ws, id, counter + 1), counter + 1)
    ensures forall i :: 0 <= i < |ws| && ws[i].id == id ==>
      Raise(ws, id, counter + 1)[i] == ws[i].(z := Raised(counter + 1))
    ensures forall i :: 0 <= i < |ws| && ws[i].id != id ==>
      Raise(ws, id, counter + 1)[i] == ws[i] && Level(ws[i].z) < counter + 1
  {
  }

  /** A raise of an id with no entry changes nothing. */
  lemma RaiseAbsent(ws: seq<WindowEntry>, id: int, level: nat)
    requires !IsOpen(ws, id)
    ensures Raise(ws, id, level) == ws
  {
  }
}
