/** The log panel's buffer: newest entry first, at most 50 entries. */
module LogBuffer {

  const MaxLogs: nat := 50

  datatype Severity = Info | Success | Warning | Error

  /** One entry; `time` is the formatted clock text, taken as given. */
  datatype LogEntry = LogEntry(time: string, message: string, severity: Severity)

  /** What `addLog` leaves in the buffer: the new entry at the head, the old
      entries behind it, and the oldest one gone once the length passes 50. */
  function Prepend(log: seq<LogEntry>, e: LogEntry): (r: seq<LogEntry>)
    ensures |r| == if |log| < MaxLogs then |log| + 1 else |log|
    ensures r[0] == e
    ensures forall i :: 1 <= i < |r| ==> r[i] == log[i - 1]
  {
    var grown := [e] + log;
    if |grown| > MaxLogs then grown[..|grown| - 1] else grown
  }

  /** The buffer after `addLog` has been called with `es[0]`, `es[1]`, ... in turn. */
  function PrependAll(log: seq<LogEntry>, es: seq<LogEntry>): seq<LogEntry>
    decreases |es|
  {
    if es == [] then log else PrependAll(Prepend(log, es[0]), es[1..])
  }

  function Reversed<T>(s: seq<T>): (r: seq<T>)
    ensures |r| == |s|
    ensures forall i :: 0 <= i < |s| ==> r[i] == s[|s| - 1 - i]
  {
    if s == [] then [] else Reversed(s[1..]) + [s[0]]
  }

  function Min(a: int, b: int): int {
    if a < b then a else b
  }

  lemma PrefixOfAppend<T>(a: seq<T>, e: T, b: seq<T>, m: nat, n: nat)
    requires m <= |b| + 1 && n <= |a| + m
    ensures (a + ([e] + b)[..m])[..n] == ((a + [e]) + b)[..n]
  {
    assert forall i :: 0 <= i < n ==> (a + ([e] + b)[..m])[i] == ((a + [e]) + b)[i];
  }

  lemma PrependIsCut(log: seq<LogEntry>, e: LogEntry)
    requires |log| <= MaxLogs
    ensures Prepend(log, e) == ([e] + log)[..Min(MaxLogs, |log| + 1)]
  {
  }

  /** One step of the induction below, on sequences alone. */
  lemma CutShift(log: seq<LogEntry>, es: seq<LogEntry>)
    requires |log| <= MaxLogs && es != []
    ensures var m := Min(MaxLogs, |log| + 1);
      (Reversed(es[1..]) + ([es[0]] + log)[..m])[..Min(MaxLogs, |es| - 1 + m)]
        == (Reversed(es) + log)[..Min(MaxLogs, |es| + |log|)]
  {
    var m := Min(MaxLogs, |log| + 1);
    var n := Min(MaxLogs, |es| + |log|);
    var front := Reversed(es[1..]);
    assert n == Min(MaxLogs, |es| - 1 + m);
    assert Reversed(es) == front + [es[0]];
    PrefixOfAppend(front, es[0], log, m, n);
  }

  lemma {:induction false} PrependAllKeepsNewest(log: seq<LogEntry>, es: seq<LogEntry>)
    requires |log| <= MaxLogs
    ensures PrependAll(log, es) == (Reversed(es) + log)[..Min(MaxLogs, |es| + |log|)]
    decreases |es|
  {
    if es == [] {
      assert Reversed(es) + log == log;
    } else {
      var next := Prepend(log, es[0]);
      PrependIsCut(log, es[0]);
      PrependAllKeepsNewest(next, es[1..]);
      CutShift(log, es);
    }
  }

  /** After 51 calls the first of them has been evicted and the 51st is at the head. */
  lemma FiftyOneCallsEvictTheFirst(log: seq<LogEntry>, es: seq<LogEntry>)
    requires |log| <= MaxLogs && |es| == MaxLogs + 1
    ensures PrependAll(log, es) == Reversed(es[1..])
    ensures |PrependAll(log, es)| == MaxLogs
    ensures PrependAll(log, es)[0] == es[MaxLogs]
  {
    PrependAllKeepsNewest(log, es);
    assert Reversed(es) == Reversed(es[1..]) + [es[0]];
    assert (Reversed(es) + log)[..MaxLogs] == Reversed(es[1..]);
  }
}
