/**
 * The trace exporter `RecordProfile` (torch/csrc/autograd/profiler.cpp): the
 * consolidated per-thread lists are flattened, the session start mark is
 * looked up, and every pop is paired with the push it closes, giving one
 * trace record per pop inside a bracketed, comma-separated array.
 *
 * Time is abstract: a record names the indices of the session start, the
 * push and the pop in the flattened list; `ts` is the time from the first to
 * the second and `dur` the time from the second to the third.
 */
module Export {
  import opened Wrappers
  import opened Events

  /** One trace entry: the scope name, the events its times are taken from, and the thread. */
  datatype Record = Record(name: string, sessionStart: nat, pushAt: nat, popAt: nat, tid: nat)

  /** The output stream: literal text and rendered entries. */
  datatype Piece = Text(text: string) | Entry(record: Record)

  datatype ExportError = StartNotFound

  predicate IsPush(e: Event) { e.kind == PushRange }

  predicate IsPop(e: Event) { e.kind == PopRange }

  /** How an event moves the nesting level. */
  function Step(e: Event): int {
    if IsPush(e) then 1 else if IsPop(e) then -1 else 0
  }

  /** Pushes minus pops among the first `i` events: the number of open ranges before event `i`. */
  function Level(events: seq<Event>, i: nat): int
    requires i <= |events|
  {
    if i == 0 then 0 else Level(events, i - 1) + Step(events[i - 1])
  }

  /** Every pop finds an open range to close. */
  ghost predicate WellOpened(events: seq<Event>) {
    forall j :: 0 <= j < |events| && IsPop(events[j]) ==> Level(events, j) > 0
  }

  /** Index of the last push before `i` that opened level `l`, or -1. */
  function LastPush(events: seq<Event>, i: nat, l: int): (k: int)
    requires i <= |events|
    ensures -1 <= k < i
    ensures k >= 0 ==> IsPush(events[k]) && Level(events, k) == l
    ensures forall c :: k < c < i ==> !(IsPush(events[c]) && Level(events, c) == l)
  {
    if i == 0 then -1
    else if IsPush(events[i - 1]) && Level(events, i - 1) == l then i - 1
    else LastPush(events, i - 1, l)
  }

  /** Whenever level `l` is open before `j`, some push before `j` opened it. */
  lemma {:induction false} PushBelow(events: seq<Event>, j: nat, l: int)
    requires j <= |events|
    requires 0 <= l < Level(events, j)
    ensures LastPush(events, j, l) >= 0
    decreases j
  {
    if !(IsPush(events[j - 1]) && Level(events, j - 1) == l) {
      PushBelow(events, j - 1, l);
    }
  }

  /** The push a pop closes: the most recent one that opened the level the pop returns to. */
  function PairedPush(events: seq<Event>, j: nat): (k: nat)
    requires WellOpened(events) && j < |events| && IsPop(events[j])
    ensures k < j && IsPush(events[k]) && Level(events, k) == Level(events, j) - 1
  {
    PushBelow(events, j, Level(events, j) - 1);
    LastPush(events, j, Level(events, j) - 1)
  }

  /** The range opened at `LastPush(events, j, l)` stays open up to `j`. */
  lemma {:induction false} OpenUntil(events: seq<Event>, j: nat, l: int, c: nat)
    requires j <= |events| && Level(events, j) > l
    requires LastPush(events, j, l) < c <= j
    ensures Level(events, c) > l
    decreases j - c
  {
    if c < j {
      OpenUntil(events, j, l, c + 1);
    }
  }

  /** The records emitted for the pops among the first `i` events, in order. */
  ghost function Pairs(events: seq<Event>, start: nat, i: nat): seq<Record>
    requires WellOpened(events) && i <= |events|
  {
    if i == 0 then []
    else if IsPop(events[i - 1]) then
      var k := PairedPush(events, i - 1);
      Pairs(events, start, i - 1) + [Record(events[k].name, start, k, i - 1, events[k].tid)]
    else Pairs(events, start, i - 1)
  }

  /** Number of pops among the first `i` events. */
  function PopCount(events: seq<Event>, i: nat): nat
    requires i <= |events|
  {
    if i == 0 then 0 else PopCount(events, i - 1) + (if IsPop(events[i - 1]) then 1 else 0)
  }

  /** As many records as pops: marks and pushes left open emit nothing. */
  lemma {:induction false} PairsCount(events: seq<Event>, start: nat, i: nat)
    requires WellOpened(events) && i <= |events|
    ensures |Pairs(events, start, i)| == PopCount(events, i)
    decreases i
  {
    if i > 0 {
      PairsCount(events, start, i - 1);
    }
  }

  /**
   * Each pop has its own record: the records' pops come before `i` in strictly
   * increasing order, so no pop is closed twice, and every pop before `i` has one.
   */
  lemma {:induction false} PairsOnePerPop(events: seq<Event>, start: nat, i: nat)
    requires WellOpened(events) && i <= |events|
    ensures forall m :: 0 <= m < |Pairs(events, start, i)| ==> Pairs(events, start, i)[m].popAt < i
    ensures forall m, m' :: 0 <= m < m' < |Pairs(events, start, i)| ==>
      Pairs(events, start, i)[m].popAt < Pairs(events, start, i)[m'].popAt
    ensures forall j :: 0 <= j < i && IsPop(events[j]) ==>
      exists m :: 0 <= m < |Pairs(events, start, i)| && Pairs(events, start, i)[m].popAt == j
    decreases i
  {
    if i > 0 {
      PairsOnePerPop(events, start, i - 1);
      var before := Pairs(events, start, i - 1);
      var after := Pairs(events, start, i);
      if IsPop(events[i - 1]) {
        assert after[..|before|] == before;
        assert after[|before|].popAt == i - 1;
        forall j | 0 <= j < i && IsPop(events[j])
          ensures exists m :: 0 <= m < |after| && after[m].popAt == j
        {
          if j < i - 1 {
            var m :| 0 <= m < |before| && before[m].popAt == j;
            assert after[m] == before[m];
          } else {
            assert after[|before|].popAt == j;
          }
        }
      }
    }
  }

  /**
   * Record `r` closes a push with a later pop: it takes the push's name and
   * thread, the push is the most recent one at its level before the pop, and
   * it stays open until the pop.
   */
  ghost predicate Closes(events: seq<Event>, start: nat, r: Record) {
    && r.pushAt < r.popAt < |events|
    && IsPush(events[r.pushAt]) && IsPop(events[r.popAt])
    && r.name == events[r.pushAt].name && r.tid == events[r.pushAt].tid
    && r.sessionStart == start
    && Level(events, r.pushAt) == Level(events, r.popAt) - 1
    && (forall c :: r.pushAt < c < r.popAt ==> !(IsPush(events[c]) && Level(events, c) == Level(events, r.pushAt)))
    && (forall c :: r.pushAt < c <= r.popAt ==> Level(events, c) > Level(events, r.pushAt))
  }

  /** Every record emitted for the first `i` events closes a push with a pop before `i`. */
  lemma {:induction false} PairsMatch(events: seq<Event>, start: nat, i: nat)
    requires WellOpened(events) && i <= |events|
    ensures forall r :: r in Pairs(events, start, i) ==> r.popAt < i && Closes(events, start, r)
    decreases i
  {
    if i > 0 {
      PairsMatch(events, start, i - 1);
      if IsPop(events[i - 1]) {
        var j := i - 1;
        var l := Level(events, j) - 1;
        var k := PairedPush(events, j);
        forall c | k < c <= j
          ensures Level(events, c) > l
        {
          OpenUntil(events, j, l, c);
        }
        assert Closes(events, start, Record(events[k].name, start, k, j, events[k].tid));
      }
    }
  }

  /** Records separated by `,\n`. */
  function Separated(recs: seq<Record>): seq<Piece> {
    if recs == [] then []
    else Separated(recs[..|recs| - 1]) + (if |recs| > 1 then [Text(",\n")] else []) + [Entry(recs[|recs| - 1])]
  }

  /** The whole output: `[\n`, the separated records, `]\n`. */
  function Framed(recs: seq<Record>): seq<Piece> {
    [Text("[\n")] + Separated(recs) + [Text("]\n")]
  }

  /** Record `m` sits at position `2m` of the separated list, a separator between each two. */
  lemma {:induction false} SeparatedLayout(recs: seq<Record>)
    ensures |Separated(recs)| == if recs == [] then 0 else 2 * |recs| - 1
    ensures forall m :: 0 <= m < |recs| ==> Separated(recs)[2 * m] == Entry(recs[m])
    ensures forall m :: 0 <= m < |recs| - 1 ==> Separated(recs)[2 * m + 1] == Text(",\n")
    decreases |recs|
  {
    if recs != [] {
      var front := recs[..|recs| - 1];
      SeparatedLayout(front);
      forall m | 0 <= m < |front|
        ensures recs[m] == front[m]
      {
      }
    }
  }

  /** The first event named `name`, if any. */
  function FirstNamed(events: seq<Event>, name: string): (r: Option<nat>)
    ensures r.None? <==> forall j :: 0 <= j < |events| ==> events[j].name != name
    ensures r.Some? ==> r.value < |events| && events[r.value].name == name
    ensures r.Some? ==> forall j :: 0 <= j < r.value ==> events[j].name != name
  {
    if events == [] then None
    else if events[0].name == name then Some(0)
    else match FirstNamed(events[1..], name) {
      case None => None
      case Some(k) => Some(k + 1)
    }
  }

  /** The index of the first `__start_profile` event, or `StartNotFound`. */
  method FindStart(events: seq<Event>) returns (r: Result<nat, ExportError>)
    ensures r.Failure? <==> FirstNamed(events, StartProfileName).None?
    ensures r.Failure? ==> r.error == StartNotFound
    ensures r.Success? ==> FirstNamed(events, StartProfileName) == Some(r.value)
  {
    var start := 0;
    while start < |events| && events[start].name != StartProfileName
      invariant start <= |events|
      invariant forall j :: 0 <= j < start ==> events[j].name != StartProfileName
    {
      start := start + 1;
    }
    if start == |events| {
      return Failure(StartNotFound);
    }
    r := Success(start);
  }

  /** `stack` holds, bottom to top, the push that opened each level still open before event `i`. */
  ghost predicate OpenStack(events: seq<Event>, i: nat, stack: seq<nat>)
    requires i <= |events|
  {
    |stack| == Level(events, i) && forall d :: 0 <= d < |stack| ==> stack[d] == LastPush(events, i, d)
  }

  /** A push goes on top of the stack. */
  lemma PushStep(events: seq<Event>, start: nat, i: nat, stack: seq<nat>)
    requires WellOpened(events) && i < |events| && IsPush(events[i]) && OpenStack(events, i, stack)
    ensures OpenStack(events, i + 1, stack + [i])
    ensures Pairs(events, start, i + 1) == Pairs(events, start, i)
  {
  }

  /** A pop takes the push it closes off the top of the stack. */
  lemma PopStep(events: seq<Event>, start: nat, i: nat, stack: seq<nat>)
    requires WellOpened(events) && i < |events| && IsPop(events[i]) && OpenStack(events, i, stack)
    ensures |stack| > 0 && stack[|stack| - 1] == PairedPush(events, i)
    ensures OpenStack(events, i + 1, stack[..|stack| - 1])
    ensures var k := stack[|stack| - 1];
      Pairs(events, start, i + 1) == Pairs(events, start, i) + [Record(events[k].name, start, k, i, events[k].tid)]
  {
  }

  /** A mark leaves the stack alone. */
  lemma MarkStep(events: seq<Event>, start: nat, i: nat, stack: seq<nat>)
    requires WellOpened(events) && i < |events| && !IsPush(events[i]) && !IsPop(events[i]) && OpenStack(events, i, stack)
    ensures OpenStack(events, i + 1, stack)
    ensures Pairs(events, start, i + 1) == Pairs(events, start, i)
  {
  }

  /** Appending a record adds a separator unless it is the first. */
  lemma SeparatedSnoc(recs: seq<Record>, rec: Record)
    ensures Separated(recs + [rec]) == Separated(recs) + (if recs != [] then [Text(",\n")] else []) + [Entry(rec)]
  {
    assert (recs + [rec])[..|recs|] == recs;
  }

  /** What the pairing walk has built before event `i`: the open pushes and the output so far. */
  ghost predicate WalkedTo(events: seq<Event>, start: nat, i: nat, stack: seq<nat>, out: seq<Piece>, first: bool)
    requires WellOpened(events) && i <= |events|
  {
    && OpenStack(events, i, stack)
    && out == [Text("[\n")] + Separated(Pairs(events, start, i))
    && (first <==> Pairs(events, start, i) == [])
  }

  /** One step of the pairing walk: event `i` pushes, pops and emits, or does nothing. */
  method Visit(events: seq<Event>, start: nat, i: nat, stack: seq<nat>, out: seq<Piece>, first: bool)
    returns (stack': seq<nat>, out': seq<Piece>, first': bool)
    requires WellOpened(events) && i < |events|
    requires WalkedTo(events, start, i, stack, out, first)
    ensures WalkedTo(events, start, i + 1, stack', out', first')
  {
    stack', out', first' := stack, out, first;
    if events[i].kind == PushRange {
      PushStep(events, start, i, stack);
      stack' := stack + [i];
    } else if events[i].kind == PopRange {
      PopStep(events, start, i, stack);
      if !first {
        out' := out' + [Text(",\n")];
      }
      first' := false;
      var k := stack[|stack| - 1];
      stack' := stack[..|stack| - 1];
      SeparatedSnoc(Pairs(events, start, i), Record(events[k].name, start, k, i, events[k].tid));
      out' := out' + [Entry(Record(events[k].name, start, k, i, events[k].tid))];
    } else {
      MarkStep(events, start, i, stack);
    }
  }

  /**
   * The pairing walk: a stack of open pushes, one record per pop, each pop
   * closing the push on top of the stack.
   */
  method EmitRecords(events: seq<Event>, start: nat) returns (out: seq<Piece>)
    requires WellOpened(events)
    ensures out == Framed(Pairs(events, start, |events|))
  {
    var stack: seq<nat> := [];
    out := [Text("[\n")];
    var first := true;
    for i := 0 to |events|
      invariant WalkedTo(events, start, i, stack, out, first)
    {
      stack, out, first := Visit(events, start, i, stack, out, first);
    }
    out := out + [Text("]\n")];
  }

  /**
   * `processEvents`: fails when no `__start_profile` event exists; otherwise
   * walks the events with a stack of open pushes and emits one record per pop.
   */
  method ProcessEvents(events: seq<Event>) returns (r: Result<seq<Piece>, ExportError>)
    requires FirstNamed(events, StartProfileName).Some? ==> WellOpened(events)
    ensures r.Failure? <==> FirstNamed(events, StartProfileName).None?
    ensures r.Failure? ==> r.error == StartNotFound
    ensures r.Success? ==>
      && FirstNamed(events, StartProfileName).Some?
      && r.value == Framed(Pairs(events, FirstNamed(events, StartProfileName).value, |events|))
  {
    var found := FindStart(events);
    if found.Failure? {
      return Failure(found.error);
    }
    var out := EmitRecords(events, found.value);
    r := Success(out);
  }

  /** The per-thread lists one after another. */
  function Concat(lists: seq<seq<Event>>): seq<Event> {
    if lists == [] then [] else Concat(lists[..|lists| - 1]) + lists[|lists| - 1]
  }

  /** The flattening loop of the `RecordProfile` destructor. */
  method Flatten(lists: seq<seq<Event>>) returns (events: seq<Event>)
    ensures events == Concat(lists)
  {
    events := [];
    for i := 0 to |lists|
      invariant events == Concat(lists[..i])
    {
      for j := 0 to |lists[i]|
        invariant events == Concat(lists[..i]) + lists[i][..j]
      {
        events := events + [lists[i][j]];
      }
      assert lists[..i + 1][..i] == lists[..i];
    }
    assert lists[..|lists|] == lists;
  }

  /** A well-opened list never leaves a negative level. */
  lemma {:induction false} LevelNonNegative(events: seq<Event>, i: nat)
    requires WellOpened(events) && i <= |events|
    ensures Level(events, i) >= 0
    decreases i
  {
    if i > 0 {
      LevelNonNegative(events, i - 1);
    }
  }

  /** Levels in a prefix of `a + b` are those of `a`. */
  lemma {:induction false} LevelPrefix(a: seq<Event>, b: seq<Event>, i: nat)
    requires i <= |a|
    ensures Level(a + b, i) == Level(a, i)
    decreases i
  {
    if i > 0 {
      LevelPrefix(a, b, i - 1);
      assert (a + b)[i - 1] == a[i - 1];
    }
  }

  /** Levels inside the `b` part of `a + b` are offset by the level `a` ends at. */
  lemma {:induction false} LevelSuffix(a: seq<Event>, b: seq<Event>, j: nat)
    requires j <= |b|
    ensures Level(a + b, |a| + j) == Level(a, |a|) + Level(b, j)
    decreases j
  {
    if j == 0 {
      LevelPrefix(a, b, |a|);
    } else {
      LevelSuffix(a, b, j - 1);
      assert (a + b)[|a| + j - 1] == b[j - 1];
    }
  }

  /** Two well-opened lists one after the other are well opened. */
  lemma WellOpenedAppend(a: seq<Event>, b: seq<Event>)
    requires WellOpened(a) && WellOpened(b)
    ensures WellOpened(a + b)
  {
    LevelNonNegative(a, |a|);
    forall j | 0 <= j < |a + b| && IsPop((a + b)[j])
      ensures Level(a + b, j) > 0
    {
      if j < |a| {
        LevelPrefix(a, b, j);
      } else {
        LevelSuffix(a, b, j - |a|);
        LevelNonNegative(b, j - |a|);
      }
    }
  }

  /** Flattening lists that are each well opened gives a well-opened list. */
  lemma {:induction false} ConcatWellOpened(lists: seq<seq<Event>>)
    requires forall i :: 0 <= i < |lists| ==> WellOpened(lists[i])
    ensures WellOpened(Concat(lists))
    decreases |lists|
  {
    if lists != [] {
      ConcatWellOpened(lists[..|lists| - 1]);
      WellOpenedAppend(Concat(lists[..|lists| - 1]), lists[|lists| - 1]);
    }
  }
}
