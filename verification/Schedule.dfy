/** Full and incremental backups in backup.py: the schedule, the count kept in the state file, and how two
    functions that each add one to it make up a cycle. */
module Schedule {
  import opened Wrappers

  datatype Schedule = Schedule(hasDays: bool, increment: bool, cycle: nat)

  /** The time of the last run, as the state file has it. */
  datatype Stamp = Never | At(time: int) | Illegible

  /** A plan's entry in the state file; `count` is None when it is missing or not a number. */
  datatype Record = Record(last: Stamp, failed: bool, count: Option<int>)

  type State = map<string, Record>

  /** `Schedule.is_full`. */
  predicate IsFull(s: Schedule, count: nat) {
    !s.hasDays || !s.increment || s.cycle == 0 || count >= s.cycle
  }

  function Count(r: Record): nat {
    if r.count.Some? && r.count.value >= 0 then r.count.value else 0
  }

  /** `Plan.incremental`: the new entry of the plan, and whether the run is incremental. */
  function Begun(r: Option<Record>, s: Schedule, forceFull: bool): (Record, bool) {
    if r.None? then (Record(Never, false, Some(0)), false)
    else
      var full := forceFull || IsFull(s, Count(r.value));
      (r.value.(count := Some(if full then 0 else Count(r.value) + 1)), !full)
  }

  /** The plan's entry after `Backup.save`. */
  function Ended(r: Option<Record>, now: int, failed: bool): Record {
    Record(At(now), failed, Some((if r.Some? then Count(r.value) else 0) + 1))
  }

  function Entry(m: State, uuid: string): Option<Record> {
    if uuid in m then Some(m[uuid]) else None
  }

  /** What becomes of the save at the end of a run: it never happens or cannot be written, or it is written,
      the file having been legible or not. */
  datatype Save = Lost | Saved(legible: bool, now: int, failed: bool)

  /** A run that is started; `legible` says whether the state file could be read and `written` whether it could be
      written, without which the run does not start.  Or the removal of the state file. */
  datatype Op = Run(uuid: string, forceFull: bool, legible: bool, written: bool, save: Save) | Clear

  function AfterStart(m: State, op: Op, s: Schedule): State
    requires op.Run?
  {
    var read := if op.legible then m else map[];
    if op.written then read[op.uuid := Begun(Entry(read, op.uuid), s, op.forceFull).0] else m
  }

  /** Whether the run is incremental; None when it does not start. */
  function Incremental(m: State, op: Op, s: Schedule): Option<bool>
    requires op.Run?
  {
    var read := if op.legible then m else map[];
    if op.written then Some(Begun(Entry(read, op.uuid), s, op.forceFull).1) else None
  }

  function AfterSave(m: State, uuid: string, save: Save): State {
    if save.Lost? then m
    else
      var read := if save.legible then m else map[];
      read[uuid := Ended(Entry(read, uuid), save.now, save.failed)]
  }

  function After(m: State, op: Op, s: Schedule): State {
    match op
    case Clear => map[]
    case Run(uuid, _, _, written, save) =>
      if written then AfterSave(AfterStart(m, op, s), uuid, save) else m
  }

  /** The state file and the two functions that rewrite it. */
  class StateFile {
    var plans: State

    constructor (plans: State)
      ensures this.plans == plans
    {
      this.plans := plans;
    }

    /** The part of `_select` that chooses the kind of run. */
    method Start(uuid: string, s: Schedule, forceFull: bool, legible: bool, written: bool) returns (r: Option<bool>)
      modifies this
      ensures var op := Run(uuid, forceFull, legible, written, Lost);
        plans == AfterStart(old(plans), op, s) && r == Incremental(old(plans), op, s)
    {
      var state: State := if legible then plans else map[];
      var incremental := false;
      if uuid !in state {
        state := state[uuid := Record(Never, false, Some(0))];
      } else {
        var c := if state[uuid].count.Some? then state[uuid].count.value else 0;
        if c < 0 {
          c := 0;
        }
        var full := true;
        if forceFull {
          c := 0;
        } else {
          full := IsFull(s, c);
          c := if full then 0 else c + 1;
        }
        state := state[uuid := state[uuid].(count := Some(c))];
        incremental := !full;
      }
      if !written {
        return None;
      }
      plans := state;
      return Some(incremental);
    }

    /** `Backup.save`. */
    method Save(uuid: string, now: int, failed: bool, legible: bool, written: bool) returns (ok: bool)
      modifies this
      ensures plans == AfterSave(old(plans), uuid, if written then Saved(legible, now, failed) else Lost)
      ensures ok == !failed
    {
      var state: State := if legible then plans else map[];
      var c := 0;
      if uuid in state {
        c := if state[uuid].count.Some? then state[uuid].count.value else 0;
        if c < 0 {
          c := 0;
        }
      }
      if written {
        plans := state[uuid := Record(At(now), failed, Some(c + 1))];
      }
      return !failed;
    }
  }

  // ---- many runs of many plans -----------------------------------------------------------

  /** The kinds of the successive runs of plan `uuid`: true for incremental. */
  function Kinds(m: State, ops: seq<Op>, schedules: string -> Schedule, uuid: string): seq<bool>
    decreases ops
  {
    if ops == [] then []
    else
      var s := schedules(if ops[0].Run? then ops[0].uuid else uuid);
      var rest := Kinds(After(m, ops[0], s), ops[1..], schedules, uuid);
      if ops[0].Run? && ops[0].uuid == uuid && ops[0].written then [Incremental(m, ops[0], s).value] + rest else rest
  }

  /** Everything went well, and nothing was forced. */
  predicate Smooth(op: Op) {
    op.Run? && !op.forceFull && op.legible && op.written && op.save.Saved? && op.save.legible
  }

  predicate AllSmooth(ops: seq<Op>) {
    forall k :: 0 <= k < |ops| ==> Smooth(ops[k])
  }

  lemma OthersKeep(m: State, op: Op, s: Schedule, uuid: string)
    requires Smooth(op) && op.uuid != uuid
    ensures Entry(After(m, op, s), uuid) == Entry(m, uuid)
  {
  }

  lemma SmoothRun(m: State, op: Op, s: Schedule)
    requires Smooth(op)
    ensures var c := if op.uuid in m then Count(m[op.uuid]) else s.cycle;
            var full := op.uuid !in m || IsFull(s, c);
            Incremental(m, op, s) == Some(!full)
            && Entry(After(m, op, s), op.uuid).Some?
            && Count(Entry(After(m, op, s), op.uuid).value) == if full then 1 else c + 2
  {
  }

  /** `n` runs of which the first comes `p` incremental ones after a full one, `half` of them making a cycle. */
  function Turns(half: nat, p: nat, n: nat): (kinds: seq<bool>)
    ensures |kinds| == n
    decreases n
  {
    if n == 0 then [] else [p != half] + Turns(half, if p == half then 0 else p + 1, n - 1)
  }

  lemma {:induction false} CycleFrom(m: State, ops: seq<Op>, schedules: string -> Schedule, uuid: string, p: nat)
    requires AllSmooth(ops) && uuid in m
    requires schedules(uuid).hasDays && schedules(uuid).increment
    requires p <= schedules(uuid).cycle / 2 && Count(m[uuid]) == 2 * p + 1
    ensures var kinds := Kinds(m, ops, schedules, uuid); kinds == Turns(schedules(uuid).cycle / 2, p, |kinds|)
    decreases ops
  {
    if ops != [] {
      var s := schedules(ops[0].uuid);
      var next := After(m, ops[0], s);
      if ops[0].uuid != uuid {
        OthersKeep(m, ops[0], s, uuid);
        CycleFrom(next, ops[1..], schedules, uuid, p);
      } else {
        SmoothRun(m, ops[0], s);
        CycleFrom(next, ops[1..], schedules, uuid, if p == s.cycle / 2 then 0 else p + 1);
      }
    }
  }

  lemma NoMultipleBetween(d: int, m: int)
    requires -m < d * m < m
    ensures d == 0
  {
  }

  lemma Remainder(a: int, m: int, q: int, r: int)
    requires 0 <= r < m && a == q * m + r
    ensures a % m == r
  {
    assert a == a / m * m + a % m;
    assert (q - a / m) * m == q * m - a / m * m;
    NoMultipleBetween(q - a / m, m);
  }

  lemma Wrap(j: nat, m: nat)
    requires m > 0
    ensures (j + m) % m == j % m
  {
    assert j == j / m * m + j % m;
    assert (j / m + 1) * m == j / m * m + m;
    Remainder(j + m, m, j / m + 1, j % m);
  }

  /** Position `j` of the turns holds a full run exactly when `j + p + 1` is a multiple of the cycle. */
  lemma {:induction false} TurnsAreModular(half: nat, p: nat, n: nat, j: nat)
    requires p <= half && j < n
    ensures Turns(half, p, n)[j] <==> (j + p + 1) % (half + 1) != 0
    decreases n
  {
    var m := half + 1;
    if j == 0 {
      if p < half {
        Remainder(p + 1, m, 0, p + 1);
      } else {
        Wrap(0, m);
      }
    } else if p < half {
      TurnsAreModular(half, p + 1, n - 1, j - 1);
    } else {
      TurnsAreModular(half, 0, n - 1, j - 1);
      Wrap(j, m);
    }
  }

  /** When everything goes well, an incremental plan that is new to the state file makes a full backup and then
      exactly half its cycle, rounded down, incremental ones, and so on for ever, whatever other plans do. */
  lemma HalfACycleOfIncrementals(m: State, ops: seq<Op>, schedules: string -> Schedule, uuid: string, j: nat)
    requires AllSmooth(ops) && uuid !in m
    requires schedules(uuid).hasDays && schedules(uuid).increment
    requires j < |Kinds(m, ops, schedules, uuid)|
    ensures Kinds(m, ops, schedules, uuid)[j] <==> j % (schedules(uuid).cycle / 2 + 1) != 0
  {
    var half, n := schedules(uuid).cycle / 2, |Kinds(m, ops, schedules, uuid)|;
    CycleFromNothing(m, ops, schedules, uuid);
    TurnsAreModular(half, half, n, j);
    Wrap(j, half + 1);
  }

  lemma {:induction false} CycleFromNothing(m: State, ops: seq<Op>, schedules: string -> Schedule, uuid: string)
    requires AllSmooth(ops) && uuid !in m
    requires schedules(uuid).hasDays && schedules(uuid).increment
    ensures var kinds, half := Kinds(m, ops, schedules, uuid), schedules(uuid).cycle / 2;
            kinds == Turns(half, half, |kinds|)
    decreases ops
  {
    if ops != [] {
      var s := schedules(ops[0].uuid);
      var next := After(m, ops[0], s);
      if ops[0].uuid != uuid {
        OthersKeep(m, ops[0], s, uuid);
        CycleFromNothing(next, ops[1..], schedules, uuid);
      } else {
        SmoothRun(m, ops[0], s);
        CycleFrom(next, ops[1..], schedules, uuid, 0);
      }
    }
  }

  // ---- what is booked --------------------------------------------------------------------

  /** What happens to a plan's count: it is put back to 0, one is booked, or the plan's entry is lost. */
  datatype Mark = Reset | Book | Gone

  function FileAfter(m: State, ops: seq<Op>, schedules: string -> Schedule): State
    decreases ops
  {
    if ops == [] then m
    else FileAfter(After(m, ops[0], schedules(if ops[0].Run? then ops[0].uuid else "")), ops[1..], schedules)
  }

  /** The start of a run books one for its plan, or puts the count back when the run is full; one that finds the file
      illegible loses the other plans. */
  function StartMarks(m: State, op: Op, s: Schedule, uuid: string): seq<Mark>
    requires op.Run? && op.written
  {
    if op.uuid == uuid then [if Incremental(m, op, s) == Some(true) then Book else Reset]
    else if op.legible then [] else [Gone]
  }

  /** So does the save at its end, except that it books one for its plan in any case. */
  function SaveMarks(owner: string, save: Save, uuid: string): seq<Mark> {
    if save.Lost? then []
    else if owner == uuid then if save.legible then [Book] else [Reset, Book]
    else if save.legible then [] else [Gone]
  }

  function OpMarks(m: State, op: Op, s: Schedule, uuid: string): seq<Mark> {
    if op.Clear? then [Gone]
    else if op.written then StartMarks(m, op, s, uuid) + SaveMarks(op.uuid, op.save, uuid) else []
  }

  function Marks(m: State, ops: seq<Op>, schedules: string -> Schedule, uuid: string): seq<Mark>
    decreases ops
  {
    if ops == [] then []
    else
      var s := schedules(if ops[0].Run? then ops[0].uuid else "");
      OpMarks(m, ops[0], s, uuid) + Marks(After(m, ops[0], s), ops[1..], schedules, uuid)
  }

  /** Mark `r` is the last reset, and the entry has not been lost since: what follows is all booked. */
  predicate LastReset(marks: seq<Mark>, r: nat) {
    r < |marks| && marks[r] == Reset && forall i :: r < i < |marks| ==> marks[i] == Book
  }

  /** The entry is there when there is such a mark, and counts what was booked since. */
  ghost predicate Tells(marks: seq<Mark>, e: Option<Record>) {
    && (e.Some? <==> exists r :: LastReset(marks, r))
    && forall r :: LastReset(marks, r) ==> Count(e.value) == |marks| - 1 - r
  }

  lemma ResetTells(marks: seq<Mark>, e: Option<Record>)
    requires e.Some? && Count(e.value) == 0
    ensures Tells(marks + [Reset], e)
  {
    assert (marks + [Reset])[|marks|] == Reset && LastReset(marks + [Reset], |marks|);
    assert forall r :: LastReset(marks + [Reset], r) ==> r == |marks|;
  }

  lemma BookTells(marks: seq<Mark>, was: Option<Record>, e: Option<Record>)
    requires Tells(marks, was) && was.Some? && e.Some? && Count(e.value) == Count(was.value) + 1
    ensures Tells(marks + [Book], e)
  {
    var r :| LastReset(marks, r);
    assert LastReset(marks + [Book], r);
    forall r: nat | LastReset(marks + [Book], r)
      ensures LastReset(marks, r)
    {
      assert forall i :: 0 <= i < |marks| ==> (marks + [Book])[i] == marks[i];
    }
  }

  lemma GoneTells(marks: seq<Mark>)
    ensures Tells(marks + [Gone], None)
  {
    assert (marks + [Gone])[|marks|] == Gone;
    assert forall r :: !LastReset(marks + [Gone], r);
  }

  lemma StartTells(marks: seq<Mark>, m: State, op: Op, s: Schedule, uuid: string)
    requires op.Run? && op.written && Tells(marks, Entry(m, uuid))
    ensures Tells(marks + StartMarks(m, op, s, uuid), Entry(AfterStart(m, op, s), uuid))
  {
    hide Tells;
    var e := Entry(AfterStart(m, op, s), uuid);
    if op.uuid == uuid {
      if Incremental(m, op, s) == Some(true) {
        BookTells(marks, Entry(m, uuid), e);
      } else {
        ResetTells(marks, e);
      }
    } else if op.legible {
      assert marks + [] == marks;
    } else {
      GoneTells(marks);
    }
  }

  lemma SaveTells(marks: seq<Mark>, m: State, owner: string, save: Save, uuid: string)
    requires Tells(marks, Entry(m, uuid)) && owner in m
    ensures Tells(marks + SaveMarks(owner, save, uuid), Entry(AfterSave(m, owner, save), uuid))
  {
    hide Tells;
    var e := Entry(AfterSave(m, owner, save), uuid);
    if save.Lost? || (owner != uuid && save.legible) {
      assert marks + [] == marks;
    } else if owner != uuid {
      GoneTells(marks);
    } else if save.legible {
      BookTells(marks, Entry(m, uuid), e);
    } else {
      var zero := Some(Record(Never, false, Some(0)));
      ResetTells(marks, zero);
      BookTells(marks + [Reset], zero, e);
      assert marks + [Reset, Book] == marks + [Reset] + [Book];
    }
  }

  lemma OpTells(marks: seq<Mark>, m: State, op: Op, s: Schedule, uuid: string)
    requires Tells(marks, Entry(m, uuid))
    ensures Tells(marks + OpMarks(m, op, s, uuid), Entry(After(m, op, s), uuid))
  {
    hide Tells;
    if op.Clear? {
      GoneTells(marks);
    } else if op.written {
      var start, save := StartMarks(m, op, s, uuid), SaveMarks(op.uuid, op.save, uuid);
      StartTells(marks, m, op, s, uuid);
      SaveTells(marks + start, AfterStart(m, op, s), op.uuid, op.save, uuid);
      assert marks + (start + save) == marks + start + save;
    } else {
      assert marks + [] == marks;
    }
  }

  lemma {:induction false} MarksTell(
    marks: seq<Mark>, m: State, ops: seq<Op>, schedules: string -> Schedule, uuid: string)
    requires Tells(marks, Entry(m, uuid))
    ensures Tells(marks + Marks(m, ops, schedules, uuid), Entry(FileAfter(m, ops, schedules), uuid))
    decreases ops
  {
    hide Tells;
    if ops == [] {
      assert marks + [] == marks;
    } else {
      var s := schedules(if ops[0].Run? then ops[0].uuid else "");
      var first, next := OpMarks(m, ops[0], s, uuid), After(m, ops[0], s);
      OpTells(marks, m, ops[0], s, uuid);
      MarksTell(marks + first, next, ops[1..], schedules, uuid);
      var rest := Marks(next, ops[1..], schedules, uuid);
      assert marks + (first + rest) == marks + first + rest;
    }
  }

  /** Whatever has happened to the state file and to its other plans: a run of an incremental plan is incremental
      exactly when it is not forced to be full, finds the file legible, and the starts and saves booked for the plan
      since its last reset are fewer than its cycle.  Resets are its full runs and its saves on an illegible file. */
  lemma IncrementalExactlyWhen(m: State, ops: seq<Op>, schedules: string -> Schedule, op: Op)
    requires op.Run? && op.written && op.uuid !in m
    ensures var s, marks := schedules(op.uuid), Marks(m, ops, schedules, op.uuid);
      Incremental(FileAfter(m, ops, schedules), op, s) == Some(true) <==>
      !op.forceFull && op.legible && s.hasDays && s.increment
      && exists r :: LastReset(marks, r) && |marks| - 1 - r < s.cycle
  {
    var marks := Marks(m, ops, schedules, op.uuid);
    MarksTell([], m, ops, schedules, op.uuid);
    assert [] + marks == marks;
  }

  /** What a start makes of the count that it finds, which counts as 0 when it is missing or negative. */
  lemma StartCounts(m: State, op: Op, s: Schedule)
    requires op.Run? && op.written && op.legible && op.uuid in m
    ensures var c := m[op.uuid].count;
      var n := if c.Some? && c.value > 0 then c.value else 0;
      var more := !op.forceFull && s.hasDays && s.increment && n < s.cycle;
      && Incremental(m, op, s) == Some(more)
      && AfterStart(m, op, s)[op.uuid].count == Some(if more then n + 1 else 0)
      && forall save: Save :: save.Saved? && save.legible ==>
           AfterSave(m, op.uuid, save)[op.uuid].count == Some(n + 1)
  {
  }

  /** Starting a run keeps the result of the last one, and saving one puts in its own; neither touches another plan's
      entry, unless the file is illegible, when all others are lost. */
  lemma OthersAreKept(m: State, op: Op, s: Schedule, uuid: string)
    requires op.Run? && op.written
    ensures Entry(AfterStart(m, op, s), uuid) ==
      if uuid != op.uuid then (if op.legible then Entry(m, uuid) else None)
      else Some(AfterStart(m, op, s)[uuid])
    ensures var was := if op.legible then Entry(m, op.uuid) else None;
      var e := AfterStart(m, op, s)[op.uuid];
      if was.Some? then e.last == was.value.last && e.failed == was.value.failed else e == Record(Never, false, Some(0))
    ensures op.save.Saved? ==>
      var e := AfterSave(m, op.uuid, op.save);
      && op.uuid in e && e[op.uuid].last == At(op.save.now) && e[op.uuid].failed == op.save.failed
      && (uuid != op.uuid ==> Entry(e, uuid) == if op.save.legible then Entry(m, uuid) else None)
  {
  }

  // ---- when things go wrong --------------------------------------------------------------

  /** The saves of plan `uuid` find the state file legible. */
  predicate SavesLegible(ops: seq<Op>, uuid: string) {
    forall k :: 0 <= k < |ops| && ops[k].Run? && ops[k].uuid == uuid && ops[k].save.Saved? ==> ops[k].save.legible
  }

  /** The longest stretch of incremental runs, `open` of them already running when `kinds` begins. */
  function Longest(kinds: seq<bool>, open: nat): nat {
    if kinds == [] then open
    else if kinds[0] then Longest(kinds[1..], open + 1)
    else Max(open, Longest(kinds[1..], 0))
  }

  lemma {:induction false} LongestIsLongest(kinds: seq<bool>, open: nat, i: nat, j: nat)
    requires i <= j <= |kinds| && forall k :: i <= k < j ==> kinds[k]
    ensures (if i == 0 then open else 0) + j - i <= Longest(kinds, open)
    decreases kinds
  {
    if kinds != [] {
      if i > 0 {
        LongestIsLongest(kinds[1..], if kinds[0] then open + 1 else 0, i - 1, j - 1);
      } else if j > 0 {
        LongestIsLongest(kinds[1..], open + 1, 0, j - 1);
      } else if kinds[0] {
        LongestIsLongest(kinds[1..], open + 1, 0, 0);
      }
    }
  }

  lemma {:induction false} NeverMoreThanACycleFrom(
    m: State, ops: seq<Op>, schedules: string -> Schedule, uuid: string, open: nat)
    requires SavesLegible(ops, uuid) || schedules(uuid).cycle < 2
    requires open <= schedules(uuid).cycle && (uuid in m ==> open <= Count(m[uuid]))
    ensures Longest(Kinds(m, ops, schedules, uuid), open) <= schedules(uuid).cycle
    decreases ops
  {
    if ops != [] {
      var op := ops[0];
      var s := schedules(if op.Run? then op.uuid else uuid);
      var next := After(m, op, s);
      if op.Run? && op.uuid == uuid && op.written && Incremental(m, op, s).value {
        NeverMoreThanACycleFrom(next, ops[1..], schedules, uuid, open + 1);
      } else if op.Run? && op.uuid == uuid && op.written {
        NeverMoreThanACycleFrom(next, ops[1..], schedules, uuid, 0);
      } else {
        NeverMoreThanACycleFrom(next, ops[1..], schedules, uuid, open);
      }
    }
  }

  /** Saves that are lost, a state file that cannot be read at the start, forced full runs and removals of the file
      never let a plan make more incremental runs in a row than its cycle has, as long as its own saves find the
      file legible. */
  lemma NeverMoreThanACycle(
    m: State, ops: seq<Op>, schedules: string -> Schedule, uuid: string, i: nat, j: nat)
    requires SavesLegible(ops, uuid) || schedules(uuid).cycle < 2
    requires i <= j <= |Kinds(m, ops, schedules, uuid)|
    requires forall k :: i <= k < j ==> Kinds(m, ops, schedules, uuid)[k]
    ensures j - i <= schedules(uuid).cycle
  {
    NeverMoreThanACycleFrom(m, ops, schedules, uuid, 0);
    LongestIsLongest(Kinds(m, ops, schedules, uuid), 0, i, j);
  }

  /** A run that starts well but whose save finds the state file illegible. */
  function Garbled(uuid: string): Op {
    Run(uuid, false, true, true, Saved(false, 0, false))
  }

  /** A save that finds the file illegible puts the count back to 1: a plan with a cycle of two or more can then
      run incrementally for ever. */
  lemma {:induction false} GarbledSavesNeverFill(m: State, schedules: string -> Schedule, uuid: string, n: nat)
    requires schedules(uuid).hasDays && schedules(uuid).increment && schedules(uuid).cycle >= 2
    requires uuid in m && Count(m[uuid]) == 1
    ensures Kinds(m, seq(n, k => Garbled(uuid)), schedules, uuid) == seq(n, k => true)
    decreases n
  {
    var ops := seq(n, k => Garbled(uuid));
    if n > 0 {
      GarbledSavesNeverFill(After(m, ops[0], schedules(uuid)), schedules, uuid, n - 1);
      assert ops[1..] == seq(n - 1, k => Garbled(uuid));
    }
  }

  /** A plan's incremental runs stay within its cycle. */
  ghost predicate StaysInCycle(m: State, ops: seq<Op>, schedules: string -> Schedule, uuid: string) {
    Longest(Kinds(m, ops, schedules, uuid), 0) <= schedules(uuid).cycle
  }

  /** An incremental plan stays within its cycle whatever happens, saves on an illegible file included or excluded, if
      and only if these are excluded or its cycle is less than two. */
  lemma InCycleExactlyWhen(schedules: string -> Schedule, uuid: string, legible: bool)
    requires schedules(uuid).hasDays && schedules(uuid).increment
    ensures (forall m, ops :: (legible ==> SavesLegible(ops, uuid)) ==> StaysInCycle(m, ops, schedules, uuid)) <==>
              legible || schedules(uuid).cycle < 2
  {
    if legible || schedules(uuid).cycle < 2 {
      forall m, ops | legible ==> SavesLegible(ops, uuid) ensures StaysInCycle(m, ops, schedules, uuid) {
        NeverMoreThanACycleFrom(m, ops, schedules, uuid, 0);
      }
    } else {
      var m: State := map[uuid := Record(Never, false, Some(1))];
      var n := schedules(uuid).cycle + 1;
      GarbledSavesNeverFill(m, schedules, uuid, n);
      LongestIsLongest(seq(n, k => true), 0, 0, n);
      assert !StaysInCycle(m, seq(n, k => Garbled(uuid)), schedules, uuid);
    }
  }
}
