/** The watched processes of dispatcher.py: a pass over the list that removes from it as it goes. */
module WatchList {
  datatype Callback = NoCallback | Call(id: nat)

  /** A watched process and what to call when it has ended. */
  datatype Entry = Entry(proc: nat, callback: Callback)

  /** What a pass leaves on the list, the entries it took off in order with the turns at which it did so, and the
      entries that its callbacks appended. */
  datatype Pass = Pass(rest: seq<Entry>, fired: seq<Entry>, turns: seq<nat>, added: seq<Entry>)

  /** `list.remove`: the first element equal to `e` goes. */
  function Remove(s: seq<Entry>, e: Entry): (r: seq<Entry>)
    requires e in s
    ensures |r| == |s| - 1
    ensures multiset(r) == multiset(s) - multiset{e}
  {
    assert s == [s[0]] + s[1..];
    if s[0] == e then s[1..] else [s[0]] + Remove(s[1..], e)
  }

  /** The pass from position `i` on.  `done(i)` holds the processes that have ended when position `i` is looked
      at; `script` lists what the callbacks still to come append, nothing once it is used up. */
  function Check(done: nat -> set<nat>, script: seq<seq<Entry>>, watch: seq<Entry>, i: nat): (p: Pass)
    decreases |script|, |watch| - i
  {
    if i >= |watch| then Pass(watch, [], [], [])
    else if watch[i].proc !in done(i) then Check(done, script, watch, i + 1)
    else
      var e := watch[i];
      var left := Remove(watch, e);
      if e.callback.NoCallback? || script == [] then
        var p := Check(done, script, left, i + 1);
        Pass(p.rest, [e] + p.fired, [i] + p.turns, p.added)
      else
        var p := Check(done, script[1..], left + script[0], i + 1);
        Pass(p.rest, [e] + p.fired, [i] + p.turns, script[0] + p.added)
  }

  function Callbacks(fired: seq<Entry>): seq<nat> {
    if fired == [] then []
    else (if fired[0].callback.Call? then [fired[0].callback.id] else []) + Callbacks(fired[1..])
  }

  lemma {:induction false} CallbacksAppend(a: seq<Entry>, e: Entry)
    ensures Callbacks(a + [e]) == Callbacks(a) + if e.callback.Call? then [e.callback.id] else []
  {
    if a != [] {
      CallbacksAppend(a[1..], e);
      assert (a + [e])[1..] == a[1..] + [e];
    }
  }

  /** The processes that the pass finds ended: none any more from the first turn of `raises` on. */
  function Heard(done: nat -> set<nat>, raises: set<nat>): nat -> set<nat> {
    (k: nat) => if exists j :: j in raises && j <= k then {} else done(k)
  }

  lemma HeardAt(done: nat -> set<nat>, raises: set<nat>, i: nat)
    ensures (forall j: nat :: j <= i ==> j !in raises) ==> Heard(done, raises)(i) == done(i)
    ensures i in raises ==> forall k: nat :: i <= k ==> Heard(done, raises)(k) == {}
  {}

  lemma SkippedTurn(done: nat -> set<nat>, script: seq<seq<Entry>>, watch: seq<Entry>, i: nat)
    requires i < |watch| && watch[i].proc !in done(i)
    ensures Check(done, script, watch, i) == Check(done, script, watch, i + 1)
  {}

  /** A turn that takes entry `i` off, `fired` having been taken off before. */
  lemma TakenTurn(done: nat -> set<nat>, script: seq<seq<Entry>>, watch: seq<Entry>, i: nat, fired: seq<Entry>)
    requires i < |watch| && watch[i].proc in done(i)
    ensures var p, e := Check(done, script, watch, i), watch[i];
      var q := if e.callback.NoCallback? || script == [] then Check(done, script, Remove(watch, e), i + 1)
               else Check(done, script[1..], Remove(watch, e) + script[0], i + 1);
      p.rest == q.rest && fired + p.fired == fired + [e] + q.fired
  {}

  lemma {:induction false} NothingHeard(done: nat -> set<nat>, script: seq<seq<Entry>>, watch: seq<Entry>, i: nat)
    requires forall k: nat :: i <= k ==> done(k) == {}
    ensures Check(done, script, watch, i) == Pass(watch, [], [], [])
    decreases |watch| - i
  {
    if i < |watch| {
      NothingHeard(done, script, watch, i + 1);
    }
  }

  lemma PassEnds(done: nat -> set<nat>, script: seq<seq<Entry>>, watch: seq<Entry>, i: nat, fired: seq<Entry>)
    requires i >= |watch|
    ensures var p := Check(done, script, watch, i); p.rest == watch && fired + p.fired == fired
  {}

  class DispatchExecuter {
    var watch: seq<Entry>

    /** `Dispatcher.watch_process`. */
    method WatchProcess(proc: nat, callback: Callback)
      modifies this
      ensures watch == old(watch) + [Entry(proc, callback)]
    {
      watch := watch + [Entry(proc, callback)];
    }

    /** `_check_entries`: `called` lists the callbacks in the order in which they ran.  At the turns of `raises` the
        process cannot be polled, and an exception ends the pass: then it is one that hears of no end any more, and
        some such turn was still within the list. */
    method CheckEntries(done: nat -> set<nat>, raises: set<nat>, script: seq<seq<Entry>>)
      returns (called: seq<nat>, ok: bool)
      modifies this
      ensures watch == Check(Heard(done, raises), script, old(watch), 0).rest
      ensures called == Callbacks(Check(Heard(done, raises), script, old(watch), 0).fired)
      ensures ok <==> forall j: nat :: j < |watch| ==> j !in raises
    {
      hide Heard, Check, Remove;
      called := [];
      var i, todo := 0, script;
      ghost var fired: seq<Entry> := [];
      ghost var all := Check(Heard(done, raises), script, watch, 0);
      assert all.fired == fired + all.fired;
      while i < |watch|
        invariant all.rest == Check(Heard(done, raises), todo, watch, i).rest
        invariant all.fired == fired + Check(Heard(done, raises), todo, watch, i).fired
        invariant called == Callbacks(fired) && forall j: nat :: j < i ==> j !in raises
        decreases |todo|, |watch| - i
      {
        var e := watch[i];
        HeardAt(done, raises, i);
        if i in raises {
          NothingHeard(Heard(done, raises), todo, watch, i);
          assert fired + [] == fired;
          return called, false;
        }
        if e.proc in done(i) {
          TakenTurn(Heard(done, raises), todo, watch, i, fired);
          CallbacksAppend(fired, e);
          fired := fired + [e];
          watch := Remove(watch, e);
          if e.callback.Call? {
            called := called + [e.callback.id];
            if todo != [] {
              watch := watch + todo[0];
              todo := todo[1..];
            }
          }
        } else {
          SkippedTurn(Heard(done, raises), todo, watch, i);
        }
        i := i + 1;
      }
      PassEnds(Heard(done, raises), todo, watch, i, fired);
      return called, true;
    }
  }

  // ---- nothing is lost, nothing runs twice or early --------------------------------------

  lemma MoveOne(
    w: multiset<Entry>, e: Entry, more: multiset<Entry>, added: multiset<Entry>, rest: multiset<Entry>,
    fired: multiset<Entry>)
    requires e in w && rest + fired == (w - multiset{e}) + more + added
    ensures rest + (multiset{e} + fired) == w + (more + added)
  {
    assert rest + (multiset{e} + fired) == multiset{e} + (rest + fired);
    assert multiset{e} + (w - multiset{e}) == w;
  }

  lemma FireOne(watch: seq<Entry>, e: Entry, more: seq<Entry>, p: Pass)
    requires e in watch
    requires multiset(p.rest) + multiset(p.fired) == multiset(Remove(watch, e) + more) + multiset(p.added)
    ensures multiset(p.rest) + multiset([e] + p.fired) == multiset(watch) + multiset(more + p.added)
  {
    assert multiset([e] + p.fired) == multiset{e} + multiset(p.fired);
    assert multiset(more + p.added) == multiset(more) + multiset(p.added);
    assert multiset(Remove(watch, e) + more) == multiset(Remove(watch, e)) + multiset(more);
    MoveOne(multiset(watch), e, multiset(more), multiset(p.added), multiset(p.rest), multiset(p.fired));
  }

  /** No entry is lost and none fires twice: what fired and what remains is what was there and what was added. */
  lemma {:induction false} NothingIsLost(done: nat -> set<nat>, script: seq<seq<Entry>>, watch: seq<Entry>, i: nat)
    ensures var p := Check(done, script, watch, i);
            multiset(p.rest) + multiset(p.fired) == multiset(watch) + multiset(p.added)
    decreases |script|, |watch| - i
  {
    if i >= |watch| {
    } else if watch[i].proc !in done(i) {
      NothingIsLost(done, script, watch, i + 1);
    } else {
      var e := watch[i];
      var left := Remove(watch, e);
      if e.callback.NoCallback? || script == [] {
        NothingIsLost(done, script, left, i + 1);
        assert left + [] == left;
        FireOne(watch, e, [], Check(done, script, left, i + 1));
        assert [] + Check(done, script, left, i + 1).added == Check(done, script, left, i + 1).added;
      } else {
        NothingIsLost(done, script[1..], left + script[0], i + 1);
        FireOne(watch, e, script[0], Check(done, script[1..], left + script[0], i + 1));
      }
    }
  }

  /** Processes do not come back to life. */
  ghost predicate Monotone(done: nat -> set<nat>) {
    forall i, j :: 0 <= i <= j ==> done(i) <= done(j)
  }

  /** Nothing fires before its process has ended: each entry that was taken off had ended when the pass looked at it,
      which it did once, at a turn of its own between the first and the last. */
  lemma {:induction false} OnlyTheEndedFire(
    done: nat -> set<nat>, script: seq<seq<Entry>>, watch: seq<Entry>, i: nat, m: nat)
    requires i <= |watch| && m < |Check(done, script, watch, i).fired|
    ensures var p := Check(done, script, watch, i);
            && |p.turns| == |p.fired|
            && i <= p.turns[m] <= |p.rest|
            && p.fired[m].proc in done(p.turns[m])
            && (0 < m ==> p.turns[m - 1] < p.turns[m])
    decreases |script|, |watch| - i
  {
    if i < |watch| {
      if watch[i].proc !in done(i) {
        OnlyTheEndedFire(done, script, watch, i + 1, m);
      } else {
        var used := if watch[i].callback.NoCallback? then [] else script;
        var more := if used == [] then [] else used[0];
        var left := Remove(watch, watch[i]) + more;
        assert Remove(watch, watch[i]) + [] == Remove(watch, watch[i]);
        NeverShorter(done, if used == [] then script else script[1..], left, i + 1);
        if m > 0 {
          OnlyTheEndedFire(done, if used == [] then script else script[1..], left, i + 1, m - 1);
        }
      }
    }
  }

  /** What a pass has gone past stays on the list, or as much of it; each entry taken off has its turn. */
  lemma {:induction false} NeverShorter(done: nat -> set<nat>, script: seq<seq<Entry>>, watch: seq<Entry>, i: nat)
    ensures var p := Check(done, script, watch, i);
            |p.turns| == |p.fired| && (i <= |watch| + 1 ==> i <= |p.rest| + 1) && (i > |watch| ==> p.fired == [])
    decreases |script|, |watch| - i
  {
    if i < |watch| {
      if watch[i].proc !in done(i) {
        NeverShorter(done, script, watch, i + 1);
      } else {
        var left := Remove(watch, watch[i]);
        if watch[i].callback.NoCallback? || script == [] {
          NeverShorter(done, script, left, i + 1);
        } else {
          NeverShorter(done, script[1..], left + script[0], i + 1);
        }
      }
    }
  }

  // ---- how many fire in one pass ---------------------------------------------------------

  function Ended(s: seq<Entry>, procs: set<nat>): nat {
    if s == [] then 0 else (if s[0].proc in procs then 1 else 0) + Ended(s[1..], procs)
  }

  lemma {:induction false} EndedAppend(a: seq<Entry>, b: seq<Entry>, procs: set<nat>)
    ensures Ended(a + b, procs) == Ended(a, procs) + Ended(b, procs)
  {
    if a == [] {
      assert a + b == b;
    } else {
      EndedAppend(a[1..], b, procs);
      assert (a + b)[1..] == a[1..] + b;
    }
  }

  /** Removing an element at or before `i` moves what follows `i` one place down. */
  lemma {:induction false} RemoveShifts(s: seq<Entry>, i: nat)
    requires i < |s|
    ensures Remove(s, s[i])[i..] == s[i + 1..]
  {
    if s[0] != s[i] {
      RemoveShifts(s[1..], i - 1);
    }
  }

  lemma DropSum(a: seq<Entry>, b: seq<Entry>, i: nat)
    requires i <= |a|
    ensures (a + b)[i..] == a[i..] + b
  {
  }

  /** The entries a pass has still to look at, one step later. */
  lemma AfterRemoval(s: seq<Entry>, more: seq<Entry>, i: nat)
    requires i < |s|
    ensures (Remove(s, s[i]) + more)[i..] == s[i + 1..] + more
  {
    RemoveShifts(s, i);
    DropSum(Remove(s, s[i]), more, i);
  }

  /** A pass takes off at least half, rounded up, as many entries as had ended when it began. */
  lemma {:induction false} AtLeastHalfFire(
    done: nat -> set<nat>, script: seq<seq<Entry>>, watch: seq<Entry>, i: nat, procs: set<nat>)
    requires i <= |watch|
    requires Monotone(done) && procs <= done(i)
    ensures (Ended(watch[i..], procs) + 1) / 2 <= |Check(done, script, watch, i).fired|
    decreases |script|, |watch| - i
  {
    if i < |watch| {
      assert watch[i..][1..] == watch[i + 1..];
      if watch[i].proc !in done(i) {
        AtLeastHalfFire(done, script, watch, i + 1, procs);
      } else {
        var used := if watch[i].callback.NoCallback? then [] else script;
        var more := if used == [] then [] else used[0];
        var left := Remove(watch, watch[i]) + more;
        AfterRemoval(watch, more, i);
        EndedAppend(watch[i + 1..], more, procs);
        assert Remove(watch, watch[i]) + [] == Remove(watch, watch[i]);
        if i < |left| {
          assert left[i..][1..] == left[i + 1..];
          AtLeastHalfFire(done, if used == [] then script else script[1..], left, i + 1, procs);
        }
      }
    }
  }

  /** The processes of `procs` have ended, and none ends during the pass. */
  function Always(procs: set<nat>): nat -> set<nat> {
    (k: nat) => procs
  }

  function Copies(e: Entry, n: nat): seq<Entry> {
    seq(n, k => e)
  }

  /** A pass need not take off the ones that had ended when it began: one that ends at turn `k` can take the turn of
      its neighbour, which then waits for the next pass although it had ended all along. */
  lemma {:induction false} LateEntryTakesTheTurn(done: nat -> set<nat>, late: Entry, ended: Entry, k: nat, i: nat)
    requires i <= k && late != ended && late.proc in done(k)
    requires forall j :: i <= j < k ==> late.proc !in done(j)
    ensures Check(done, [], Copies(late, k + 1) + [ended], i) == Pass(Copies(late, k) + [ended], [late], [k], [])
    decreases k - i
  {
    var watch, left := Copies(late, k + 1) + [ended], Copies(late, k) + [ended];
    CopiesFirst(late, ended, k);
    assert watch[i] == late && |watch| == k + 2 && |left| == k + 1;
    if i < k {
      LateEntryTakesTheTurn(done, late, ended, k, i + 1);
    } else {
      assert Check(done, [], left, k + 1) == Pass(left, [], [], []);
    }
  }

  lemma CopiesFirst(e: Entry, last: Entry, k: nat)
    ensures e in Copies(e, k + 1) + [last]
    ensures Remove(Copies(e, k + 1) + [last], e) == Copies(e, k) + [last]
  {
    var s := Copies(e, k + 1) + [last];
    assert s[0] == e;
    assert s[1..] == Copies(e, k) + [last];
  }

  /** When no process ends during the pass, the entries it takes off are themselves at least half, rounded up,
      of those that had ended when it began. */
  lemma PunctualHalf(done: nat -> set<nat>, script: seq<seq<Entry>>, watch: seq<Entry>)
    requires forall k: nat :: done(k) == done(0)
    ensures var p := Check(done, script, watch, 0);
            Ended(p.fired, done(0)) == |p.fired| && (Ended(watch, done(0)) + 1) / 2 <= |p.fired|
  {
    assert watch[0..] == watch;
    AtLeastHalfFire(done, script, watch, 0, done(0));
    var p := Check(done, script, watch, 0);
    forall m | 0 <= m < |p.fired| ensures p.fired[m].proc in done(0) {
      OnlyTheEndedFire(done, script, watch, 0, m);
    }
    AllEnded(p.fired, done(0));
  }

  lemma {:induction false} AllEnded(s: seq<Entry>, procs: set<nat>)
    requires forall m :: 0 <= m < |s| ==> s[m].proc in procs
    ensures Ended(s, procs) == |s|
  {
    if s != [] {
      AllEnded(s[1..], procs);
    }
  }

  lemma {:induction false} NoneEnded(s: seq<Entry>, procs: set<nat>)
    requires forall m :: 0 <= m < |s| ==> s[m].proc !in procs
    ensures Ended(s, procs) == 0
  {
    if s != [] {
      NoneEnded(s[1..], procs);
    }
  }

  /** At least half of the entries that had ended when the pass began are taken off by it. */
  ghost predicate TakesHalf(done: nat -> set<nat>, script: seq<seq<Entry>>, watch: seq<Entry>) {
    Ended(watch, done(0)) <= 2 * Ended(Check(done, script, watch, 0).fired, done(0))
  }

  /** The first turn at which a process has ended that had not at the start. */
  lemma {:induction false} FirstLate(done: nat -> set<nat>, late: nat, k: nat) returns (first: nat)
    requires late !in done(0) && late in done(k)
    ensures first <= k && late in done(first) && forall j :: 0 <= j < first ==> late !in done(j)
  {
    if j :| 0 <= j < k && late in done(j) {
      first := FirstLate(done, late, j);
    } else {
      first := k;
    }
  }

  /** A course of events in which processes end takes half of those that had ended off every list, if and only if none
      had ended at the start or none ends later. */
  lemma HalfExactlyWhen(done: nat -> set<nat>)
    requires Monotone(done)
    ensures (forall script, watch :: TakesHalf(done, script, watch)) <==>
              done(0) == {} || forall k: nat :: done(k) == done(0)
  {
    if done(0) == {} {
      forall script, watch ensures TakesHalf(done, script, watch) {
        NoneEnded(watch, done(0));
      }
    } else if forall k: nat :: done(k) == done(0) {
      forall script, watch ensures TakesHalf(done, script, watch) {
        PunctualHalf(done, script, watch);
      }
    } else {
      var p :| p in done(0);
      var k: nat :| done(k) != done(0);
      assert done(0) <= done(k);
      var q :| q in done(k) && q !in done(0);
      var first := FirstLate(done, q, k);
      NeighbourLosesItsTurn(done, Entry(q, NoCallback), Entry(p, NoCallback), first);
    }
  }

  lemma NeighbourLosesItsTurn(done: nat -> set<nat>, late: Entry, ended: Entry, k: nat)
    requires ended.proc in done(0) && late.proc in done(k) && forall j :: 0 <= j < k ==> late.proc !in done(j)
    requires late.proc !in done(0)
    ensures !TakesHalf(done, [], Copies(late, k + 1) + [ended])
  {
    LateEntryTakesTheTurn(done, late, ended, k, 0);
    EndedAppend(Copies(late, k + 1), [ended], done(0));
    NoneEnded(Copies(late, k + 1), done(0));
    AllEnded([ended], done(0));
    NoneEnded([late], done(0));
  }

  // ---- a list on which everything has ended ----------------------------------------------

  function Evens(s: seq<Entry>): (r: seq<Entry>)
    ensures |r| == (|s| + 1) / 2
  {
    if s == [] then [] else [s[0]] + if |s| == 1 then [] else Evens(s[2..])
  }

  /** When everything has ended and nothing is appended, every other entry fires. */
  lemma {:induction false} EveryOtherFires(procs: set<nat>, watch: seq<Entry>, i: nat)
    requires i <= |watch| && forall e :: e in watch ==> e.proc in procs
    ensures var p := Check(Always(procs), [], watch, i);
            p.fired == Evens(watch[i..]) && |p.rest| == |watch| - |p.fired|
    decreases |watch| - i
  {
    if i < |watch| {
      var left := Remove(watch, watch[i]);
      RemoveShifts(watch, i);
      RemoveKeeps(watch, watch[i]);
      if i + 1 <= |left| {
        EveryOtherFires(procs, left, i + 1);
        assert left[i..][1..] == left[i + 1..] && watch[i + 1..][1..] == watch[i..][2..];
      }
    }
  }

  lemma RemoveKeeps(watch: seq<Entry>, e: Entry)
    requires e in watch
    ensures forall x :: x in Remove(watch, e) ==> x in watch
  {
  }

  /** When nothing is appended, what stays on the list was there. */
  lemma {:induction false} RestWasThere(procs: set<nat>, watch: seq<Entry>, i: nat)
    ensures forall e :: e in Check(Always(procs), [], watch, i).rest ==> e in watch
    decreases |watch| - i
  {
    if i < |watch| {
      if watch[i].proc in procs {
        RemoveKeeps(watch, watch[i]);
        RestWasThere(procs, Remove(watch, watch[i]), i + 1);
      } else {
        RestWasThere(procs, watch, i + 1);
      }
    }
  }

  function Passes(procs: set<nat>, watch: seq<Entry>, n: nat): seq<Entry>
    decreases n
  {
    if n == 0 then watch else Passes(procs, Check(Always(procs), [], watch, 0).rest, n - 1)
  }

  function Pow2(n: nat): (r: nat)
    ensures r > 0
  {
    if n == 0 then 1 else 2 * Pow2(n - 1)
  }

  function Halved(a: nat, n: nat): nat {
    if n == 0 then a else Halved(a / 2, n - 1)
  }

  lemma {:induction false} HalvedAway(a: nat, n: nat)
    ensures Halved(a, n) == 0 <==> a < Pow2(n)
  {
    if n > 0 {
      HalvedAway(a / 2, n - 1);
    }
  }

  /** Each pass halves what is left, rounding down, so a list is empty after `n` passes exactly when it was
      shorter than 2^n. */
  lemma {:induction false} Drained(procs: set<nat>, watch: seq<Entry>, n: nat)
    requires forall e :: e in watch ==> e.proc in procs
    ensures |Passes(procs, watch, n)| == Halved(|watch|, n)
    ensures Passes(procs, watch, n) == [] <==> |watch| < Pow2(n)
    decreases n
  {
    if n > 0 {
      EveryOtherFires(procs, watch, 0);
      RestWasThere(procs, watch, 0);
      assert watch[0..] == watch;
      Drained(procs, Check(Always(procs), [], watch, 0).rest, n - 1);
    }
    HalvedAway(|watch|, n);
  }
}
