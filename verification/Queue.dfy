/** The queue of plans waiting for a backup, backup.py: a list, and an index of the identifiers in it. */
module Queue {
  import opened Wrappers
  import opened Schedule

  /** A plan, as far as the queue looks at it.  `runnable` says whether its schedule names the current weekday. */
  datatype PlanData = Plan(uuid: string, id: string, path: string, wait: nat, runnable: bool)

  /** The constructor of a plan makes its path end in a slash. */
  predicate IsPlan(p: PlanData) {
    p.path != "" && p.path[|p.path| - 1] == '/'
  }

  type Plan = p: PlanData | IsPlan(p) witness PlanData.Plan("", "", "/", 0, false)

  const BACKOFF := 900

  /** What a request finds: the time, the state file, and which plans pass their checks. */
  datatype Moment = Moment(now: int, state: State, passes: Plan -> bool)

  /** What a request asks for; `path` is a path, a plan's id, or empty. */
  datatype Request = Request(path: string, force: bool)

  /** `_match_path_or_id`. */
  predicate Matches(v: string, p: PlanData)
    requires p.path != ""
  {
    if v == "" then false
    else if |v| == 10 && v[0] == 'P' then p.id == v
    else if p.path[|p.path| - 1] == '/' && v[|v| - 1] != '/' then p.path[..|p.path| - 1] == v
    else if p.path[|p.path| - 1] != '/' && v[|v| - 1] == '/' then p.path == v[..|v| - 1]
    else p.path == v
  }

  /** What follows the checks in `next`: the plan runs, is passed over, or its last run's date cannot be read. */
  datatype Verdict = Runs | PassedOver | BadDate

  function Judge(p: Plan, w: Moment, r: Request): Verdict {
    if !w.passes(p) then PassedOver
    else if Matches(r.path, p) || r.force || p.uuid !in w.state then Runs
    else match w.state[p.uuid].last
      case Never => Runs
      case Illegible => BadDate
      case At(t) => if w.now - t > p.wait || w.state[p.uuid].failed then Runs else PassedOver
  }

  /** `next` yields a plan or nothing, or raises ValueError because of a plan, which is lost. */
  datatype Next = Chosen(plan: Plan) | Nothing | Raised(plan: Plan)

  /** What `next` yields and what it leaves in the queue. */
  function Advance(entries: seq<Plan>, w: Moment, r: Request): (Next, seq<Plan>) {
    if entries == [] then (Nothing, [])
    else match Judge(entries[0], w, r)
      case Runs => (Chosen(entries[0]), entries[1..])
      case BadDate => (Raised(entries[0]), entries[1..])
      case PassedOver => Advance(entries[1..], w, r)
  }

  function Uuids(entries: seq<Plan>): set<string> {
    set k | 0 <= k < |entries| :: entries[k].uuid
  }

  predicate Distinct(entries: seq<Plan>) {
    forall i, j :: 0 <= i < j < |entries| ==> entries[i].uuid != entries[j].uuid
  }

  /** `_add`. */
  function Added(entries: seq<Plan>, p: Plan, first: bool): seq<Plan> {
    if p.uuid in Uuids(entries) then entries else if first then [p] + entries else entries + [p]
  }

  /** Attempted less than the back-off time ago. */
  predicate Recent(p: Plan, w: Moment) {
    p.uuid in w.state && w.state[p.uuid].last.At? && w.now - w.state[p.uuid].last.time < BACKOFF
  }

  datatype Wish = Front | Back | No

  /** What `add_plans` wants with one plan; `running` is the id of the plan whose backup is running. */
  function Wanted(p: Plan, w: Moment, path: string, running: Option<string>): Wish {
    if running == Some(p.id) then No
    else if Matches(path, p) then Front
    else if path == "" && !Recent(p, w) && p.runnable then Back
    else No
  }

  /** The queue after `add_plans` has gone through `plans`. */
  function AddedAll(entries: seq<Plan>, plans: seq<Plan>, w: Moment, path: string, running: Option<string>): seq<Plan>
    decreases plans
  {
    if plans == [] then entries
    else
      var wish := Wanted(plans[0], w, path, running);
      AddedAll(if wish == No then entries else Added(entries, plans[0], wish == Front), plans[1..], w, path, running)
  }

  /** How many plans `add_plans` wants, whether or not they are queued already. */
  function Wishes(plans: seq<Plan>, w: Moment, path: string, running: Option<string>): nat {
    if plans == [] then 0
    else (if Wanted(plans[0], w, path, running) == No then 0 else 1) + Wishes(plans[1..], w, path, running)
  }

  /** The first entry that matches, or the end. */
  function FirstMatch(entries: seq<Plan>, path: string): (k: nat)
    ensures k <= |entries|
    ensures k < |entries| ==> Matches(path, entries[k])
    ensures forall j :: 0 <= j < k ==> !Matches(path, entries[j])
  {
    if entries == [] || Matches(path, entries[0]) then 0 else 1 + FirstMatch(entries[1..], path)
  }

  datatype Removal = NothingQueued | NoMatch | TakenOut(plan: Plan)

  class Queue {
    var index: set<string>
    var entries: seq<Plan>

    /** The index holds exactly the identifiers of the entries, which are pairwise distinct. */
    ghost predicate Valid()
      reads this
    {
      index == Uuids(entries) && Distinct(entries)
    }

    constructor ()
      ensures Valid() && entries == []
    {
      index, entries := {}, [];
    }

    method Pop() returns (p: Option<Plan>)
      requires Valid()
      modifies this
      ensures Valid()
      ensures p == if old(entries) == [] then None else Some(old(entries)[0])
      ensures entries == if old(entries) == [] then [] else old(entries)[1..]
    {
      if |entries| == 0 {
        return None;
      }
      var v := entries[0];
      UuidsWithout(entries, 0);
      assert entries[..0] + entries[1..] == entries[1..];
      entries := entries[1..];
      index := index - {v.uuid};
      return Some(v);
    }

    method Clear()
      modifies this
      ensures Valid() && entries == []
    {
      index, entries := {}, [];
    }

    method Add(p: Plan, first: bool)
      requires Valid()
      modifies this
      ensures Valid() && entries == Added(old(entries), p, first)
    {
      if p.uuid in index {
        return;
      }
      UuidsWith(entries, p);
      index := index + {p.uuid};
      entries := if first then [p] + entries else entries + [p];
    }

    /** The entry taken out, or that there is none.  The source answers False for an empty queue and None for one
        without a match, and its caller takes False for a plan. */
    method Remove(path: string) returns (r: Removal)
      requires Valid()
      modifies this
      ensures Valid()
      ensures var k := FirstMatch(old(entries), path);
        if k == |old(entries)| then
          r == (if old(entries) == [] then NothingQueued else NoMatch) && entries == old(entries)
        else r == TakenOut(old(entries)[k]) && entries == old(entries)[..k] + old(entries)[k + 1..]
    {
      if |entries| == 0 {
        return NothingQueued;
      }
      var k := 0;
      while k < |entries| && !Matches(path, entries[k])
        invariant k <= |entries|
        invariant forall j :: 0 <= j < k ==> !Matches(path, entries[j])
      {
        k := k + 1;
      }
      if k == |entries| {
        return NoMatch;
      }
      UuidsWithout(entries, k);
      r := TakenOut(entries[k]);
      index := index - {entries[k].uuid};
      entries := entries[..k] + entries[k + 1..];
    }

    method NextPlan(w: Moment, r: Request) returns (n: Next)
      requires Valid()
      modifies this
      ensures Valid()
      ensures (n, entries) == Advance(old(entries), w, r)
    {
      while |entries| > 0
        invariant Valid()
        invariant Advance(entries, w, r) == Advance(old(entries), w, r)
        decreases |entries|
      {
        var x := Pop();
        var p := x.value;
        if !w.passes(p) {
          continue;
        }
        if Matches(r.path, p) {
          return Chosen(p);
        }
        if r.force || p.uuid !in w.state {
          return Chosen(p);
        }
        var t := w.state[p.uuid].last;
        if t.Never? {
          return Chosen(p);
        }
        if t.Illegible? {
          return Raised(p);
        }
        if w.now - t.time > p.wait {
          return Chosen(p);
        }
        if !w.state[p.uuid].failed {
          continue;
        }
        return Chosen(p);
      }
      return Nothing;
    }

    /** How many plans were wanted; None when there are no plans at all, a result that the caller cannot unpack. */
    method AddPlans(plans: seq<Plan>, w: Moment, path: string, running: Option<string>) returns (n: Option<nat>)
      requires Valid()
      modifies this
      ensures Valid() && entries == AddedAll(old(entries), plans, w, path, running)
      ensures n == if plans == [] then None else Some(Wishes(plans, w, path, running))
    {
      if |plans| == 0 {
        return None;
      }
      var c := 0;
      for k := 0 to |plans|
        invariant Valid()
        invariant AddedAll(entries, plans[k..], w, path, running) == AddedAll(old(entries), plans, w, path, running)
        invariant c + Wishes(plans[k..], w, path, running) == Wishes(plans, w, path, running)
      {
        var p := plans[k];
        assert plans[k..][1..] == plans[k + 1..];
        if running == Some(p.id) {
          continue;
        }
        if Matches(path, p) {
          Add(p, true);
          c := c + 1;
          continue;
        }
        if path != "" {
          continue;
        }
        if Recent(p, w) {
          continue;
        }
        if !p.runnable {
          continue;
        }
        Add(p, false);
        c := c + 1;
      }
      return Some(c);
    }
  }

  lemma UuidsSum(a: seq<Plan>, b: seq<Plan>)
    ensures Uuids(a + b) == Uuids(a) + Uuids(b)
  {
    forall u | u in Uuids(a) + Uuids(b) ensures u in Uuids(a + b) {
      if u in Uuids(a) {
        var k :| 0 <= k < |a| && a[k].uuid == u;
        assert (a + b)[k].uuid == u;
      } else {
        var k :| 0 <= k < |b| && b[k].uuid == u;
        assert (a + b)[|a| + k].uuid == u;
      }
    }
  }

  lemma UuidsWithout(s: seq<Plan>, k: nat)
    requires k < |s| && Distinct(s)
    ensures Uuids(s[..k] + s[k + 1..]) == Uuids(s) - {s[k].uuid}
    ensures Distinct(s[..k] + s[k + 1..])
  {
    var a, b := s[..k], s[k + 1..];
    assert s == a + [s[k]] + b;
    UuidsSum(a, b);
    UuidsSum(a, [s[k]]);
    UuidsSum(a + [s[k]], b);
    UuidOfOne(s[k]);
    assert s[k].uuid !in Uuids(a) && s[k].uuid !in Uuids(b);
    DistinctWithout(s, k);
  }

  lemma DistinctWithout(s: seq<Plan>, k: nat)
    requires k < |s| && Distinct(s)
    ensures Distinct(s[..k] + s[k + 1..])
  {
  }

  lemma UuidOfOne(p: Plan)
    ensures Uuids([p]) == {p.uuid}
  {
    assert [p][0].uuid in Uuids([p]);
  }

  lemma UuidsWith(s: seq<Plan>, p: Plan)
    requires p.uuid !in Uuids(s) && Distinct(s)
    ensures Uuids([p] + s) == Uuids(s) + {p.uuid} == Uuids(s + [p])
    ensures Distinct([p] + s) && Distinct(s + [p])
  {
    forall k | 0 <= k < |s| ensures s[k].uuid != p.uuid {
      assert s[k].uuid in Uuids(s);
    }
    UuidOfOne(p);
    UuidsSum([p], s);
    UuidsSum(s, [p]);
  }

  // ---- what the operations promise -------------------------------------------------------

  /** For a plan, a text matches when it is the plan's id, or its path, of which it may lack the closing slash. */
  lemma MatchesIgnoresTheSlash(v: string, p: Plan)
    ensures Matches(v, p) <==>
              v != "" && if |v| == 10 && v[0] == 'P' then v == p.id
                         else v == p.path || (v[|v| - 1] != '/' && v + "/" == p.path)
  {
  }

  /** `next` yields the first plan that is not passed over and leaves exactly what stands behind it, or empties the
      queue when every plan is passed over. */
  lemma {:induction false} NextIsTheFirst(entries: seq<Plan>, w: Moment, r: Request, k: nat)
    requires k <= |entries| && forall j :: 0 <= j < k ==> Judge(entries[j], w, r) == PassedOver
    requires k < |entries| ==> Judge(entries[k], w, r) != PassedOver
    ensures Advance(entries, w, r) ==
            if k == |entries| then (Nothing, [])
            else if Judge(entries[k], w, r) == Runs then (Chosen(entries[k]), entries[k + 1..])
            else (Raised(entries[k]), entries[k + 1..])
  {
    if k > 0 {
      NextIsTheFirst(entries[1..], w, r, k - 1);
    }
  }

  /** A plan is chosen only when it passes its checks and was asked for, forced, has never run, has waited long
      enough or failed the last time. */
  lemma ChosenIsEligible(p: Plan, w: Moment, r: Request)
    ensures Judge(p, w, r) == Runs <==>
              w.passes(p) && (Matches(r.path, p) || r.force || p.uuid !in w.state || w.state[p.uuid].last == Never
                || (w.state[p.uuid].last.At?
                  && (w.now > w.state[p.uuid].last.time + p.wait || w.state[p.uuid].failed)))
  {
  }

  /** It is passed over when it fails its checks, or when nobody asks for it and its last run was good and not long
      enough ago; and only a date that decides and cannot be read raises an exception. */
  lemma PassedOverWhen(p: Plan, w: Moment, r: Request)
    ensures Judge(p, w, r) == PassedOver <==>
      || !w.passes(p)
      || (!Matches(r.path, p) && !r.force && p.uuid in w.state && w.state[p.uuid].last.At?
          && w.now <= w.state[p.uuid].last.time + p.wait && !w.state[p.uuid].failed)
    ensures Judge(p, w, r) == BadDate <==>
      w.passes(p) && !Matches(r.path, p) && !r.force && p.uuid in w.state && w.state[p.uuid].last == Illegible
  {
  }

  /** A plan whose backup is not running is wanted in front when it is asked for; and, when none is asked for,
      behind, if its weekday has come and it has not been attempted in the last quarter of an hour. */
  lemma WantedWhen(p: Plan, w: Moment, path: string, running: Option<string>)
    ensures Wanted(p, w, path, running) == Front <==> running != Some(p.id) && Matches(path, p)
    ensures Wanted(p, w, path, running) == Back <==>
      && running != Some(p.id) && path == "" && p.runnable
      && (p.uuid in w.state && w.state[p.uuid].last.At? ==> w.now - w.state[p.uuid].last.time >= 900)
  {
  }

  /** The number reported is that of the plans wanted, counted in any two parts. */
  lemma {:induction false} WishesCount(
    a: seq<Plan>, p: Plan, b: seq<Plan>, w: Moment, path: string, running: Option<string>)
    ensures Wishes(a + [p] + b, w, path, running)
      == Wishes(a, w, path, running) + (if Wanted(p, w, path, running) in {Front, Back} then 1 else 0)
       + Wishes(b, w, path, running)
  {
    if a == [] {
      assert [] + [p] + b == [p] + b && ([p] + b)[1..] == b;
    } else {
      WishesCount(a[1..], p, b, w, path, running);
      assert (a + [p] + b)[1..] == a[1..] + [p] + b;
    }
  }

  /** The plans that `add_plans` puts before the queue. */
  function NewFront(entries: seq<Plan>, plans: seq<Plan>, w: Moment, path: string, running: Option<string>): seq<Plan>
    decreases plans
  {
    if plans == [] then []
    else
      var p, wish := plans[0], Wanted(plans[0], w, path, running);
      if wish == No || p.uuid in Uuids(entries) then NewFront(entries, plans[1..], w, path, running)
      else if wish == Back then NewFront(entries + [p], plans[1..], w, path, running)
      else NewFront([p] + entries, plans[1..], w, path, running) + [p]
  }

  /** The plans that it puts behind. */
  function NewBack(entries: seq<Plan>, plans: seq<Plan>, w: Moment, path: string, running: Option<string>): seq<Plan>
    decreases plans
  {
    if plans == [] then []
    else
      var p, wish := plans[0], Wanted(plans[0], w, path, running);
      if wish == No || p.uuid in Uuids(entries) then NewBack(entries, plans[1..], w, path, running)
      else if wish == Back then [p] + NewBack(entries + [p], plans[1..], w, path, running)
      else NewBack([p] + entries, plans[1..], w, path, running)
  }

  lemma Shift(f: seq<Plan>, p: Plan, s: seq<Plan>, b: seq<Plan>)
    ensures f + ([p] + s) + b == f + [p] + s + b
    ensures f + (s + [p]) + b == f + s + ([p] + b)
  {
  }

  /** `add_plans` leaves the queue as it stands and puts plans before it and behind it: a request for a path adds
      only in front, and one without only behind. */
  lemma {:induction false} QueueIsKept(
    entries: seq<Plan>, plans: seq<Plan>, w: Moment, path: string, running: Option<string>)
    ensures AddedAll(entries, plans, w, path, running)
         == NewFront(entries, plans, w, path, running) + entries + NewBack(entries, plans, w, path, running)
    ensures path == "" ==> NewFront(entries, plans, w, path, running) == []
    ensures path != "" ==> NewBack(entries, plans, w, path, running) == []
    decreases plans
  {
    if plans == [] {
      assert [] + entries + [] == entries;
    } else {
      var p, wish := plans[0], Wanted(plans[0], w, path, running);
      var next := if wish == No then entries else Added(entries, p, wish == Front);
      QueueIsKept(next, plans[1..], w, path, running);
      Shift(NewFront(next, plans[1..], w, path, running), p, entries, NewBack(next, plans[1..], w, path, running));
    }
  }

  /** What it puts there was wanted and not yet in the queue. */
  lemma {:induction false} NewAreWanted(
    entries: seq<Plan>, plans: seq<Plan>, w: Moment, path: string, running: Option<string>, p: Plan)
    requires p in NewFront(entries, plans, w, path, running) || p in NewBack(entries, plans, w, path, running)
    ensures p in plans && Wanted(p, w, path, running) != No && p.uuid !in Uuids(entries)
    decreases plans
  {
    var q, wish := plans[0], Wanted(plans[0], w, path, running);
    var next := if wish == No then entries else Added(entries, q, wish == Front);
    UuidsSum([q], entries);
    UuidsSum(entries, [q]);
    if p in NewFront(next, plans[1..], w, path, running) || p in NewBack(next, plans[1..], w, path, running) {
      NewAreWanted(next, plans[1..], w, path, running, p);
    }
  }

  /** Every wanted plan is in the queue afterwards, by its identifier. */
  lemma {:induction false} WantedAreQueued(
    entries: seq<Plan>, plans: seq<Plan>, w: Moment, path: string, running: Option<string>, p: Plan)
    requires p in plans && Wanted(p, w, path, running) != No
    ensures p.uuid in Uuids(AddedAll(entries, plans, w, path, running))
    decreases plans
  {
    var wish := Wanted(plans[0], w, path, running);
    var next := if wish == No then entries else Added(entries, plans[0], wish == Front);
    if plans[0] == p {
      UuidsSum([p], entries);
      UuidsSum(entries, [p]);
      UuidOfOne(p);
      QueuedStay(next, plans[1..], w, path, running);
    } else {
      WantedAreQueued(next, plans[1..], w, path, running, p);
    }
  }

  lemma QueuedStay(entries: seq<Plan>, plans: seq<Plan>, w: Moment, path: string, running: Option<string>)
    ensures Uuids(AddedAll(entries, plans, w, path, running))
         == Uuids(NewFront(entries, plans, w, path, running)) + Uuids(entries)
          + Uuids(NewBack(entries, plans, w, path, running))
  {
    var front, back := NewFront(entries, plans, w, path, running), NewBack(entries, plans, w, path, running);
    QueueIsKept(entries, plans, w, path, running);
    UuidsSum(front, entries);
    UuidsSum(front + entries, back);
  }

  /** The plan whose backup is running never enters the queue, when equal identifiers go with equal ids. */
  lemma RunningIsNotQueued(
    entries: seq<Plan>, plans: seq<Plan>, w: Moment, path: string, running: Plan)
    requires forall p :: p in plans && p.uuid == running.uuid ==> p.id == running.id
    requires running.uuid !in Uuids(entries)
    ensures running.uuid !in Uuids(AddedAll(entries, plans, w, path, Some(running.id)))
  {
    var id := Some(running.id);
    QueuedStay(entries, plans, w, path, id);
    forall p: Plan | p in NewFront(entries, plans, w, path, id) || p in NewBack(entries, plans, w, path, id)
      ensures p.uuid != running.uuid
    {
      NewAreWanted(entries, plans, w, path, id, p);
    }
  }

  /** `add_plans` keeps the entries distinct. */
  lemma {:induction false} StaysDistinct(
    entries: seq<Plan>, plans: seq<Plan>, w: Moment, path: string, running: Option<string>)
    requires Distinct(entries)
    ensures Distinct(AddedAll(entries, plans, w, path, running))
    decreases plans
  {
    if plans != [] {
      var p, wish := plans[0], Wanted(plans[0], w, path, running);
      if wish != No && p.uuid !in Uuids(entries) {
        UuidsWith(entries, p);
      }
      StaysDistinct(if wish == No then entries else Added(entries, p, wish == Front), plans[1..], w, path, running);
    }
  }

  /** What `next` leaves is an end of the queue, and the plan it yields stood just before that. */
  lemma {:induction false} AdvanceDrops(entries: seq<Plan>, w: Moment, r: Request) returns (k: nat)
    ensures k <= |entries| && Advance(entries, w, r).1 == entries[k..]
    ensures var n := Advance(entries, w, r).0; !n.Nothing? ==> 0 < k && n.plan == entries[k - 1]
  {
    if entries == [] {
      k := 0;
    } else if Judge(entries[0], w, r) == PassedOver {
      k := AdvanceDrops(entries[1..], w, r);
      k := k + 1;
    } else {
      k := 1;
    }
  }

  /** The plan that `next` yields is not queued any more. */
  lemma ChosenLeaves(entries: seq<Plan>, w: Moment, r: Request)
    requires Distinct(entries)
    ensures var (n, rest) := Advance(entries, w, r);
            Distinct(rest) && (n.Chosen? ==> n.plan in entries && n.plan.uuid !in Uuids(rest))
  {
  }

  /** A plan that is asked for and not yet queued stands first afterwards, also while a backup is running; when several
      plans are asked for, the last of them does. */
  lemma {:induction false} RequestedStandsFirst(
    entries: seq<Plan>, plans: seq<Plan>, w: Moment, path: string, running: Option<string>, k: nat)
    requires k < |plans| && Matches(path, plans[k]) && running != Some(plans[k].id)
    requires plans[k].uuid !in Uuids(entries)
    requires forall j :: k < j < |plans| ==> !Matches(path, plans[j])
    requires forall j :: 0 <= j < k && Matches(path, plans[j]) ==> plans[j].uuid != plans[k].uuid
    ensures var q := AddedAll(entries, plans, w, path, running);
            && q != [] && q[0] == plans[k]
            && ((forall j :: 0 <= j < k ==> !Matches(path, plans[j])) ==> q == [plans[k]] + entries)
    decreases plans
  {
    if k == 0 {
      NoneRequested([plans[0]] + entries, plans[1..], w, path, running);
    } else {
      var p, wish := plans[0], Wanted(plans[0], w, path, running);
      UuidsSum([p], entries);
      UuidOfOne(p);
      var next := if wish == No then entries else Added(entries, p, true);
      RequestedStandsFirst(next, plans[1..], w, path, running, k - 1);
    }
  }

  lemma {:induction false} NoneRequested(
    entries: seq<Plan>, plans: seq<Plan>, w: Moment, path: string, running: Option<string>)
    requires path != "" && forall j :: 0 <= j < |plans| ==> !Matches(path, plans[j])
    ensures AddedAll(entries, plans, w, path, running) == entries
    decreases plans
  {
    if plans != [] {
      NoneRequested(entries, plans[1..], w, path, running);
    }
  }

  lemma {:induction false} QueuedIsNotMoved(entries: seq<Plan>, plans: seq<Plan>, w: Moment, path: string, k: nat)
    requires k < |plans| && Matches(path, plans[k]) && plans[k].uuid in Uuids(entries)
    requires forall j :: 0 <= j < |plans| && j != k ==> !Matches(path, plans[j])
    ensures AddedAll(entries, plans, w, path, None) == entries
    decreases plans
  {
    if k == 0 {
      NoneRequested(entries, plans[1..], w, path, None);
    } else {
      QueuedIsNotMoved(entries, plans[1..], w, path, k - 1);
    }
  }

  /** When no backup is running it is served at once, if it passes its checks. */
  lemma RequestedGoesFirst(entries: seq<Plan>, plans: seq<Plan>, w: Moment, r: Request, k: nat)
    requires k < |plans| && Matches(r.path, plans[k]) && w.passes(plans[k])
    requires plans[k].uuid !in Uuids(entries)
    requires forall j :: k < j < |plans| ==> !Matches(r.path, plans[j])
    requires forall j :: 0 <= j < k && Matches(r.path, plans[j]) ==> plans[j].uuid != plans[k].uuid
    ensures var (n, rest) := Advance(AddedAll(entries, plans, w, r.path, None), w, r);
            n == Chosen(plans[k]) && ((forall j :: 0 <= j < k ==> !Matches(r.path, plans[j])) ==> rest == entries)
  {
    RequestedStandsFirst(entries, plans, w, r.path, None, k);
  }

  /** Every entry before `p` is passed over. */
  predicate FreeWay(entries: seq<Plan>, p: Plan, w: Moment, r: Request) {
    forall j, n :: 0 <= j < n < |entries| && entries[n] == p ==> Judge(entries[j], w, r) == PassedOver
  }

  lemma {:induction false} FirstNotPassed(entries: seq<Plan>, w: Moment, r: Request) returns (m: nat)
    ensures m <= |entries| && forall j :: 0 <= j < m ==> Judge(entries[j], w, r) == PassedOver
    ensures m < |entries| ==> Judge(entries[m], w, r) != PassedOver
  {
    if entries == [] || Judge(entries[0], w, r) != PassedOver {
      m := 0;
    } else {
      m := FirstNotPassed(entries[1..], w, r);
      m := m + 1;
    }
  }

  lemma QueuedIsChosenWhen(entries: seq<Plan>, w: Moment, r: Request, n: nat)
    requires n < |entries| && Distinct(entries) && Judge(entries[n], w, r) == Runs
    ensures Advance(entries, w, r).0 == Chosen(entries[n]) <==> FreeWay(entries, entries[n], w, r)
  {
    var m := FirstNotPassed(entries, w, r);
    NextIsTheFirst(entries, w, r, m);
    assert m <= n;
    assert forall k :: 0 <= k < |entries| && entries[k] == entries[n] ==> k == n;
  }

  /** The one plan that is asked for, and that passes its checks, is the one that is served, if and only if it was not
      queued or every entry before it is passed over. */
  lemma RequestedIsServedWhen(entries: seq<Plan>, plans: seq<Plan>, w: Moment, r: Request, k: nat)
    requires k < |plans| && Matches(r.path, plans[k]) && w.passes(plans[k])
    requires forall j :: 0 <= j < |plans| && j != k ==> !Matches(r.path, plans[j])
    requires Distinct(entries) && forall x :: x in entries && x.uuid == plans[k].uuid ==> x == plans[k]
    ensures Advance(AddedAll(entries, plans, w, r.path, None), w, r).0 == Chosen(plans[k]) <==>
              plans[k] !in entries || FreeWay(entries, plans[k], w, r)
  {
    if plans[k] in entries {
      var n :| 0 <= n < |entries| && entries[n] == plans[k];
      assert entries[n].uuid in Uuids(entries);
      QueuedIsNotMoved(entries, plans, w, r.path, k);
      QueuedIsChosenWhen(entries, w, r, n);
    } else {
      RequestedGoesFirst(entries, plans, w, r, k);
    }
  }

  /** One that is queued already keeps its place: an eligible plan before it is served instead. */
  lemma QueuedRequestWaits(a: Plan, b: Plan, w: Moment)
    requires a.uuid != b.uuid
    requires w.passes(a) && a.uuid !in w.state && !Matches(b.path, a)
    ensures AddedAll([a, b], [b], w, b.path, None) == [a, b]
    ensures Advance([a, b], w, Request(b.path, false)) == (Chosen(a), [b])
  {
    assert [a, b][1].uuid in Uuids([a, b]);
    assert [a, b][1..] == [b] && [b][1..] == [];
    assert Judge(a, w, Request(b.path, false)) == Runs;
  }

  /** A date that cannot be read costs its plan the place in the queue and ends the search, although a plan
      behind it is due. */
  lemma BadDateEndsTheSearch(a: Plan, b: Plan, w: Moment)
    requires w.passes(a) && w.passes(b)
    requires a.uuid in w.state && w.state[a.uuid].last == Illegible && b.uuid !in w.state
    ensures Advance([a, b], w, Request("", false)) == (Raised(a), [b])
  {
  }

  /** What a run leaves in the state file decides about the next one: a failed run may be repeated at once, a good one
      when the plan's wait has passed; and for the back-off time the plan is not queued by itself at all. */
  lemma AfterARun(p: Plan, before: State, run: Save, w: Moment, r: Request)
    requires run.Saved? && w.state == AfterSave(before, p.uuid, run)
    requires w.passes(p) && !r.force && !Matches(r.path, p)
    ensures Judge(p, w, r) == Runs <==> run.failed || w.now - run.now > p.wait
    ensures Wanted(p, w, "", None) == Back <==> p.runnable && w.now - run.now >= BACKOFF
  {
  }
}
