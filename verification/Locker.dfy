/** Lockers, locker.py: named locks against sleep with timers in the dispatcher's scheduler, and the flags that
    follow the machine to sleep and back. */
module Locker {
  import opened Wrappers

  datatype Name = Lid | Key | Lock | Blank | Backup | Freeze | Suspend | Hibernate | Unknown(text: string)

  const BACKOFF_TIME := 5

  /** A locker's time of expiry and its timer. */
  datatype Locker = Locker(expire: Option<int>, event: Option<nat>)

  /** What a pending timer does: close the locker it was made for, or end the back-off. */
  datatype Task = Close(name: Name) | ClearBackoff

  datatype Due = Due(at: int, task: Task)

  /** What matters about waking: the alarm is set, and the machine hibernates because of it. */
  datatype Sleep = Armed | Hibernated

  /** The lockers, the timers pending in the scheduler, how many timers have been made, whether clients are to be
      told, and the timer of the back-off.  Timers are numbered in the order in which they are made. */
  datatype Table = Table(
    lockers: map<Name, Locker>, live: map<nat, Due>, timers: nat, update: bool, backoff: Option<nat>)

  /** The table with what the machine is doing; `ability` is the time after which to hibernate, 0 when the client
      cannot. */
  datatype View = View(
    table: Table, suspending: bool, hibernating: bool, wakeAlarm: bool, ability: nat, log: seq<Sleep>)

  /** The time a request for a locker carries: none, a number of seconds, or something else. */
  datatype Expiry = Forever | Seconds(n: int) | Garbage

  datatype Result = Fine | BadName | BadTime

  /** What reading the wake alarm yields: an error, an alarm that is still set, or nothing. */
  datatype Alarm = Unreadable | StillSet | Gone

  datatype Phase = Pre | Post | Other

  // ---- the operations as functions -------------------------------------------------------

  function Cancelled(t: Table, event: Option<nat>): Table {
    if event.Some? then t.(live := t.live - {event.value}) else t
  }

  /** `_locker_remove`. */
  function Removed(t: Table, name: Name, notify: bool): Table {
    if name !in t.lockers then t
    else
      var update := t.update || (notify && name != Backup);
      Cancelled(t, t.lockers[name].event).(lockers := t.lockers - {name}, update := update)
  }

  /** A new locker, in place of none. */
  function Placed(t: Table, name: Name, seconds: Option<int>, now: int): Table {
    var update := t.update || name != Backup;
    if seconds.Some? && seconds.value > 0 then
      var at := now + seconds.value;
      t.(lockers := t.lockers[name := Locker(Some(at), Some(t.timers))],
         live := t.live[t.timers := Due(at, Close(name))], timers := t.timers + 1, update := update)
    else t.(lockers := t.lockers[name := Locker(None, None)], update := update)
  }

  /** `_locker_add`. */
  function Added(t: Table, name: Name, time: Expiry, force: bool, now: int): (Table, Result) {
    if name.Unknown? then (t, BadName)
    else if name in t.lockers && !force then (t, Fine)
    else if time.Garbage? then (t, BadTime)
    else if time.Seconds? && time.n <= 0 then (Removed(t, name, true), Fine)
    else
      var e := if time.Seconds? then Some(time.n) else None;
      if name in t.lockers && t.lockers[name].expire == e then (t, Fine)
      else (Placed(Removed(t, name, false), name, e, now), Fine)
  }

  /** The scheduler runs timer `id`, having taken it off its list. */
  function Fired(t: Table, id: nat): Table
    requires id in t.live
  {
    var rest := t.(live := t.live - {id});
    match t.live[id].task
    case Close(name) => rest.(lockers := t.lockers - {name}, update := t.update || name != Backup)
    case ClearBackoff => rest.(backoff := None)
  }

  function Timers(lockers: map<Name, Locker>): set<nat> {
    set n | n in lockers && lockers[n].event.Some? :: lockers[n].event.value
  }

  /** The screen handler begins a back-off unless one is going on. */
  function Screened(t: Table, close: bool, now: int): Table {
    if t.backoff.Some? || !close then t
    else
      t.(backoff := Some(t.timers), live := t.live[t.timers := Due(now + BACKOFF_TIME, ClearBackoff)],
         timers := t.timers + 1)
  }

  /** `reload` of everything; a lid switch that is there and cannot be opened ends it with an exception before the
      screen handler is called. */
  function Reloaded(t: Table, lid: bool, now: int): Table {
    var u := t.(lockers := map[], live := t.live - Timers(t.lockers), update := false);
    if lid then Screened(u, true, now) else u
  }

  /** A new back-off in place of any that is going on. */
  function BackedOff(t: Table, now: int): Table {
    Screened(Cancelled(t, t.backoff).(backoff := None), true, now)
  }

  /** A Hibernate locker will still be there at `time`. */
  predicate Outlasts(t: Table, time: int) {
    Hibernate in t.lockers && (t.lockers[Hibernate].expire.None? || t.lockers[Hibernate].expire.value > time)
  }

  /** `_wake_set`; `written` says whether the alarm could be written. */
  function WakeSet(v: View, written: bool, now: int): View {
    if v.ability == 0 || Outlasts(v.table, now + v.ability) then v
    else
      var w := v.(table := Removed(v.table, Hibernate, false));
      if written then w.(wakeAlarm := true, log := w.log + [Armed]) else w
  }

  /** Whether `_wake_check` finds that the alarm has woken the machine. */
  predicate Woken(v: View, alarm: Alarm) {
    v.wakeAlarm && v.ability > 0 && Hibernate !in v.table.lockers && alarm == Gone
  }

  /** `suspend`, for a message from root. */
  function SuspendMsg(v: View, phase: Phase, written: bool, alarm: Alarm, now: int): View {
    match phase
    case Pre =>
      var w := v.(wakeAlarm := false, hibernating := false);
      if v.suspending then w else WakeSet(w.(suspending := true), written, now)
    case Post =>
      if !v.suspending then v
      else
        var w := v.(suspending := false, hibernating := false, wakeAlarm := false);
        if Woken(v, alarm) then w.(log := w.log + [Hibernated]) else w.(table := BackedOff(w.table, now))
    case Other => v
  }

  /** `hibernate`, for a message from root. */
  function HibernateMsg(v: View, phase: Phase, now: int): View {
    match phase
    case Pre => v.(wakeAlarm := false, suspending := false, hibernating := true)
    case Post =>
      var w := v.(wakeAlarm := false);
      if !v.hibernating then w
      else w.(table := BackedOff(w.table, now), suspending := false, hibernating := false)
    case Other => v
  }

  // ---- the module as the source has it ---------------------------------------------------

  class LockerServer {
    var lockers: map<Name, Locker>
    var live: map<nat, Due>
    var timers: nat
    var update: bool
    var suspending: bool
    var hibernating: bool
    var wakeAlarm: bool
    var backoff: Option<nat>
    var ability: nat
    ghost var log: seq<Sleep>

    ghost function Listed(): Table
      reads this
    {
      Table(lockers, live, timers, update, backoff)
    }

    ghost function Now(): View
      reads this
    {
      View(Listed(), suspending, hibernating, wakeAlarm, ability, log)
    }

    constructor (ability: nat)
      ensures Now() == Start(ability)
    {
      lockers, live, timers, update, suspending, hibernating := map[], map[], 0, false, false, false;
      wakeAlarm, backoff, this.ability, log := false, None, ability, [];
    }

    /** `Dispatcher.add_task`. */
    method AddTask(at: int, task: Task) returns (id: nat)
      modifies this`live, this`timers
      ensures id == old(timers) && timers == old(timers) + 1 && live == old(live)[id := Due(at, task)]
    {
      id := timers;
      live, timers := live[id := Due(at, task)], timers + 1;
    }

    /** `Dispatcher.cancel_task`: a timer that is no longer pending is left alone. */
    method CancelTask(event: Option<nat>) returns (ok: bool)
      modifies this`live
      ensures live == if event.Some? then old(live) - {event.value} else old(live)
      ensures ok <==> event.Some? && event.value in old(live)
    {
      if event.None? || event.value !in live {
        return false;
      }
      live := live - {event.value};
      return true;
    }

    /** `_locker_close` for a locker already taken out. */
    method CloseLocker(name: Name, l: Locker, notify: bool)
      modifies this`live, this`update
      ensures live == if l.event.Some? then old(live) - {l.event.value} else old(live)
      ensures update <==> old(update) || (notify && name != Backup)
    {
      var ok := CancelTask(l.event);
      if !notify || name == Backup {
        return;
      }
      update := true;
    }

    /** `_locker_remove`. */
    method Remove(name: Name, notify: bool)
      modifies this`lockers, this`live, this`update
      ensures Listed() == Removed(old(Listed()), name, notify)
    {
      if name in lockers {
        var x := lockers[name];
        lockers := lockers - {name};
        CloseLocker(name, x, notify);
      }
    }

    /** `_locker_add`, with the constructor of a locker. */
    method Add(name: Name, time: Expiry, force: bool, now: int) returns (r: Result)
      modifies this`lockers, this`live, this`timers, this`update
      ensures (Listed(), r) == Added(old(Listed()), name, time, force, now)
    {
      if name.Unknown? {
        return BadName;
      }
      if name in lockers && !force {
        return Fine;
      }
      var e := None;
      if !time.Forever? {
        if time.Garbage? {
          return BadTime;
        }
        if time.n <= 0 {
          Remove(name, true);
          return Fine;
        }
        e := Some(time.n);
      }
      if name in lockers && e == lockers[name].expire {
        return Fine;
      }
      if name in lockers {
        Remove(name, false);
      }
      if e.Some? && e.value > 0 {
        var id := AddTask(now + e.value, Close(name));
        lockers := lockers[name := Locker(Some(now + e.value), Some(id))];
      } else {
        lockers := lockers[name := Locker(None, None)];
      }
      if name != Backup {
        update := true;
      }
      return Fine;
    }

    /** The scheduler runs a timer: `_locker_close` with the locker's own name, or `_backoff_clear`. */
    method Fire(id: nat)
      requires id in live
      modifies this`lockers, this`live, this`update, this`backoff
      ensures Listed() == Fired(old(Listed()), id)
    {
      var due := live[id];
      live := live - {id};
      match due.task
      case Close(name) =>
        lockers := lockers - {name};
        if name != Backup {
          update := true;
        }
      case ClearBackoff => backoff := None;
    }

    method Screen(close: bool, now: int)
      modifies this`backoff, this`live, this`timers
      ensures Listed() == Screened(old(Listed()), close, now)
    {
      if backoff.Some? {
        return;
      }
      if close {
        var id := AddTask(now + BACKOFF_TIME, ClearBackoff);
        backoff := Some(id);
      }
    }

    /** `reload`, when everything is to be reloaded. */
    method Reload(lid: bool, now: int) returns (ok: bool)
      modifies this`lockers, this`live, this`timers, this`update, this`backoff
      ensures Listed() == Reloaded(old(Listed()), lid, now) && ok == lid
    {
      hide Timers, Screened;
      var todo := lockers.Keys;
      NoneClosed(lockers, live);
      while todo != {}
        invariant todo <= lockers.Keys
        invariant live == old(live) - Timers(lockers - todo)
        invariant Listed() == old(Listed()).(live := live)
        decreases todo
      {
        var n :| n in todo;
        CloseLocker(n, lockers[n], false);
        OneMoreClosed(lockers, todo - {n}, n);
        assert todo - {n} + {n} == todo;
        todo := todo - {n};
      }
      assert lockers - todo == lockers;
      lockers := map[];
      update := false;
      if !lid {
        return false;
      }
      Screen(true, now);
      return true;
    }

    method SetWake(written: bool, now: int)
      modifies this
      ensures Now() == WakeSet(old(Now()), written, now)
    {
      if ability == 0 {
        return;
      }
      if Hibernate in lockers {
        var b := lockers[Hibernate];
        if b.expire.None? || b.expire.value > now + ability {
          return;
        }
        Remove(Hibernate, false);
      }
      if !written {
        return;
      }
      wakeAlarm := true;
      log := log + [Armed];
    }

    method CheckWake(alarm: Alarm) returns (woken: bool)
      modifies this`wakeAlarm
      ensures woken <==> Woken(old(Now()), alarm)
      ensures !wakeAlarm
    {
      if !wakeAlarm {
        return false;
      }
      wakeAlarm := false;
      if ability == 0 || Hibernate in lockers {
        return false;
      }
      return alarm == Gone;
    }

    method BackOff(now: int)
      modifies this`backoff, this`live, this`timers
      ensures Listed() == BackedOff(old(Listed()), now)
    {
      var ok := CancelTask(backoff);
      var id := AddTask(now + BACKOFF_TIME, ClearBackoff);
      backoff := Some(id);
      Screen(true, now);
    }

    method OnSuspend(phase: Phase, written: bool, alarm: Alarm, now: int)
      modifies this
      ensures Now() == SuspendMsg(old(Now()), phase, written, alarm, now)
    {
      if phase == Pre {
        wakeAlarm, hibernating := false, false;
        if suspending {
          return;
        }
        suspending := true;
        SetWake(written, now);
      } else if phase == Post {
        if !suspending {
          return;
        }
        suspending, hibernating := false, false;
        var woken := CheckWake(alarm);
        if woken {
          log := log + [Hibernated];
          return;
        }
        BackOff(now);
      }
    }

    method OnHibernate(phase: Phase, now: int)
      modifies this
      ensures Now() == HibernateMsg(old(Now()), phase, now)
    {
      if phase == Pre {
        wakeAlarm, suspending := false, false;
        if hibernating {
          return;
        }
        hibernating := true;
      } else if phase == Post {
        wakeAlarm := false;
        if !hibernating {
          return;
        }
        suspending, hibernating := false, false;
        BackOff(now);
      }
    }
  }

  lemma NoneClosed(lockers: map<Name, Locker>, live: map<nat, Due>)
    ensures live - Timers(lockers - lockers.Keys) == live
  {}

  lemma OneMoreClosed(lockers: map<Name, Locker>, todo: set<Name>, n: Name)
    requires n in lockers && n !in todo
    ensures Timers(lockers - todo)
         == Timers(lockers - (todo + {n})) + if lockers[n].event.Some? then {lockers[n].event.value} else {}
  {
    var before, after := lockers - (todo + {n}), lockers - todo;
    forall id | id in Timers(after) ensures id in Timers(before) || lockers[n].event == Some(id) {
      var k :| k in after && after[k].event == Some(id);
      if k != n {
        assert k in before;
      }
    }
    forall id | id in Timers(before) ensures id in Timers(after) {
      var k :| k in before && before[k].event == Some(id);
      assert k in after;
    }
    if lockers[n].event.Some? {
      assert n in after;
    }
  }

  function Start(ability: nat): View {
    View(Table(map[], map[], 0, false, None), false, false, false, ability, [])
  }

  // ---- runs ------------------------------------------------------------------------------

  datatype Op =
    | Add(name: Name, time: Expiry, force: bool, now: int)
    | Fire(id: nat)
    | Reload(lid: bool, now: int)
    | Screen(close: bool, now: int)
    | OnSuspend(phase: Phase, written: bool, alarm: Alarm, now: int)
    | OnHibernate(phase: Phase, now: int)
    | Ability(n: nat)

  function Applied(v: View, op: Op): View {
    match op
    case Add(name, time, force, now) => v.(table := Added(v.table, name, time, force, now).0)
    case Fire(id) => if id in v.table.live then v.(table := Fired(v.table, id)) else v
    case Reload(lid, now) => v.(table := Reloaded(v.table, lid, now))
    case Screen(close, now) => v.(table := Screened(v.table, close, now))
    case OnSuspend(phase, written, alarm, now) => SuspendMsg(v, phase, written, alarm, now)
    case OnHibernate(phase, now) => HibernateMsg(v, phase, now)
    case Ability(n) => v.(ability := n)
  }

  function Run(v: View, ops: seq<Op>): View
    decreases ops
  {
    if ops == [] then v else Run(Applied(v, ops[0]), ops[1..])
  }

  /** A timed locker has exactly one pending timer, due when it expires, and an untimed one has none. */
  predicate Timed(t: Table, name: Name)
    requires name in t.lockers
  {
    match t.lockers[name].event
    case None => t.lockers[name].expire == None
    case Some(id) => id in t.live && t.lockers[name].expire == Some(t.live[id].at) && t.live[id].task == Close(name)
  }

  /** A pending timer belongs to the locker that is there now, or is the back-off's. */
  predicate Owned(t: Table, id: nat)
    requires id in t.live
  {
    match t.live[id].task
    case Close(name) => name in t.lockers && t.lockers[name].event == Some(id)
    case ClearBackoff => t.backoff == Some(id)
  }

  predicate Matched(t: Table) {
    && (forall n :: n in t.lockers ==> Timed(t, n))
    && (forall id :: id in t.live ==> id < t.timers && Owned(t, id))
    && (t.backoff.Some? ==> t.backoff.value in t.live && t.live[t.backoff.value].task == ClearBackoff)
  }

  lemma RemovedMatched(t: Table, name: Name, notify: bool)
    requires Matched(t)
    ensures Matched(Removed(t, name, notify))
  {
    if name in t.lockers {
      var u := Removed(t, name, notify);
      assert Timed(t, name);
      forall n | n in u.lockers ensures Timed(u, n) {
        assert Timed(t, n);
      }
      forall id | id in u.live ensures Owned(u, id) {
        assert Owned(t, id);
      }
    }
  }

  lemma PlacedTimed(t: Table, name: Name, seconds: Option<int>, now: int, n: Name)
    requires Matched(t) && name !in t.lockers && n in Placed(t, name, seconds, now).lockers
    ensures Timed(Placed(t, name, seconds, now), n)
  {
    assert n != name ==> Timed(t, n);
  }

  lemma PlacedOwned(t: Table, name: Name, seconds: Option<int>, now: int, id: nat)
    requires Matched(t) && name !in t.lockers && id in Placed(t, name, seconds, now).live
    ensures id < Placed(t, name, seconds, now).timers && Owned(Placed(t, name, seconds, now), id)
  {
    assert id in t.live ==> Owned(t, id);
  }

  lemma PlacedMatched(t: Table, name: Name, seconds: Option<int>, now: int)
    requires Matched(t) && name !in t.lockers
    ensures Matched(Placed(t, name, seconds, now))
  {
    hide Timed, Owned;
    var u := Placed(t, name, seconds, now);
    forall n | n in u.lockers
      ensures Timed(u, n)
    {
      PlacedTimed(t, name, seconds, now, n);
    }
    forall id | id in u.live
      ensures id < u.timers && Owned(u, id)
    {
      PlacedOwned(t, name, seconds, now, id);
    }
  }

  lemma FiredMatched(t: Table, id: nat)
    requires Matched(t) && id in t.live
    ensures Matched(Fired(t, id))
  {
    var u := Fired(t, id);
    assert Owned(t, id);
    forall n | n in u.lockers ensures Timed(u, n) {
      assert Timed(t, n);
    }
    forall k | k in u.live ensures k < u.timers && Owned(u, k) {
      assert Owned(t, k);
    }
  }

  lemma ScreenedMatched(t: Table, close: bool, now: int)
    requires Matched(t)
    ensures Matched(Screened(t, close, now))
  {
  }

  lemma BackedOffMatched(t: Table, now: int)
    requires Matched(t)
    ensures Matched(BackedOff(t, now))
  {
    var u := Cancelled(t, t.backoff).(backoff := None);
    forall n | n in u.lockers ensures Timed(u, n) {
      assert Timed(t, n);
    }
    forall k | k in u.live ensures k < u.timers && Owned(u, k) {
      assert Owned(t, k);
    }
    ScreenedMatched(u, true, now);
  }

  lemma ReloadedMatched(t: Table, lid: bool, now: int)
    requires Matched(t)
    ensures Matched(Reloaded(t, lid, now))
  {
  }

  lemma AppliedMatched(v: View, op: Op)
    requires Matched(v.table)
    ensures Matched(Applied(v, op).table)
  {
    var t := v.table;
    match op
    case Add(name, time, force, now) => AddedMatched(t, name, time, force, now);
    case Fire(id) =>
      if id in t.live {
        FiredMatched(t, id);
      }
    case Reload(lid, now) => ReloadedMatched(t, lid, now);
    case Screen(close, now) => ScreenedMatched(t, close, now);
    case OnSuspend(_, _, _, now) =>
      RemovedMatched(t, Hibernate, false);
      BackedOffMatched(t, now);
    case OnHibernate(_, now) => BackedOffMatched(t, now);
    case Ability(_) =>
  }

  lemma AddedMatched(t: Table, name: Name, time: Expiry, force: bool, now: int)
    requires Matched(t)
    ensures Matched(Added(t, name, time, force, now).0)
  {
    RemovedMatched(t, name, true);
    RemovedMatched(t, name, false);
    PlacedMatched(Removed(t, name, false), name, if time.Seconds? then Some(time.n) else None, now);
  }

  /** Lockers and timers match over every run. */
  lemma {:induction false} TimersMatchLockers(v: View, ops: seq<Op>)
    requires Matched(v.table)
    ensures Matched(Run(v, ops).table)
    decreases ops
  {
    if ops != [] {
      AppliedMatched(v, ops[0]);
      TimersMatchLockers(Applied(v, ops[0]), ops[1..]);
    }
  }

  /** The timer of a locker that was replaced never removes its replacement: a timer that fires removes the very
      locker it was made for, whose time has come, and no other. */
  lemma OldTimersAreHarmless(ability: nat, ops: seq<Op>, id: nat)
    requires id in Run(Start(ability), ops).table.live
    ensures var t := Run(Start(ability), ops).table;
            match t.live[id].task {
              case Close(name) =>
                name in t.lockers && t.lockers[name] == Locker(Some(t.live[id].at), Some(id))
                && Fired(t, id).lockers == t.lockers - {name}
              case ClearBackoff => t.backoff == Some(id) && Fired(t, id).lockers == t.lockers
            }
  {
    TimersMatchLockers(Start(ability), ops);
    var t := Run(Start(ability), ops).table;
    assert Owned(t, id);
    if t.live[id].task.Close? {
      assert Timed(t, t.live[id].task.name);
    }
  }

  /** All lockers but `name` and all timers but that of `name` are as they were. */
  predicate OthersStay(t: Table, name: Name, u: Table) {
    && u.lockers - {name} == t.lockers - {name}
    && u.backoff == t.backoff
    && forall id :: id in t.live && t.live[id].task != Close(name) ==> id in u.live && u.live[id] == t.live[id]
  }

  lemma RemovedStays(t: Table, name: Name, notify: bool)
    requires Matched(t)
    ensures OthersStay(t, name, Removed(t, name, notify)) && name !in Removed(t, name, notify).lockers
    ensures forall id :: id in Removed(t, name, notify).live ==> t.live[id].task != Close(name)
  {
    var u := Removed(t, name, notify);
    forall id | id in t.live
      ensures id in u.live <==> t.live[id].task != Close(name)
    {
      assert Owned(t, id);
      if name in t.lockers && t.lockers[name].event == Some(id) {
        assert Timed(t, name);
      }
    }
  }

  /** Asking for a locker for `n` seconds gives one that expires then, with a timer due at that time, in place of any
      that is there; only when none is there or the request is forced, and when its expiry is not the number `n`. */
  lemma AskedForSeconds(t: Table, name: Name, n: int, force: bool, now: int)
    requires Matched(t) && !name.Unknown? && n > 0
    requires name in t.lockers ==> force && t.lockers[name].expire != Some(n)
    ensures var (u, r) := Added(t, name, Seconds(n), force, now);
      && r == Fine && OthersStay(t, name, u)
      && name in u.lockers && u.lockers[name].expire == Some(now + n) && u.lockers[name].event.Some?
      && (forall id :: id in u.live && u.live[id].task == Close(name) <==> Some(id) == u.lockers[name].event)
      && u.live[u.lockers[name].event.value].at == now + n
  {
    RemovedStays(t, name, false);
    RemovedMatched(t, name, false);
    NoneOwned(Removed(t, name, false), name);
  }

  /** Of a locker that is not there no timer is pending. */
  lemma NoneOwned(t: Table, name: Name)
    requires Matched(t) && name !in t.lockers
    ensures forall id :: id in t.live ==> id < t.timers && t.live[id].task != Close(name)
  {
    forall id | id in t.live
      ensures t.live[id].task != Close(name)
    {
      assert Owned(t, id);
    }
  }

  /** One without a time never expires. */
  lemma AskedForEver(t: Table, name: Name, force: bool, now: int)
    requires Matched(t) && !name.Unknown? && (name in t.lockers ==> force)
    ensures var (u, r) := Added(t, name, Forever, force, now);
      && r == Fine && OthersStay(t, name, u)
      && name in u.lockers && u.lockers[name] == Locker(None, None)
      && forall id :: id in u.live ==> u.live[id].task != Close(name)
  {
    if name in t.lockers && t.lockers[name].expire == None {
      assert Timed(t, name);
      NoTimerOf(t, name);
    } else {
      ReplacedForEver(t, name, now);
    }
  }

  lemma ReplacedForEver(t: Table, name: Name, now: int)
    requires Matched(t)
    ensures var u := Placed(Removed(t, name, false), name, None, now);
      && OthersStay(t, name, u) && name in u.lockers && u.lockers[name] == Locker(None, None)
      && forall id :: id in u.live ==> u.live[id].task != Close(name)
  {
    RemovedStays(t, name, false);
  }

  lemma NoTimerOf(t: Table, name: Name)
    requires Matched(t) && name in t.lockers && t.lockers[name].event == None
    ensures forall id :: id in t.live ==> t.live[id].task != Close(name)
  {
    forall id | id in t.live
      ensures t.live[id].task != Close(name)
    {
      assert Owned(t, id);
    }
  }

  /** No time left ends a locker, and its timer, only when the request is forced; and what is asked for again without
      force, or not understood, changes nothing. */
  lemma AskedInVain(t: Table, name: Name, time: Expiry, force: bool, now: int)
    requires Matched(t)
    ensures var (u, r) := Added(t, name, time, force, now);
      if name.Unknown? then (u, r) == (t, BadName)
      else if name in t.lockers && !force then (u, r) == (t, Fine)
      else if time.Garbage? then (u, r) == (t, BadTime)
      else if time.Seconds? && time.n <= 0 then
        r == Fine && OthersStay(t, name, u) && name !in u.lockers
        && forall id :: id in u.live ==> u.live[id].task != Close(name)
      else time.Seconds? && name in t.lockers && t.lockers[name].expire == Some(time.n) ==> (u, r) == (t, Fine)
  {
    RemovedStays(t, name, true);
  }

  /** The time at which an operation takes place. */
  function TimeOf(op: Op): int {
    match op
    case Add(_, _, _, now) => now
    case Reload(_, now) => now
    case Screen(_, now) => now
    case OnSuspend(_, _, _, now) => now
    case OnHibernate(_, now) => now
    case Fire(_) => 0
    case Ability(_) => 0
  }

  /** What a timer is made for: it closes a locker that was asked for so many seconds, or ends a back-off five seconds
      after it began. */
  predicate AsksFor(op: Op, due: Due) {
    match due.task
    case Close(name) => op.Add? && op.name == name && op.time.Seconds? && op.time.n > 0 && due.at == op.now + op.time.n
    case ClearBackoff => (op.Reload? || op.Screen? || op.OnSuspend? || op.OnHibernate?) && due.at == TimeOf(op) + 5
  }

  lemma NewTimers(v: View, op: Op, id: nat)
    requires id in Applied(v, op).table.live
    ensures var due := Applied(v, op).table.live[id];
      (id in v.table.live && v.table.live[id] == due) || (id >= v.table.timers && AsksFor(op, due))
  {
    if op.Add? {
      NewLockerTimer(v.table, op.name, op.time, op.force, op.now, id);
    } else if op.Reload? || op.Screen? {
    } else {
      hide Added, Screened, Timers;
      if op.OnSuspend? || op.OnHibernate? {
        NewBackOff(v.table, op.now, id);
      }
    }
  }

  lemma NewBackOff(t: Table, now: int, id: nat)
    ensures var u := BackedOff(t, now);
      id in u.live ==>
        (id in t.live && u.live[id] == t.live[id]) || (id == t.timers && u.live[id] == Due(now + 5, ClearBackoff))
  {
  }

  lemma NewLockerTimer(t: Table, name: Name, time: Expiry, force: bool, now: int, id: nat)
    ensures var u := Added(t, name, time, force, now).0;
      id in u.live ==>
        || (id in t.live && u.live[id] == t.live[id])
        || (id == t.timers && time.Seconds? && time.n > 0 && u.live[id] == Due(now + time.n, Close(name)))
  {
  }

  /** Over every run: whatever timer is pending, and so any timer that fires, is due at the time that the request that
      made it asked for. */
  lemma {:induction false} TimersKeepTheirTime(ability: nat, ops: seq<Op>, id: nat)
    requires id in Run(Start(ability), ops).table.live
    ensures exists k :: 0 <= k < |ops| && AsksFor(ops[k], Run(Start(ability), ops).table.live[id])
  {
    if ops != [] {
      var init, op := ops[..|ops| - 1], ops[|ops| - 1];
      var v := Run(Start(ability), init);
      RunLast(Start(ability), ops);
      NewTimers(v, op, id);
      if id in v.table.live && v.table.live[id] == Run(Start(ability), ops).table.live[id] {
        TimersKeepTheirTime(ability, init, id);
        var k :| 0 <= k < |init| && AsksFor(init[k], v.table.live[id]);
        assert ops[k] == init[k];
      } else {
        assert AsksFor(ops[|ops| - 1], Run(Start(ability), ops).table.live[id]);
      }
    }
  }

  /** Two lockers never share a timer. */
  lemma TimersAreDistinct(t: Table, a: Name, b: Name)
    requires Matched(t) && a in t.lockers && b in t.lockers
    requires t.lockers[a].event.Some? && t.lockers[a].event == t.lockers[b].event
    ensures a == b
  {
  }

  // ---- sleep -----------------------------------------------------------------------------

  /** Each hibernation follows the setting of an alarm, with nothing between. */
  predicate Paired(log: seq<Sleep>) {
    forall k :: 0 <= k < |log| && log[k] == Hibernated ==> k > 0 && log[k - 1] == Armed
  }

  /** Suspending and hibernating exclude each other, and a set alarm means suspending and has not been used. */
  predicate Awake(v: View) {
    && !(v.suspending && v.hibernating)
    && (v.wakeAlarm ==> v.suspending && v.log != [] && v.log[|v.log| - 1] == Armed)
    && Paired(v.log)
  }

  lemma PairedMore(log: seq<Sleep>, s: Sleep)
    requires Paired(log) && (s == Hibernated ==> log != [] && log[|log| - 1] == Armed)
    ensures Paired(log + [s])
  {
  }

  lemma AppliedAwake(v: View, op: Op)
    requires Awake(v)
    ensures Awake(Applied(v, op))
  {
    hide Added, Fired, Reloaded, Screened, BackedOff, Removed, Paired;
    PairedMore(v.log, Armed);
    if v.wakeAlarm {
      PairedMore(v.log, Hibernated);
    }
  }

  /** Over every interleaving of messages and timers the flags exclude each other, and each alarm leads to at most
      one hibernation. */
  lemma {:induction false} SleepFlagsExclude(v: View, ops: seq<Op>)
    requires Awake(v)
    ensures Awake(Run(v, ops))
    decreases ops
  {
    if ops != [] {
      AppliedAwake(v, ops[0]);
      SleepFlagsExclude(Applied(v, ops[0]), ops[1..]);
    }
  }

  /** The machine hibernates by itself exactly when it wakes from a suspension whose alarm was set and has gone off,
      with the ability to hibernate and without a locker against it. */
  lemma HibernatesWhen(v: View, op: Op)
    ensures Applied(v, op).log == v.log + [Hibernated] <==>
            op.OnSuspend? && op.phase == Post && v.suspending && v.wakeAlarm && op.alarm == Gone && v.ability > 0
            && Hibernate !in v.table.lockers
  {
    assert |v.log + [Hibernated]| == |v.log| + 1;
    assert (v.log + [Armed])[|v.log|] != (v.log + [Hibernated])[|v.log|];
  }

  /** Suspending sets the alarm exactly when the client can hibernate, no Hibernate locker outlasts the alarm, the
      alarm can be written, and the machine is not suspending already: a repeated message takes the alarm back. */
  lemma ArmedWhen(v: View, written: bool, alarm: Alarm, now: int)
    ensures SuspendMsg(v, Pre, written, alarm, now).wakeAlarm <==>
            !v.suspending && v.ability > 0 && written
            && (Hibernate in v.table.lockers ==>
                  v.table.lockers[Hibernate].expire.Some? && v.table.lockers[Hibernate].expire.value <= now + v.ability)
  {
  }

  lemma {:induction false} RunLast(v: View, ops: seq<Op>)
    requires ops != []
    ensures Run(v, ops) == Applied(Run(v, ops[..|ops| - 1]), ops[|ops| - 1])
    decreases ops
  {
    if |ops| > 1 {
      RunLast(Applied(v, ops[0]), ops[1..]);
      assert ops[1..][..|ops| - 2] == ops[..|ops| - 1][1..];
    } else {
      assert ops[..0] == [] && ops[1..] == [];
    }
  }

  predicate SuspendPre(op: Op) {
    op.OnSuspend? && op.phase == Pre
  }

  /** A message that ends a suspension: the machine wakes, or hibernates. */
  predicate EndsSuspension(op: Op) {
    (op.OnSuspend? && op.phase == Post) || (op.OnHibernate? && op.phase == Pre)
  }

  /** Any message about going to sleep or waking. */
  predicate SleepMessage(op: Op) {
    (op.OnSuspend? || op.OnHibernate?) && op.phase != Other
  }

  /** Message `k` announces a suspension that no later message has ended. */
  predicate SuspendsAt(ops: seq<Op>, k: nat) {
    k < |ops| && SuspendPre(ops[k]) && forall i :: k < i < |ops| ==> !EndsSuspension(ops[i])
  }

  lemma SuspendsAtLast(ops: seq<Op>)
    requires ops != []
    ensures var init, op := ops[..|ops| - 1], ops[|ops| - 1];
      (exists k :: SuspendsAt(ops, k)) <==>
      SuspendPre(op) || (!EndsSuspension(op) && exists k :: SuspendsAt(init, k))
  {
    var init, op := ops[..|ops| - 1], ops[|ops| - 1];
    assert SuspendPre(op) ==> SuspendsAt(ops, |init|);
    forall k | SuspendsAt(init, k) && !EndsSuspension(op)
      ensures SuspendsAt(ops, k)
    {
    }
    forall k | SuspendsAt(ops, k)
      ensures k == |init| || (SuspendsAt(init, k) && !EndsSuspension(op))
    {
    }
  }

  /** The machine counts as suspending exactly when some message has announced a suspension that none has ended. */
  lemma {:induction false} SuspendingWhen(ability: nat, ops: seq<Op>)
    ensures Run(Start(ability), ops).suspending <==> exists k :: SuspendsAt(ops, k)
  {
    if ops != [] {
      var init := ops[..|ops| - 1];
      RunLast(Start(ability), ops);
      SuspendingWhen(ability, init);
      SleepFlagsExclude(Start(ability), init);
      SuspendsAtLast(ops);
    }
  }

  /** Message `k` announces a hibernation after which the machine has neither woken nor begun to suspend. */
  predicate HibernatesAt(ops: seq<Op>, k: nat) {
    && k < |ops| && ops[k].OnHibernate? && ops[k].phase == Pre
    && forall i :: k < i < |ops| ==> !SuspendPre(ops[i]) && !(ops[i].OnHibernate? && ops[i].phase == Post)
  }

  lemma HibernatesAtLast(ops: seq<Op>)
    requires ops != []
    ensures var init, op := ops[..|ops| - 1], ops[|ops| - 1];
      (exists k :: HibernatesAt(ops, k)) <==>
      if op.OnHibernate? && op.phase != Other then op.phase == Pre
      else !SuspendPre(op) && exists k :: HibernatesAt(init, k)
  {
    var init, op := ops[..|ops| - 1], ops[|ops| - 1];
    assert op.OnHibernate? && op.phase == Pre ==> HibernatesAt(ops, |init|);
    forall k: nat | HibernatesAt(init, k) && !SuspendPre(op) && !(op.OnHibernate? && op.phase == Post)
      ensures HibernatesAt(ops, k)
    {
    }
    forall k: nat | HibernatesAt(ops, k)
      ensures k == |init| || (HibernatesAt(init, k) && !SuspendPre(op) && !(op.OnHibernate? && op.phase == Post))
    {
    }
  }

  /** The same of hibernating. */
  lemma {:induction false} HibernatingWhen(ability: nat, ops: seq<Op>)
    ensures Run(Start(ability), ops).hibernating <==> exists k :: HibernatesAt(ops, k)
  {
    if ops != [] {
      var init := ops[..|ops| - 1];
      RunLast(Start(ability), ops);
      HibernatingWhen(ability, init);
      SleepFlagsExclude(Start(ability), init);
      HibernatesAtLast(ops);
    }
  }

  /** A look at the screens begins a back-off of five seconds, unless one is going on or none is wanted. */
  lemma ScreenBegins(t: Table, close: bool, now: int)
    ensures Screened(t, close, now) ==
      if t.backoff.Some? || !close then t
      else Table(t.lockers, t.live[t.timers := Due(now + 5, ClearBackoff)], t.timers + 1, t.update, Some(t.timers))
  {
  }

  /** A machine about to suspend loses a Hibernate locker that would have expired before the alarm, also when the alarm
      cannot be written, and nothing else. */
  lemma SuspendingDrops(v: View, written: bool, alarm: Alarm, now: int)
    requires Matched(v.table)
    ensures var w := SuspendMsg(v, Pre, written, alarm, now);
      var expires := Hibernate in v.table.lockers && v.table.lockers[Hibernate].expire.Some?
        && v.table.lockers[Hibernate].expire.value <= now + v.ability;
      && OthersStay(v.table, Hibernate, w.table)
      && (Hibernate in w.table.lockers <==>
          Hibernate in v.table.lockers && (v.suspending || v.ability == 0 || !expires))
      && w.table.update == v.table.update
  {
    RemovedStays(v.table, Hibernate, false);
  }

  /** Clients are never told of the Backup locker. */
  lemma BackupIsSilent(t: Table, time: Expiry, force: bool, now: int, id: nat)
    ensures Added(t, Backup, time, force, now).0.update == t.update
    ensures id in t.live && t.live[id].task == Close(Backup) ==> Fired(t, id).update == t.update
  {
  }

  /** A machine that wakes from a suspension, or from a hibernation, begins a new back-off of five seconds in place of
      any that is going on, unless its alarm makes it hibernate; lockers and their timers stay. */
  lemma WakingBacksOff(v: View, op: Op)
    requires Matched(v.table)
    requires (op.OnSuspend? && v.suspending) || (op.OnHibernate? && v.hibernating)
    requires op.phase == Post
    ensures var w := Applied(v, op);
      && !w.suspending && !w.hibernating && !w.wakeAlarm && w.table.lockers == v.table.lockers
      && if w.log != v.log then w.table == v.table
         else
           && w.table.backoff == Some(v.table.timers)
           && (forall id :: id in w.table.live && w.table.live[id].task == ClearBackoff <==> id == v.table.timers)
           && w.table.live[v.table.timers].at == op.now + 5
           && forall id :: id in v.table.live && v.table.live[id].task != ClearBackoff ==>
                id in w.table.live && w.table.live[id] == v.table.live[id]
  {
    assert |v.log + [Hibernated]| != |v.log|;
    forall id | id in v.table.live
      ensures id < v.table.timers && (v.table.live[id].task == ClearBackoff <==> v.table.backoff == Some(id))
    {
      assert Owned(v.table, id);
    }
  }

  /** A reload leaves no locker, and no timer but that of a back-off, which goes on or begins. */
  lemma ReloadedIsEmpty(t: Table, lid: bool, now: int)
    requires Matched(t)
    ensures var u := Reloaded(t, lid, now);
      && u.lockers == map[] && !u.update
      && (forall id :: id in u.live ==> u.live[id].task == ClearBackoff)
      && u.backoff == if t.backoff.None? && lid then Some(t.timers) else t.backoff
  {
    ReloadedMatched(t, lid, now);
    forall id | id in Reloaded(t, lid, now).live
      ensures Reloaded(t, lid, now).live[id].task == ClearBackoff
    {
      assert Owned(Reloaded(t, lid, now), id);
    }
  }

  /** Message `k` announces a suspension of a machine that is not suspending, finds that the client can hibernate, that
      no Hibernate locker outlasts the alarm, and that the alarm can be written; and it is the last message about
      sleep. */
  ghost predicate ArmsAt(ability: nat, ops: seq<Op>, k: nat) {
    && k < |ops| && SuspendPre(ops[k]) && ops[k].written
    && (forall j :: 0 <= j < k ==> !SuspendsAt(ops[..k], j))
    && (var v := Run(Start(ability), ops[..k]);
        v.ability > 0 && !Outlasts(v.table, ops[k].now + v.ability))
    && forall i :: k < i < |ops| ==> !SleepMessage(ops[i])
  }

  lemma ArmsAtLast(ability: nat, ops: seq<Op>)
    requires ops != []
    ensures var init, op := ops[..|ops| - 1], ops[|ops| - 1];
      (exists k :: ArmsAt(ability, ops, k)) <==>
      if SleepMessage(op) then ArmsAt(ability, ops, |init|) else exists k :: ArmsAt(ability, init, k)
  {
    var init, op := ops[..|ops| - 1], ops[|ops| - 1];
    forall k: nat | ArmsAt(ability, init, k) && !SleepMessage(op)
      ensures ArmsAt(ability, ops, k)
    {
      assert init[..k] == ops[..k];
    }
    forall k: nat | ArmsAt(ability, ops, k) && !SleepMessage(op)
      ensures ArmsAt(ability, init, k)
    {
      assert init[..k] == ops[..k];
    }
    assert forall k :: ArmsAt(ability, ops, k) && SleepMessage(op) ==> k == |init|;
  }

  /** The wake alarm counts as set after a run exactly when the last message about sleep in it has set it: a message
      between suspension and wake-up, a repeated one too, takes it back. */
  lemma {:induction false} ArmedAfter(ability: nat, ops: seq<Op>)
    ensures Run(Start(ability), ops).wakeAlarm <==> exists k :: ArmsAt(ability, ops, k)
  {
    if ops != [] {
      var init, op := ops[..|ops| - 1], ops[|ops| - 1];
      var v := Run(Start(ability), init);
      RunLast(Start(ability), ops);
      ArmsAtLast(ability, ops);
      SleepFlagsExclude(Start(ability), init);
      if SleepMessage(op) {
        if SuspendPre(op) {
          SuspendingWhen(ability, init);
          ArmedWhen(v, op.written, op.alarm, op.now);
        }
      } else {
        ArmedAfter(ability, init);
      }
    }
  }

  /** A wake-up makes the machine hibernate exactly when the alarm was set by the last message about sleep before it,
      has gone off, and the client can still hibernate and has no locker against it. */
  lemma HibernatesAfter(ability: nat, ops: seq<Op>, written: bool, alarm: Alarm, now: int)
    ensures var v := Run(Start(ability), ops);
      Applied(v, OnSuspend(Post, written, alarm, now)).log == v.log + [Hibernated] <==>
      alarm == Gone && v.ability > 0 && Hibernate !in v.table.lockers && exists k :: ArmsAt(ability, ops, k)
  {
    var v := Run(Start(ability), ops);
    HibernatesWhen(v, OnSuspend(Post, written, alarm, now));
    ArmedAfter(ability, ops);
    SleepFlagsExclude(Start(ability), ops);
  }

  lemma AddedAnnounces(t: Table, name: Name, time: Expiry, force: bool, now: int)
    requires !Added(t, name, time, force, now).0.update
    ensures Added(t, name, time, force, now).0.lockers - {Backup} == t.lockers - {Backup}
  {
  }

  /** Except when everything is reloaded, and when suspending removes a Hibernate locker silently, clients are told
      whenever a locker other than Backup comes, goes or changes. */
  lemma ChangesAreAnnounced(v: View, op: Op)
    requires !Applied(v, op).table.update && !op.Reload? && !(op.OnSuspend? && op.phase == Pre)
    ensures Applied(v, op).table.lockers - {Backup} == v.table.lockers - {Backup}
  {
    if op.Add? {
      AddedAnnounces(v.table, op.name, op.time, op.force, op.now);
    }
  }

  /** For instance, a second message before suspension: the alarm that the first one has set is not there when the
      machine wakes, and it does not hibernate although the alarm's time has come. */
  lemma RepeatTakesTheAlarmBack(v: View, now: int, later: int)
    requires !v.suspending && v.ability > 0 && !Outlasts(v.table, now + v.ability)
    ensures var a := SuspendMsg(v, Pre, true, Gone, now);
            var b := SuspendMsg(a, Pre, true, Gone, later);
            a.wakeAlarm && b.suspending && !b.wakeAlarm && SuspendMsg(b, Post, true, Gone, later).log == a.log
  {
  }
}
