/** A virtual machine of hydra.py: its life from start to stop, and its share of the USB devices. */
module Vm {
  import opened Wrappers

  const WAITING := 0x1
  const RUNNING := 0x2
  const SLEEPING := 0x3
  const DONE := 0x4
  const FAILED := 0x5
  const STOPPED := 0x10

  const WAIT_TIME := 10

  /** `proc`: its process, living or not; `watched`: the processes of which the dispatcher has still to report the end;
      `pids`: how many have been started, which numbers them; `timer`: a soft shutdown's grace period is running;
      `adapters`: the network interfaces it has; `usb`: its devices and their ids. */
  datatype Vm = Vm(
    state: nat, wait: nat, proc: Option<nat>, watched: set<nat>, pids: nat, timer: bool, adapters: nat,
    usb: map<string, nat>)

  const FRESH := Vm(STOPPED, 0, None, {}, 0, false, 0, map[])

  /** The devices of all machines, and which machine each belongs to. */
  type Index = map<string, nat>

  // ---- the operations as functions -------------------------------------------------------

  /** `__stop`, called when the dispatcher finds process `pid` ended.  It does not look which process that is. */
  function ProcessEnded(v: Vm, pid: nat): Vm {
    if pid !in v.watched then v
    else
      var w := v.(watched := v.watched - {pid});
      if w.state == STOPPED then w else w.(state := if w.state == WAITING then FAILED else DONE)
  }

  /** `_sleep`; the flag says whether it went well. */
  function Slept(v: Vm, sleep: bool, signalled: bool): (Vm, bool) {
    if sleep && v.state == RUNNING && signalled then (v.(state := SLEEPING), true)
    else if !sleep && v.state == SLEEPING && signalled then (v.(state := RUNNING), true)
    else (v, false)
  }

  /** `_stop` with force. */
  function ForceStopped(v: Vm): Vm {
    if v.state == STOPPED then v
    else v.(state := STOPPED, proc := None, timer := false, adapters := 0, usb := map[])
  }

  /** What a soft stop meets: whether the process lives, whether it is only a tap on the power button, whether the
      grace period is a number above 0, and whether the machine answers. */
  datatype StopWorld = StopWorld(alive: bool, tap: bool, grace: bool, answered: bool)

  /** `_stop` without force. */
  function SoftStopped(v: Vm, w: StopWorld): (Vm, bool) {
    if v.state == STOPPED then (v, true)
    else if w.tap then (v, v.state != SLEEPING && w.answered)
    else if v.state == WAITING then (v, false)
    else if !(v.proc.Some? && w.alive) then (ForceStopped(v), true)
    else if v.timer || v.state == SLEEPING || !w.grace || !w.answered then (v, false)
    else (v.(timer := true), true)
  }

  /** `_thread`, the machine's part of a tick. */
  function Threaded(v: Vm, alive: bool, sockets: bool): Vm {
    if v.state == DONE || v.state == FAILED then ForceStopped(v)
    else if v.state != WAITING then v
    else if v.proc.Some? && alive then if sockets then v.(state := RUNNING) else v
    else
      var w := v.(wait := v.wait + 1);
      if w.wait < WAIT_TIME then w else ForceStopped(w)
  }

  /** What a start meets: whether an old process lives and can be signalled; whether the command line can be built,
      with how many interfaces, and those be set up; whether the process starts, lives and opens its sockets. */
  datatype StartWorld = StartWorld(
    alive: bool, signalled: bool, built: bool, interfaces: nat, linked: bool, launched: bool, up: bool,
    sockets: bool)

  /** How a start ends: well; with an OSError, which the source's own `Error` is another name of; or, when the machine
      is running and not asleep, with an exception of another kind. */
  datatype StartResult = Up | Failure | Broken

  /** `_start`. */
  function Started(v: Vm, w: StartWorld): (Vm, StartResult) {
    if v.proc.Some? && w.alive then
      if v.state == SLEEPING then
        var (u, ok) := Slept(v, false, w.signalled);
        (u, if ok then Up else Failure)
      else (v, Broken)
    else
      var s := v.(state := STOPPED, proc := None, adapters := w.interfaces);
      if !w.built then (s, Failure)
      else
        var t := s.(adapters := if w.linked then w.interfaces else 0, wait := 0);
        if !w.launched then (t, Failure)
        else
          (t.(proc := Some(t.pids), watched := t.watched + {t.pids}, pids := t.pids + 1,
              state := if w.up && w.sockets then RUNNING else WAITING), Up)
  }

  /** The id that a new device gets: one more than the greatest in use. */
  predicate IsNext(usb: map<string, nat>, id: nat) {
    (forall k :: k in usb ==> usb[k] < id) && (id == 1 || exists k :: k in usb && usb[k] + 1 == id)
  }

  // ---- the machine as the source has it --------------------------------------------------

  /** The manager's index of devices, which its machines change. */
  class Devices {
    var usb: Index

    constructor ()
      ensures usb == map[]
    {
      usb := map[];
    }
  }

  class VM {
    const vmid: nat
    var state: nat
    var wait: nat
    var proc: Option<nat>
    var watched: set<nat>
    var pids: nat
    var timer: bool
    var adapters: nat
    var usb: map<string, nat>

    function View(): Vm
      reads this
    {
      Vm(state, wait, proc, watched, pids, timer, adapters, usb)
    }

    /** Every device of the machine is booked for it. */
    predicate Booked(manager: Devices)
      reads this, manager
    {
      forall k :: k in usb ==> k in manager.usb && manager.usb[k] == vmid
    }

    constructor (vmid: nat)
      ensures this.vmid == vmid && View() == FRESH
    {
      this.vmid := vmid;
      state, wait, proc, watched, pids, timer, adapters, usb := STOPPED, 0, None, {}, 0, false, 0, map[];
    }

    /** The dispatcher reports the end of a process that it watched for the machine. */
    method ProcessExit(pid: nat)
      modifies this
      ensures View() == ProcessEnded(old(View()), pid)
    {
      if pid !in watched {
        return;
      }
      watched := watched - {pid};
      if state == STOPPED {
        return;
      }
      state := if state == WAITING then FAILED else DONE;
    }

    method Sleep(sleep: bool, signalled: bool) returns (ok: bool)
      modifies this
      ensures (View(), ok) == Slept(old(View()), sleep, signalled)
    {
      if sleep && state == SLEEPING {
        return false;
      }
      if !sleep && state != SLEEPING {
        return false;
      }
      if state != RUNNING && state != SLEEPING {
        return false;
      }
      if !signalled {
        return false;
      }
      state := if sleep then SLEEPING else RUNNING;
      return true;
    }

    /** `_stop`. */
    method Stop(manager: Devices, force: bool, w: StopWorld) returns (ok: bool)
      requires Booked(manager)
      modifies this, manager
      ensures force ==> View() == ForceStopped(old(View())) && ok
      ensures !force ==> (View(), ok) == SoftStopped(old(View()), w)
      ensures usb.Keys <= old(usb).Keys && manager.usb == old(manager.usb) - (old(usb).Keys - usb.Keys)
    {
      if state == STOPPED {
        return true;
      }
      if !force && w.tap {
        return state != SLEEPING && w.answered;
      }
      if !force && state == WAITING {
        return false;
      }
      if !force && proc.Some? && w.alive {
        if timer || state == SLEEPING || !w.grace || !w.answered {
          return false;
        }
        timer := true;
        return true;
      }
      proc := None;
      adapters := 0;
      timer := false;
      ok := UsbClean(manager, false, k => false);
      state := STOPPED;
    }

    method Thread(manager: Devices, alive: bool, sockets: bool)
      requires Booked(manager)
      modifies this, manager
      ensures View() == Threaded(old(View()), alive, sockets)
      ensures usb.Keys <= old(usb).Keys && manager.usb == old(manager.usb) - (old(usb).Keys - usb.Keys)
    {
      var idle := StopWorld(false, false, false, false);
      if state == STOPPED {
        return;
      }
      if state == DONE || state == FAILED {
        var ok := Stop(manager, true, idle);
      }
      if state != WAITING {
        return;
      }
      if !(proc.Some? && alive) {
        wait := wait + 1;
        if wait < WAIT_TIME {
          return;
        }
        var ok := Stop(manager, true, idle);
        return;
      }
      if !sockets {
        return;
      }
      state := RUNNING;
    }

    method Start(w: StartWorld) returns (r: StartResult)
      modifies this
      ensures (View(), r) == Started(old(View()), w)
    {
      if proc.Some? && w.alive {
        if state == SLEEPING {
          var ok := Sleep(false, w.signalled);
          return if ok then Up else Failure;
        }
        return Broken;
      }
      state, proc := STOPPED, None;
      adapters := w.interfaces;
      if !w.built {
        return Failure;
      }
      if !w.linked {
        adapters := 0;
      }
      wait := 0;
      if !w.launched {
        state := STOPPED;
        return Failure;
      }
      proc, watched, pids := Some(pids), watched + {pids}, pids + 1;
      state := if w.up && w.sockets then RUNNING else WAITING;
      return Up;
    }

    /** The greatest id in use, or 0. */
    method HighestId() returns (n: nat)
      ensures forall k :: k in usb ==> usb[k] <= n
      ensures n == 0 || exists k :: k in usb && usb[k] == n
    {
      n := 0;
      var todo := usb.Keys;
      while todo != {}
        invariant todo <= usb.Keys
        invariant forall k :: k in usb && k !in todo ==> usb[k] <= n
        invariant n == 0 || exists k :: k in usb && usb[k] == n
        decreases todo
      {
        var k :| k in todo;
        if usb[k] > n {
          n := usb[k];
        }
        todo := todo - {k};
      }
    }

    /** `_usb_add`: None where the source raises. */
    method UsbAdd(manager: Devices, device: string, found: bool, alive: bool, answered: bool) returns (id: Option<nat>)
      modifies this`usb, manager
      ensures id.Some? <==>
                found && proc.Some? && alive && answered && device !in old(usb) && device !in old(manager.usb)
      ensures id.None? ==> usb == old(usb) && manager.usb == old(manager.usb)
      ensures id.Some? ==> usb == old(usb)[device := id.value] && manager.usb == old(manager.usb)[device := vmid]
      ensures id.Some? ==> IsNext(old(usb), id.value)
    {
      if !found || !(proc.Some? && alive) || device in usb || device in manager.usb {
        return None;
      }
      var n := HighestId();
      if !answered {
        return None;
      }
      usb := usb[device := n + 1];
      manager.usb := manager.usb[device := vmid];
      return Some(n + 1);
    }

    /** `_usb_remove`, for a device named by itself. */
    method UsbRemove(manager: Devices, device: string, alive: bool, answered: bool) returns (ok: bool)
      requires Booked(manager)
      modifies this`usb, manager
      ensures ok <==> device in old(usb) && (proc.Some? && alive ==> answered)
      ensures usb == if ok then old(usb) - {device} else old(usb)
      ensures manager.usb == if ok then old(manager.usb) - {device} else old(manager.usb)
    {
      if device !in usb {
        return false;
      }
      if proc.Some? && alive && !answered {
        return false;
      }
      usb := usb - {device};
      manager.usb := manager.usb - {device};
      return true;
    }

    /** `_usb_remove`, for a device named by its id. */
    method UsbRemoveId(manager: Devices, id: nat, alive: bool, answered: bool) returns (ok: bool)
      requires Booked(manager)
      modifies this`usb, manager
      ensures id !in old(usb).Values ==> !ok
      ensures !ok ==> usb == old(usb) && manager.usb == old(manager.usb)
      ensures ok ==> exists k :: k in old(usb) && old(usb)[k] == id
                       && usb == old(usb) - {k} && manager.usb == old(manager.usb) - {k}
    {
      if id !in usb.Values {
        return false;
      }
      var k :| k in usb && usb[k] == id;
      ok := UsbRemove(manager, k, alive, answered);
    }

    /** `_usb_clean`: devices go one by one until the machine refuses one; those gone before stay gone, from both
        books. */
    method UsbClean(manager: Devices, alive: bool, refused: string -> bool) returns (ok: bool)
      requires Booked(manager)
      modifies this`usb, manager
      ensures usb.Keys <= old(usb).Keys && forall k :: k in usb ==> usb[k] == old(usb)[k]
      ensures manager.usb == old(manager.usb) - (old(usb).Keys - usb.Keys)
      ensures ok <==> !(proc.Some? && alive) || forall k :: k in old(usb) ==> !refused(k)
      ensures ok ==> usb == map[]
      ensures !ok ==> exists k :: k in usb && refused(k)
    {
      var todo := usb.Keys;
      while todo != {}
        invariant usb.Keys == todo
        invariant todo <= old(usb).Keys && forall k :: k in usb ==> usb[k] == old(usb)[k]
        invariant manager.usb == old(manager.usb) - (old(usb).Keys - usb.Keys)
        invariant proc.Some? && alive ==> forall k :: k in old(usb) && k !in usb ==> !refused(k)
        decreases todo
      {
        var k :| k in todo;
        if proc.Some? && alive && refused(k) {
          return false;
        }
        usb := usb - {k};
        manager.usb := manager.usb - {k};
        todo := todo - {k};
      }
      return true;
    }
  }

  // ---- the life of a machine -------------------------------------------------------------

  datatype Op =
    | Exit(pid: nat)
    | Sleep(sleep: bool, signalled: bool)
    | ForceStop
    | SoftStop(stop: StopWorld)
    | Tick(alive: bool, sockets: bool)
    | Start(start: StartWorld)
    | Give(device: string, id: nat)
    | Take(gone: set<string>)

  /** Devices are given and taken while the machine has a process; a stopped machine has none. */
  function Applied(v: Vm, op: Op): Vm {
    match op
    case Exit(pid) => ProcessEnded(v, pid)
    case Sleep(sleep, signalled) => Slept(v, sleep, signalled).0
    case ForceStop => ForceStopped(v)
    case SoftStop(w) => SoftStopped(v, w).0
    case Tick(alive, sockets) => Threaded(v, alive, sockets)
    case Start(w) => Started(v, w).0
    case Give(device, id) =>
      if v.proc.Some? && device !in v.usb && IsNext(v.usb, id) then v.(usb := v.usb[device := id]) else v
    case Take(gone) => if v.proc.Some? then v.(usb := v.usb - gone) else v
  }

  function Run(v: Vm, ops: seq<Op>): Vm
    decreases ops
  {
    if ops == [] then v else Run(Applied(v, ops[0]), ops[1..])
  }

  /** The changes of state there are.  A start is the only way out of STOPPED. */
  predicate Step(a: nat, b: nat, start: bool) {
    || a == b
    || b == STOPPED
    || (a == WAITING && (b == RUNNING || b == FAILED))
    || (a == RUNNING && b == SLEEPING)
    || (a == SLEEPING && b == RUNNING)
    || (a in {RUNNING, SLEEPING, FAILED} && b == DONE)
    || (start && (b == WAITING || b == RUNNING))
  }

  /** A machine has a process object exactly while it is not stopped, and one that waits has not waited too long. */
  predicate Alright(v: Vm) {
    && v.state in {WAITING, RUNNING, SLEEPING, DONE, FAILED, STOPPED}
    && (v.proc.Some? <==> v.state != STOPPED)
    && (v.proc.Some? ==> v.proc.value < v.pids)
    && (forall p :: p in v.watched ==> p < v.pids)
    && (v.state == WAITING ==> v.wait < WAIT_TIME)
  }

  lemma AppliedAlright(v: Vm, op: Op)
    requires Alright(v)
    ensures Alright(Applied(v, op)) && Step(v.state, Applied(v, op).state, op.Start?)
  {
  }

  /** Over every run each change of state is one of the table: sleeping is entered only from running, failed only
      from waiting, and nothing but a start leaves stopped. */
  lemma {:induction false} EveryStepIsInTheTable(v: Vm, ops: seq<Op>, op: Op)
    requires Alright(v)
    ensures var u := Run(v, ops);
            Alright(u) && Alright(Applied(u, op)) && Step(u.state, Applied(u, op).state, op.Start?)
    decreases ops
  {
    if ops == [] {
      AppliedAlright(v, op);
    } else {
      AppliedAlright(v, ops[0]);
      EveryStepIsInTheTable(Applied(v, ops[0]), ops[1..], op);
    }
  }

  /** A tick leaves a machine's devices alone, or stops the machine and takes them all. */
  lemma TickTakesAllOrNone(v: Vm, alive: bool, sockets: bool)
    ensures var t := Threaded(v, alive, sockets);
            if v.state >= STOPPED then t == v else t.usb == if t.state < STOPPED then v.usb else map[]
  {
  }

  /** A machine that waits runs with the tick that finds its process living and its sockets open; while it lives it
      goes on waiting and counts nothing. */
  lemma WaitingRuns(v: Vm, alive: bool, sockets: bool)
    requires v.state == WAITING && v.proc.Some? && alive
    ensures Threaded(v, alive, sockets) == if sockets then v.(state := RUNNING) else v
  {
  }

  /** A tick clears a machine exactly when it is done, has failed, or has waited too long without a living process. */
  lemma TickClearsWhen(v: Vm, alive: bool, sockets: bool)
    requires v.state != STOPPED
    ensures Threaded(v, alive, sockets).state == STOPPED <==>
      v.state in {DONE, FAILED} || (v.state == WAITING && !(v.proc.Some? && alive) && v.wait + 1 >= 10)
  {
  }

  /** The end of a watched process makes a waiting machine a failed one and any other that is not stopped a done one. */
  lemma EndsAs(v: Vm, pid: nat)
    requires pid in v.watched
    ensures ProcessEnded(v, pid).state ==
      if v.state == STOPPED then STOPPED else if v.state == WAITING then FAILED else DONE
    ensures ProcessEnded(v, pid) == v.(state := ProcessEnded(v, pid).state, watched := v.watched - {pid})
  {
  }

  /** A machine goes to sleep and wakes when it could be signalled in the right state, and only then. */
  lemma SleepsWhen(v: Vm, sleep: bool, signalled: bool)
    ensures Slept(v, sleep, signalled).1 <==> signalled && v.state == if sleep then RUNNING else SLEEPING
    ensures Slept(v, sleep, signalled).0 ==
      if Slept(v, sleep, signalled).1 then v.(state := if sleep then SLEEPING else RUNNING) else v
  {
  }

  /** A soft stop of a machine that lives and is not waiting begins the one grace period, if it is awake and
      answers; one whose process is dead is stopped at once; a tap on the power button changes nothing. */
  lemma SoftStopDoes(v: Vm, w: StopWorld)
    requires v.state != STOPPED
    ensures var (u, ok) := SoftStopped(v, w);
      && (u.state == STOPPED <==> !w.tap && v.state != WAITING && !(v.proc.Some? && w.alive))
      && (u.state == STOPPED ==> Cleared(u) && ok)
      && (u.timer && !v.timer <==>
            !w.tap && v.state != WAITING && v.proc.Some? && w.alive && !v.timer && v.state != SLEEPING && w.grace
            && w.answered)
      && (u.state != STOPPED ==>
            && u == v.(timer := u.timer)
            && (ok <==> u.timer != v.timer || (w.tap && w.answered && v.state != SLEEPING)))
  {
  }

  /** A start goes well exactly when it wakes a sleeping machine, or finds no living process and launches one; then that
      process is new and watched, and the machine runs if its sockets are open and waits from the beginning if not. */
  lemma StartsWhen(v: Vm, w: StartWorld)
    ensures var (u, r) := Started(v, w);
      if v.proc.Some? && w.alive then
        && (r == Up <==> v.state == SLEEPING && w.signalled)
        && (r == Broken <==> v.state != SLEEPING)
        && u == if r == Up then v.(state := RUNNING) else v
      else
        && (r == Up <==> w.built && w.launched) && r != Broken
        && u.usb == v.usb && u.timer == v.timer
        && if r == Up then
             && u.state == (if w.up && w.sockets then RUNNING else WAITING) && u.wait == 0
             && u.proc == Some(v.pids) && u.pids == v.pids + 1 && u.watched == v.watched + {v.pids}
             && u.adapters == if w.linked then w.interfaces else 0
           else u.state == STOPPED && u.proc == None && u.watched == v.watched && u.pids == v.pids
  {
  }

  lemma WhereStatesComeFrom(v: Vm, op: Op)
    requires Alright(v) && Applied(v, op).state != v.state
    ensures Applied(v, op).state == SLEEPING ==> v.state == RUNNING
    ensures Applied(v, op).state == FAILED ==> v.state == WAITING
    ensures v.state == STOPPED ==> op.Start?
  {
  }

  /** Ticks that find no living process. */
  function DeadTicks(v: Vm, n: nat): Vm {
    if n == 0 then v else Threaded(DeadTicks(v, n - 1), false, false)
  }

  /** A machine whose process is not running waits for as many ticks as are left to it, and is then stopped and
      cleared away. */
  lemma {:induction false} WaitingEnds(v: Vm, n: nat)
    requires Alright(v) && v.state == WAITING
    ensures DeadTicks(v, n) ==
            if v.wait + n < WAIT_TIME then v.(wait := v.wait + n)
            else Vm(STOPPED, WAIT_TIME, None, v.watched, v.pids, false, 0, map[])
  {
    if n > 0 {
      WaitingEnds(v, n - 1);
    }
  }

  /** Nothing is left of a machine: no process, no timer, no interfaces, no devices. */
  predicate Cleared(v: Vm) {
    v.state == STOPPED && v.proc.None? && !v.timer && v.adapters == 0 && v.usb == map[]
  }

  /** A machine that counts as stopped has been cleared. */
  predicate Tidy(v: Vm) {
    v.state == STOPPED ==> Cleared(v)
  }

  /** A start fails and leaves something behind: interfaces that it had listed and, when the machine was not stopped
      before it, a timer or devices. */
  predicate Leaves(v: Vm, w: StartWorld) {
    && !(v.proc.Some? && w.alive) && !(w.built && w.launched)
    && ((w.interfaces > 0 && (w.built ==> w.linked)) || v.timer || v.usb != map[])
  }

  predicate NoStart(ops: seq<Op>) {
    ops == [] || (!ops[0].Start? && NoStart(ops[1..]))
  }

  /** The last start of the run is number `k`, and it leaves something behind. */
  predicate LeavesAt(v: Vm, ops: seq<Op>, k: nat)
    requires k < |ops|
  {
    ops[k].Start? && Leaves(Run(v, ops[..k]), ops[k].start) && NoStart(ops[k + 1..])
  }

  lemma ForceStopClearsOne(v: Vm)
    ensures Cleared(ForceStopped(v)) <==> Tidy(v)
  {
  }

  lemma TidyAfter(v: Vm, op: Op)
    requires Alright(v)
    ensures Tidy(Applied(v, op)) <==> if op.Start? then !Leaves(v, op.start) else Tidy(v)
  {
  }

  lemma LeavesLater(v: Vm, ops: seq<Op>, k: nat)
    requires k + 1 < |ops|
    ensures LeavesAt(v, ops, k + 1) <==> LeavesAt(Applied(v, ops[0]), ops[1..], k)
  {
    assert ops[..k + 1][0] == ops[0] && ops[..k + 1][1..] == ops[1..][..k] && ops[1..][k + 1..] == ops[k + 2..];
  }

  /** A forced stop after a run clears a machine, exactly unless the last start of the run has failed and left
      something, or the machine was not tidy and has not been started at all. */
  lemma {:induction false} ForceStopClearsFrom(v: Vm, ops: seq<Op>)
    requires Alright(v)
    ensures Cleared(ForceStopped(Run(v, ops))) <==>
            (Tidy(v) || !NoStart(ops)) && forall k :: 0 <= k < |ops| ==> !LeavesAt(v, ops, k)
    decreases ops
  {
    if ops == [] {
      ForceStopClearsOne(v);
    } else {
      var u, rest := Applied(v, ops[0]), ops[1..];
      AppliedAlright(v, ops[0]);
      TidyAfter(v, ops[0]);
      ForceStopClearsFrom(u, rest);
      assert LeavesAt(v, ops, 0) <==> ops[0].Start? && Leaves(v, ops[0].start) && NoStart(rest);
      forall k | 0 <= k < |rest|
        ensures LeavesAt(v, ops, k + 1) <==> LeavesAt(u, rest, k)
      {
        LeavesLater(v, ops, k);
      }
      forall k | 0 < k < |ops|
        ensures LeavesAt(v, ops, k) <==> LeavesAt(u, rest, k - 1)
      {
        LeavesLater(v, ops, k - 1);
      }
    }
  }

  /** A forced stop clears a machine, whatever has happened to it, exactly unless its last start failed after listing
      interfaces that were not removed again, or failed on a machine that had devices or a grace period running. */
  lemma ForceStopClears(ops: seq<Op>)
    ensures Cleared(ForceStopped(Run(FRESH, ops))) <==> forall k :: 0 <= k < |ops| ==> !LeavesAt(FRESH, ops, k)
  {
    ForceStopClearsFrom(FRESH, ops);
  }

  /** Such machines exist: a start whose process cannot be launched leaves the interfaces it has set up behind, and a
      forced stop does not remove them. */
  lemma FailedLaunchLeaves(w: StartWorld)
    requires w.built && w.linked && !w.launched
    ensures var (v, r) := Started(FRESH, w);
            r == Failure && v.adapters == w.interfaces && ForceStopped(v) == v
            && (Cleared(v) <==> w.interfaces == 0)
  {
  }

  // ---- ends that come late ---------------------------------------------------------------

  /** The machine counts as ended. */
  predicate Over(v: Vm) {
    v.state == DONE || v.state == FAILED
  }

  /** Something happens other than a start and the end of process `pid`. */
  predicate Else(op: Op, pid: nat) {
    !op.Start? && op != Exit(pid)
  }

  predicate AllElse(ops: seq<Op>, pid: nat) {
    forall k :: 0 <= k < |ops| ==> Else(ops[k], pid)
  }

  /** A machine for which no process but its own is watched is over only when its own process has ended. */
  lemma {:induction false} OnlyTheOwnEndEnds(v: Vm, ops: seq<Op>, pid: nat)
    requires !Over(v) && v.watched <= {pid} && AllElse(ops, pid)
    ensures !Over(Run(v, ops))
    decreases ops
  {
    if ops != [] {
      assert Else(ops[0], pid);
      OnlyTheOwnEndEnds(Applied(v, ops[0]), ops[1..], pid);
    }
  }

  /** A machine just started stays alive as long as its process does, whatever else happens to it, if and only if the
      end of every earlier process had been reported before the start. */
  lemma AliveWhileItsProcessIs(u: Vm, w: StartWorld)
    requires Alright(u) && !(u.proc.Some? && w.alive) && w.built && w.launched
    ensures var v := Started(u, w).0;
            (forall ops :: AllElse(ops, u.pids) ==> !Over(Run(v, ops))) <==> u.watched == {}
  {
    var v := Started(u, w).0;
    if u.watched == {} {
      forall ops | AllElse(ops, u.pids) ensures !Over(Run(v, ops)) {
        OnlyTheOwnEndEnds(v, ops, u.pids);
      }
    } else {
      var pid :| pid in u.watched;
      var ops := [Exit(pid)];
      assert AllElse(ops, u.pids) && ops[1..] == [];
      assert Run(v, ops) == Run(Applied(v, Exit(pid)), []);
    }
  }

  /** It can come to that: the process of a sleeping machine dies, the machine is started again before the dispatcher
      has noticed, and the late news of process 0 then ends the machine whose process is 1. */
  lemma LateExitEndsTheNewMachine(w: StartWorld)
    requires !w.alive && w.built && w.linked && w.launched && w.up && w.sockets
    ensures var v := Run(FRESH, [Start(w), Sleep(true, true), Start(w)]);
            v.proc == Some(1) && v.state == RUNNING && v.watched == {0, 1}
            && Applied(v, Exit(0)) == v.(state := DONE, watched := {1})
  {
    var ops := [Start(w), Sleep(true, true), Start(w)];
    var a := Applied(FRESH, Start(w));
    var b := Applied(a, Sleep(true, true));
    assert ops[1..] == [Sleep(true, true), Start(w)] && ops[1..][1..] == [Start(w)] && [Start(w)][1..] == [];
    assert Run(b, [Start(w)]) == Run(Applied(b, Start(w)), []);
    assert Run(a, ops[1..]) == Run(b, [Start(w)]);
    assert {0, 1} - {0} == {1};
  }
}
