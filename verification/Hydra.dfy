/** The manager of hydra.py: the machines it knows, its tick, and the index of the USB devices they own. */
module Hydra {
  import opened Wrappers
  import opened Vm
  import Machine = Vm

  /** `running`: the bridge and its services are up. */
  datatype Hydra = Hydra(vms: map<nat, Vm>, usb: Index, running: bool)

  /** How an attempt to bring up the bridge ends: well, refused before anything was done, or undone half-way. */
  datatype Bringup = Came | Refused | Undone

  /** What the manager handles. */
  datatype Event =
    | Ticks(bringup: Bringup, alive: nat -> bool, sockets: nat -> bool)
    | Exits(v: nat, pid: nat)
    | Sleeps(v: nat, sleep: bool, signalled: bool)
    | Stops(v: nat, force: bool, stop: StopWorld)
    | Rouses(v: nat, start: StartWorld)
    | Launches(v: nat, bringup: Bringup, start: StartWorld)
    | Adds(v: nat, device: string, id: nat)
    | Removes(v: nat, device: string)
    | Cleans(v: nat, gone: set<string>)
    | Shutdown

  /** `stop`: every machine is stopped by force, and everything forgotten. */
  function Shut(h: Hydra): Hydra {
    Hydra(map[], map[], false)
  }

  /** `start`. */
  function Brought(h: Hydra, b: Bringup): Hydra {
    if h.running then h
    else match b
      case Came => h.(running := true)
      case Refused => h
      case Undone => Shut(h)
  }

  predicate Survives(vm: Vm, alive: bool, sockets: bool) {
    Threaded(vm, alive, sockets).state < STOPPED
  }

  /** The machines after their part of a tick; those that have stopped are dropped. */
  function Survivors(vms: map<nat, Vm>, alive: nat -> bool, sockets: nat -> bool): map<nat, Vm> {
    map v | v in vms && Survives(vms[v], alive(v), sockets(v)) :: Threaded(vms[v], alive(v), sockets(v))
  }

  /** The machines during a tick, of which those in `todo` are still to come. */
  function Midway(vms: map<nat, Vm>, todo: set<nat>, alive: nat -> bool, sockets: nat -> bool): map<nat, Vm> {
    map v | v in vms && (v in todo || Survives(vms[v], alive(v), sockets(v))) ::
      if v in todo then vms[v] else Threaded(vms[v], alive(v), sockets(v))
  }

  /** The devices that the tick takes from machines. */
  function Freed(vms: map<nat, Vm>, alive: nat -> bool, sockets: nat -> bool): set<string> {
    set v, k | v in vms && k in Lost(vms[v], alive(v), sockets(v)) :: k
  }

  /** The devices that the tick takes from one machine. */
  function Lost(vm: Vm, alive: bool, sockets: bool): set<string> {
    vm.usb.Keys - Threaded(vm, alive, sockets).usb.Keys
  }

  /** `thread`. */
  function Ticked(h: Hydra, b: Bringup, alive: nat -> bool, sockets: nat -> bool): Hydra {
    if !h.running then
      if h.vms == map[] then h
      else if b == Refused then h.(vms := map[]) else Brought(h, b)
    else if h.vms == map[] then Shut(h)
    else h.(vms := Survivors(h.vms, alive, sockets), usb := h.usb - Freed(h.vms, alive, sockets))
  }

  /** One machine is changed and the devices it loses are struck from the index. */
  function With(h: Hydra, v: nat, vm: Vm): Hydra
    requires v in h.vms
  {
    h.(vms := h.vms[v := vm], usb := h.usb - (h.vms[v].usb.Keys - vm.usb.Keys))
  }

  function Given(h: Hydra, v: nat, device: string, id: nat): Hydra
    requires v in h.vms
  {
    h.(vms := h.vms[v := h.vms[v].(usb := h.vms[v].usb[device := id])], usb := h.usb[device := v])
  }

  /** A start is asked for, of a machine that is not registered or no longer running.  One that fails in whatever way
      costs the registered machine its place. */
  function Launched(h: Hydra, v: nat, b: Bringup, w: StartWorld): Hydra {
    var up := Brought(h, b);
    var (vm, r) := Started(FRESH, w);
    if r == Up then up.(vms := up.vms[v := vm]) else up.(vms := up.vms - {v})
  }

  /** The events that concern one registered machine and give it no device. */
  predicate Single(e: Event) {
    e.Exits? || e.Sleeps? || e.Stops? || e.Rouses? || e.Removes? || e.Cleans?
  }

  function Changed(vm: Vm, e: Event): Vm
    requires Single(e)
  {
    match e
    case Exits(_, pid) => ProcessEnded(vm, pid)
    case Sleeps(_, sleep, signalled) => Slept(vm, sleep, signalled).0
    case Stops(_, force, w) => if force then ForceStopped(vm) else SoftStopped(vm, w).0
    case Rouses(_, w) => Started(vm, w).0
    case Removes(_, device) => if vm.proc.Some? then vm.(usb := vm.usb - {device}) else vm
    case Cleans(_, gone) => if vm.proc.Some? then vm.(usb := vm.usb - gone) else vm
  }

  function Served(h: Hydra, e: Event): Hydra {
    match e
    case Ticks(b, alive, sockets) => Ticked(h, b, alive, sockets)
    case Launches(v, b, w) => Launched(h, v, b, w)
    case Adds(v, device, id) =>
      if v in h.vms && h.vms[v].proc.Some? && device !in h.vms[v].usb && device !in h.usb
         && IsNext(h.vms[v].usb, id) then
        Given(h, v, device, id)
      else h
    case Shutdown => Shut(h)
    case _ => if e.v in h.vms then With(h, e.v, Changed(h.vms[e.v], e)) else h
  }

  // ---- the manager as the source has it --------------------------------------------------

  class HydraServer {
    const devices: Devices
    var vms: map<nat, VM>
    var running: bool

    ghost predicate Valid()
      reads this, vms.Values, devices
    {
      forall v :: v in vms ==> vms[v].vmid == v && vms[v].Booked(devices)
    }

    ghost function Machines(): map<nat, Vm>
      reads this, vms.Values
    {
      map v | v in vms :: vms[v].View()
    }

    ghost function View(): Hydra
      reads this, vms.Values, devices
    {
      Hydra(Machines(), devices.usb, running)
    }

    constructor ()
      ensures Valid() && View() == Hydra(map[], map[], false) && fresh(devices)
    {
      devices := new Devices();
      vms, running := map[], false;
    }

    /** One machine has changed, and the index has lost the devices that the machine has lost. */
    twostate lemma OneChanged(v: nat)
      requires v in vms && vms == old(vms) && running == old(running) && old(Valid())
      requires forall u :: u in vms && u != v ==> vms[u].View() == old(vms[u].View())
      requires vms[v].usb.Keys <= old(vms[v].usb).Keys
      requires devices.usb == old(devices.usb) - (old(vms[v].usb).Keys - vms[v].usb.Keys)
      ensures Valid() && View() == With(old(View()), v, vms[v].View())
    {
      assert Machines() == old(Machines())[v := vms[v].View()];
      forall u | u in vms
        ensures vms[u].Booked(devices)
      {
        assert old(vms[u].Booked(devices)) && old(vms[v].Booked(devices));
        if u != v {
          assert vms[u].View().usb == old(vms[u].View()).usb;
        }
      }
    }

    /** `stop`. */
    method Stop()
      requires Valid()
      modifies this, vms.Values, devices
      ensures Valid() && View() == Shut(old(View()))
      ensures forall v :: v in old(vms) ==> old(vms)[v].View() == ForceStopped(old(vms[v].View()))
    {
      hide ForceStopped;
      var todo := vms.Keys;
      while todo != {}
        invariant todo <= vms.Keys && vms == old(vms) && Valid()
        invariant forall v :: v in vms ==>
          vms[v].View() == if v in todo then old(vms[v].View()) else ForceStopped(old(vms[v].View()))
        decreases todo
      {
        var v :| v in todo;
        label Before:
        var ok := vms[v].Stop(devices, true, StopWorld(false, false, false, false));
        OneChanged@Before(v);
        todo := todo - {v};
      }
      vms := map[];
      devices.usb := map[];
      running := false;
    }

    /** `start`; the outcome of its many steps is `b`. */
    method Start(b: Bringup)
      requires Valid()
      modifies this, vms.Values, devices
      ensures Valid() && View() == Brought(old(View()), b)
      ensures vms == old(vms) || vms == map[]
    {
      if running {
        return;
      }
      match b
      case Came => running := true;
      case Refused =>
      case Undone => Stop();
    }

    /** `thread`. */
    method Thread(b: Bringup, alive: nat -> bool, sockets: nat -> bool)
      requires Valid()
      modifies this, vms.Values, devices
      ensures Valid() && View() == Ticked(old(View()), b, alive, sockets)
    {
      assert vms == map[] <==> Machines() == map[] by {
        assert Machines().Keys == vms.Keys;
      }
      if !running {
        if vms == map[] {
          return;
        }
        Start(b);
        if running {
          return;
        }
        vms := map[];
        assert Machines() == map[];
        return;
      }
      if vms == map[] {
        Stop();
        return;
      }
      ThreadAll(alive, sockets);
    }

    method ThreadAll(alive: nat -> bool, sockets: nat -> bool)
      requires Valid()
      modifies this`vms, vms.Values, devices
      ensures Valid()
      ensures Machines() == Survivors(old(Machines()), alive, sockets)
      ensures devices.usb == old(devices.usb) - Freed(old(Machines()), alive, sockets)
    {
      hide Midway, Freed, Survivors, Survives, Threaded;
      ghost var before := Machines();
      var todo := vms.Keys;
      assert before.Keys == todo;
      MidwayEnds(before, alive, sockets);
      FreedNone(before, devices.usb, alive, sockets);
      while todo != {}
        invariant Valid() && todo <= vms.Keys <= old(vms).Keys && forall v :: v in vms ==> vms[v] == old(vms)[v]
        invariant Machines() == Midway(before, todo, alive, sockets)
        invariant devices.usb == old(devices.usb) - Freed(before - todo, alive, sockets)
        decreases todo
      {
        var v :| v in todo;
        FreedMore(before, todo, v, alive, sockets);
        MidwayMore(before, todo, v, alive, sockets);
        TakeTwice(old(devices.usb), Freed(before - todo, alive, sockets), Lost(before[v], alive(v), sockets(v)));
        ThreadOne(v, alive(v), sockets(v));
        todo := todo - {v};
      }
      assert before - todo == before;
    }

    /** A machine's part of the tick; it is dropped when it has stopped. */
    method ThreadOne(v: nat, alive: bool, sockets: bool)
      requires Valid() && v in vms
      modifies this`vms, vms[v], devices
      ensures Valid()
      ensures vms == if Survives(old(Machines())[v], alive, sockets) then old(vms) else old(vms) - {v}
      ensures Machines() == if Survives(old(Machines())[v], alive, sockets)
                            then old(Machines())[v := Threaded(old(Machines())[v], alive, sockets)]
                            else old(Machines()) - {v}
      ensures devices.usb == old(devices.usb) - Lost(old(Machines())[v], alive, sockets)
    {
      hide Threaded;
      var x := vms[v];
      x.Thread(devices, alive, sockets);
      OneChanged(v);
      if x.state >= STOPPED {
        Unregister(v);
      }
    }

    /** `hook`, when a machine is to be started that is not registered, or registered but not running. */
    method HookStart(v: nat, b: Bringup, w: StartWorld) returns (r: StartResult)
      requires Valid()
      modifies this, vms.Values, devices
      ensures Valid() && View() == Launched(old(View()), v, b, w)
      ensures r == Started(FRESH, w).1
    {
      hide Started, Brought;
      StartedHasNoDevices(w);
      var x := new VM(v);
      Start(b);
      r := x.Start(w);
      assert View() == Brought(old(View()), b);
      if r == Up {
        Register(v, x);
      } else {
        Unregister(v);
      }
    }

    method Register(v: nat, x: VM)
      requires Valid() && x.vmid == v && x.usb == map[]
      modifies this`vms
      ensures Valid() && View() == old(View()).(vms := old(Machines())[v := x.View()])
    {
      vms := vms[v := x];
    }

    method Unregister(v: nat)
      requires Valid()
      modifies this`vms
      ensures vms == old(vms) - {v} && Valid() && View() == old(View()).(vms := old(Machines()) - {v})
    {
      vms := vms - {v};
    }

    /** `hook` turns down every other request for a machine that is not running. */
    predicate IsRunning(v: nat, alive: bool)
      requires v in vms
      reads this, vms[v]
    {
      vms[v].proc.Some? && alive && vms[v].state != STOPPED
    }

    /** `hook`, when a machine is to be stopped. */
    method HookStop(v: nat, force: bool, w: StopWorld) returns (ok: bool)
      requires Valid() && v in vms
      modifies vms[v], devices
      ensures Valid()
      ensures View() == if old(IsRunning(v, w.alive)) then Served(old(View()), Stops(v, force, w)) else old(View())
      ensures !old(IsRunning(v, w.alive)) ==> !ok
    {
      hide ForceStopped, SoftStopped;
      if !IsRunning(v, w.alive) {
        return false;
      }
      ok := vms[v].Stop(devices, force, w);
      OneChanged(v);
    }

    /** The end of a soft stop's grace period. */
    method GraceOver(v: nat)
      requires Valid() && v in vms
      modifies vms[v], devices
      ensures Valid() && View() == Served(old(View()), Stops(v, true, StopWorld(false, false, false, false)))
    {
      hide ForceStopped;
      var ok := vms[v].Stop(devices, true, StopWorld(false, false, false, false));
      OneChanged(v);
    }

    /** `hook`, when a device is to be given to a machine. */
    method HookUsbAdd(v: nat, device: string, found: bool, alive: bool, answered: bool) returns (id: Option<nat>)
      requires Valid() && v in vms
      modifies vms[v], devices
      ensures Valid()
      ensures View() == if id.Some? then Served(old(View()), Adds(v, device, id.value)) else old(View())
      ensures !old(IsRunning(v, alive)) ==> id.None?
    {
      hide IsNext;
      if !IsRunning(v, alive) {
        return None;
      }
      id := vms[v].UsbAdd(devices, device, found, alive, answered);
      if id.None? {
        assert Machines() == old(Machines());
        return;
      }
      assert Machines() == old(Machines())[v := vms[v].View()];
      assert View() == Given(old(View()), v, device, id.value);
    }

    /** `hook`, when a machine's devices are to be taken from it; `gone` are those that went. */
    method HookUsbClean(v: nat, alive: bool, refused: string -> bool) returns (ok: bool, ghost gone: set<string>)
      requires Valid() && v in vms
      modifies vms[v], devices
      ensures Valid() && View() == Served(old(View()), Cleans(v, gone))
      ensures gone <= old(vms[v].usb).Keys && (ok ==> vms[v].usb == map[])
      ensures !old(IsRunning(v, alive)) ==> !ok && gone == {}
    {
      if !IsRunning(v, alive) {
        gone := {};
        assert vms[v].usb - gone == vms[v].usb;
        OneChanged(v);
        return false, gone;
      }
      ok := vms[v].UsbClean(devices, alive, refused);
      gone := old(vms[v].usb).Keys - vms[v].usb.Keys;
      assert vms[v].usb == old(vms[v].usb) - gone;
      OneChanged(v);
    }
  }

  lemma MidwayMore(vms: map<nat, Vm>, todo: set<nat>, v: nat, alive: nat -> bool, sockets: nat -> bool)
    requires v in vms && v in todo
    ensures v in Midway(vms, todo, alive, sockets) && Midway(vms, todo, alive, sockets)[v] == vms[v]
    ensures Midway(vms, todo - {v}, alive, sockets) ==
            if Survives(vms[v], alive(v), sockets(v))
            then Midway(vms, todo, alive, sockets)[v := Threaded(vms[v], alive(v), sockets(v))]
            else Midway(vms, todo, alive, sockets) - {v}
  {
  }

  lemma MidwayEnds(vms: map<nat, Vm>, alive: nat -> bool, sockets: nat -> bool)
    ensures Midway(vms, vms.Keys, alive, sockets) == vms
    ensures Midway(vms, {}, alive, sockets) == Survivors(vms, alive, sockets)
  {}

  lemma FreedNone(vms: map<nat, Vm>, usb: Index, alive: nat -> bool, sockets: nat -> bool)
    ensures usb - Freed(vms - vms.Keys, alive, sockets) == usb
  {}

  lemma StartedHasNoDevices(w: StartWorld)
    ensures Started(FRESH, w).0.usb == map[]
  {}

  lemma FreedMore(vms: map<nat, Vm>, todo: set<nat>, v: nat, alive: nat -> bool, sockets: nat -> bool)
    requires v in vms && v in todo
    ensures Freed(vms - (todo - {v}), alive, sockets)
         == Freed(vms - todo, alive, sockets) + Lost(vms[v], alive(v), sockets(v))
  {
    var less, more := vms - todo, vms - (todo - {v});
    forall k | k in Freed(more, alive, sockets)
      ensures k in Freed(less, alive, sockets) + Lost(vms[v], alive(v), sockets(v))
    {
      var u :| u in more && k in Lost(more[u], alive(u), sockets(u));
      if u != v {
        FreedHas(less, alive, sockets, u, k);
      }
    }
    forall k | k in Freed(less, alive, sockets) + Lost(vms[v], alive(v), sockets(v))
      ensures k in Freed(more, alive, sockets)
    {
      if k in Lost(vms[v], alive(v), sockets(v)) {
        FreedHas(more, alive, sockets, v, k);
      } else {
        var u :| u in less && k in Lost(less[u], alive(u), sockets(u));
        FreedHas(more, alive, sockets, u, k);
      }
    }
  }

  lemma TakeTwice(usb: Index, a: set<string>, b: set<string>)
    ensures usb - a - b == usb - (a + b)
  {
  }

  lemma FreedHas(vms: map<nat, Vm>, alive: nat -> bool, sockets: nat -> bool, v: nat, k: string)
    requires v in vms && k in Lost(vms[v], alive(v), sockets(v))
    ensures k in Freed(vms, alive, sockets)
  {
  }

  // ---- who owns which device -------------------------------------------------------------

  /** The index and the machines' own books agree, so no device belongs to two machines. */
  predicate Agree(h: Hydra) {
    && (forall v, k :: v in h.vms && k in h.vms[v].usb ==> k in h.usb && h.usb[k] == v)
    && (forall k :: k in h.usb ==> h.usb[k] in h.vms && k in h.vms[h.usb[k]].usb)
  }

  /** The ids of a machine's devices are positive and distinct. */
  predicate IdsDiffer(vm: Vm) {
    && (forall k :: k in vm.usb ==> vm.usb[k] > 0)
    && (forall k, l :: k in vm.usb && l in vm.usb && vm.usb[k] == vm.usb[l] ==> k == l)
  }

  predicate NoDevices(h: Hydra) {
    forall v :: v in h.vms ==> h.vms[v].usb == map[]
  }

  /** No machine that has devices is dropped or replaced without having been stopped: bringing up the bridge is not
      refused at a tick while there is one, a tick finds none stopped with devices, and no start, successful or not,
      is made in the place of one. */
  predicate Orderly(h: Hydra, e: Event) {
    match e
    case Ticks(b, _, _) =>
      if h.running then forall v :: v in h.vms && h.vms[v].state >= STOPPED ==> h.vms[v].usb == map[]
      else b == Refused ==> NoDevices(h)
    case Launches(v, b, w) =>
      var up := Brought(h, b);
      v in up.vms ==> up.vms[v].usb == map[]
    case _ => true
  }

  lemma WithAgrees(h: Hydra, v: nat, vm: Vm)
    requires Agree(h) && v in h.vms && vm.usb.Keys <= h.vms[v].usb.Keys
    ensures Agree(With(h, v, vm))
  {
    var t := With(h, v, vm);
    forall k | k in t.usb
      ensures t.usb[k] in t.vms && k in t.vms[t.usb[k]].usb
    {
      assert k in h.usb && k in h.vms[h.usb[k]].usb;
    }
    forall u, k | u in t.vms && k in t.vms[u].usb
      ensures k in t.usb && t.usb[k] == u
    {
      assert k in h.vms[u].usb && k in h.usb && h.usb[k] == u;
    }
  }

  lemma DropAgrees(h: Hydra, v: nat)
    requires Agree(h) && v in h.vms
    ensures Agree(h.(vms := h.vms - {v})) <==> h.vms[v].usb == map[]
  {
    if h.vms[v].usb != map[] {
      var k :| k in h.vms[v].usb;
      assert h.usb[k] !in h.vms - {v};
    }
  }

  lemma ReplaceAgrees(h: Hydra, v: nat, vm: Vm)
    requires Agree(h) && vm.usb == map[]
    ensures Agree(h.(vms := h.vms[v := vm])) <==> (v in h.vms ==> h.vms[v].usb == map[])
  {
    if v in h.vms && h.vms[v].usb != map[] {
      var k :| k in h.vms[v].usb;
      assert h.usb[k] == v;
    }
  }

  lemma ForgetAgrees(h: Hydra)
    requires Agree(h)
    ensures Agree(h.(vms := map[])) <==> NoDevices(h)
  {
    if h.usb != map[] {
      var k :| k in h.usb;
      assert k in h.vms[h.usb[k]].usb;
      assert h.vms[h.usb[k]].usb != map[] && h.(vms := map[]).usb[k] !in h.(vms := map[]).vms;
    }
    if !NoDevices(h) {
      var v :| v in h.vms && h.vms[v].usb != map[];
      var k :| k in h.vms[v].usb;
      assert k in h.usb;
    }
  }

  lemma FreedAreOfTheStopped(vms: map<nat, Vm>, alive: nat -> bool, sockets: nat -> bool, v: nat, k: string)
    requires v in vms && k in vms[v].usb
    requires forall u :: u in vms && k in vms[u].usb ==> u == v
    ensures k in Freed(vms, alive, sockets) <==>
              vms[v].state < STOPPED && v !in Survivors(vms, alive, sockets)
  {
    var t := Threaded(vms[v], alive(v), sockets(v));
    TickTakesAllOrNone(vms[v], alive(v), sockets(v));
    if k in Freed(vms, alive, sockets) {
      var u :| u in vms && k in Lost(vms[u], alive(u), sockets(u));
      assert u == v;
    }
    if t.usb == map[] {
      assert k in Lost(vms[v], alive(v), sockets(v));
    }
  }

  /** The tick takes from the index the devices of the machines that it stops. */
  lemma WhatIsFreed(h: Hydra, alive: nat -> bool, sockets: nat -> bool)
    requires Agree(h)
    ensures var vms, freed := Survivors(h.vms, alive, sockets), Freed(h.vms, alive, sockets);
            && (forall k :: k in h.usb ==> (k in freed <==> h.vms[h.usb[k]].state < STOPPED && h.usb[k] !in vms))
            && (forall v :: v in vms ==> v in h.vms && vms[v].usb == h.vms[v].usb && h.vms[v].state < STOPPED)
  {
    forall k | k in h.usb
      ensures k in Freed(h.vms, alive, sockets) <==>
              h.vms[h.usb[k]].state < STOPPED && h.usb[k] !in Survivors(h.vms, alive, sockets)
    {
      FreedAreOfTheStopped(h.vms, alive, sockets, h.usb[k], k);
    }
    forall v | v in Survivors(h.vms, alive, sockets)
      ensures Survivors(h.vms, alive, sockets)[v].usb == h.vms[v].usb && h.vms[v].state < STOPPED
    {
      TickTakesAllOrNone(h.vms[v], alive(v), sockets(v));
    }
  }

  /** Machines of which some are kept with their devices, and the rest dropped; `freed` are the devices of those
      dropped that were not stopped before. */
  lemma CullAgrees(h: Hydra, vms: map<nat, Vm>, freed: set<string>)
    requires Agree(h)
    requires forall k :: k in h.usb ==> (k in freed <==> h.vms[h.usb[k]].state < STOPPED && h.usb[k] !in vms)
    requires forall v :: v in vms ==> v in h.vms && vms[v].usb == h.vms[v].usb && h.vms[v].state < STOPPED
    ensures Agree(h.(vms := vms, usb := h.usb - freed)) <==>
            forall v :: v in h.vms && h.vms[v].state >= STOPPED ==> h.vms[v].usb == map[]
  {
    forall v | v in h.vms && h.vms[v].state >= STOPPED && h.vms[v].usb != map[]
      ensures exists k :: k in h.usb - freed && h.usb[k] !in vms
    {
      var k :| k in h.vms[v].usb;
      assert k in h.usb - freed;
    }
  }

  lemma ChangedHasNoMore(vm: Vm, e: Event)
    requires Single(e)
    ensures var t := Changed(vm, e); t.usb.Keys <= vm.usb.Keys && forall k :: k in t.usb ==> t.usb[k] == vm.usb[k]
  {
  }

  lemma LaunchAgrees(h: Hydra, v: nat, b: Bringup, w: StartWorld)
    requires Agree(h)
    ensures Agree(Launched(h, v, b, w)) <==> Orderly(h, Launches(v, b, w))
  {
    var up := Brought(h, b);
    ReplaceAgrees(up, v, Started(FRESH, w).0);
    if v in up.vms {
      DropAgrees(up, v);
    } else {
      assert up.vms - {v} == up.vms;
    }
  }

  lemma AddAgrees(h: Hydra, e: Event)
    requires Agree(h) && e.Adds?
    ensures Agree(Served(h, e))
  {
  }

  lemma AnyTickAgrees(h: Hydra, e: Event)
    requires Agree(h) && e.Ticks?
    ensures Agree(Served(h, e)) <==> Orderly(h, e)
  {
    if h.running {
      WhatIsFreed(h, e.alive, e.sockets);
      CullAgrees(h, Survivors(h.vms, e.alive, e.sockets), Freed(h.vms, e.alive, e.sockets));
    } else {
      ForgetAgrees(h);
    }
  }

  /** One event keeps the index in agreement exactly when it is orderly. */
  lemma AgreementKept(h: Hydra, e: Event)
    requires Agree(h)
    ensures Agree(Served(h, e)) <==> Orderly(h, e)
  {
    match e
    case Ticks(_, _, _) => AnyTickAgrees(h, e);
    case Launches(v, b, w) => LaunchAgrees(h, v, b, w);
    case Adds(_, _, _) => AddAgrees(h, e);
    case Shutdown =>
    case _ =>
      if e.v in h.vms {
        ChangedHasNoMore(h.vms[e.v], e);
        WithAgrees(h, e.v, Changed(h.vms[e.v], e));
      }
  }

  /** A request for one machine, and the end of its process, leave all the others alone, and the manager as it is. */
  lemma OthersAreLeft(h: Hydra, e: Event, u: nat)
    requires (Single(e) || e.Adds?) && u != e.v
    ensures var t := Served(h, e);
      && (u in t.vms <==> u in h.vms) && (u in h.vms ==> t.vms[u] == h.vms[u])
      && (e.v in t.vms <==> e.v in h.vms) && t.running == h.running
  {
  }

  /** A start registers the new machine, running or waiting for its sockets, when its process could be launched, and
      otherwise leaves none; it brings up the bridge when that is down, and other machines stay unless that is
      undone. */
  lemma LaunchDoes(h: Hydra, v: nat, b: Bringup, w: StartWorld)
    ensures var t := Served(h, Launches(v, b, w));
      && (v in t.vms <==> w.built && w.launched)
      && (v in t.vms ==>
            && t.vms[v].state == (if w.up && w.sockets then RUNNING else WAITING)
            && t.vms[v].proc == Some(0) && t.vms[v].usb == map[])
      && (t.running <==> h.running || b == Came)
      && t.vms - {v} == (if !h.running && b == Undone then map[] else h.vms - {v})
      && t.usb == if !h.running && b == Undone then map[] else h.usb
  {
  }

  /** A tick shuts down a manager without machines, brings up one that has machines and is down, and drops all
      machines when that is refused. */
  lemma TickMinds(h: Hydra, b: Bringup, alive: nat -> bool, sockets: nat -> bool)
    ensures var t := Served(h, Ticks(b, alive, sockets));
      && (t.running <==> h.vms != map[] && (h.running || b == Came))
      && (h.vms == map[] ==> t == if h.running then Hydra(map[], map[], false) else h)
      && (!h.running && h.vms != map[] ==>
            t == match b case Came => h.(running := true) case Refused => h.(vms := map[])
                         case Undone => Hydra(map[], map[], false))
  {
  }

  /** What a tick does to each machine of a running manager: it has its own part of the tick, and is dropped exactly
      if it is stopped after that; its devices leave the index exactly when it loses them. */
  lemma TickReaches(h: Hydra, b: Bringup, alive: nat -> bool, sockets: nat -> bool, v: nat)
    requires h.running && v in h.vms
    ensures var t, vm := Served(h, Ticks(b, alive, sockets)), Threaded(h.vms[v], alive(v), sockets(v));
      && (v in t.vms <==> vm.state < STOPPED) && (v in t.vms ==> t.vms[v] == vm)
      && (Agree(h) ==> forall k :: k in h.vms[v].usb ==> (k in t.usb <==> k in vm.usb))
  {
    if Agree(h) {
      WhatIsFreed(h, alive, sockets);
      TickTakesAllOrNone(h.vms[v], alive(v), sockets(v));
    }
  }

  /** A device is given when it is free and the machine is there, and to that machine only. */
  lemma AddDoes(h: Hydra, v: nat, device: string, id: nat)
    requires v in h.vms && h.vms[v].proc.Some? && device !in h.usb && device !in h.vms[v].usb
    requires IsNext(h.vms[v].usb, id)
    ensures var t := Served(h, Adds(v, device, id));
      t.usb == h.usb[device := v] && t.vms[v].usb == h.vms[v].usb[device := id]
  {
  }

  // ---- machines live the lives of machines -----------------------------------------------

  /** What an event means for machine `v`. */
  function OpsFor(h: Hydra, e: Event, v: nat): seq<Op> {
    match e
    case Ticks(_, alive, sockets) => if h.running then [Tick(alive(v), sockets(v))] else []
    case Launches(_, _, _) => []
    case Shutdown => []
    case _ =>
      if e.v != v then []
      else
        match e
        case Exits(_, pid) => [Exit(pid)]
        case Sleeps(_, sleep, signalled) => [Sleep(sleep, signalled)]
        case Stops(_, force, w) => [if force then ForceStop else SoftStop(w)]
        case Rouses(_, w) => [Op.Start(w)]
        case Adds(_, device, id) => if device in h.usb then [] else [Give(device, id)]
        case Removes(_, device) => [Take({device})]
        case Cleans(_, gone) => [Take(gone)]
  }

  /** A machine that stays registered has done just that, and a launched one has been started from scratch. */
  lemma EventsAreOperations(h: Hydra, e: Event, v: nat)
    requires v in Served(h, e).vms
    ensures Served(h, e).vms[v] ==
      if e.Launches? && e.v == v then Machine.Run(FRESH, [Op.Start(e.start)])
      else if v in h.vms then Machine.Run(h.vms[v], OpsFor(h, e, v)) else FRESH
    ensures !(e.Launches? && e.v == v) ==> v in h.vms
  {
    if e.Launches? && e.v == v {
      OneOperation(FRESH, Op.Start(e.start));
    } else if OpsFor(h, e, v) != [] {
      OneOperation(h.vms[v], OpsFor(h, e, v)[0]);
      assert OpsFor(h, e, v) == [OpsFor(h, e, v)[0]];
    }
  }

  /** The machine has come about from a fresh one. */
  ghost predicate Lived(vm: Vm) {
    exists ops :: vm == Machine.Run(FRESH, ops)
  }

  ghost predicate AllLived(h: Hydra) {
    forall v :: v in h.vms ==> Lived(h.vms[v])
  }

  lemma {:induction false} LivesOn(vm: Vm, a: seq<Op>, b: seq<Op>)
    ensures Machine.Run(Machine.Run(vm, a), b) == Machine.Run(vm, a + b)
    decreases a
  {
    if a == [] {
      assert [] + b == b;
    } else {
      LivesOn(Machine.Applied(vm, a[0]), a[1..], b);
      assert (a + b)[1..] == a[1..] + b;
    }
  }

  /** Over every run of a manager, each machine registered is one that a run of its own, from a fresh one, ends in:
      so what is proved of all runs of a machine holds of it. */
  lemma {:induction false} MachinesHaveLived(h: Hydra, events: seq<Event>)
    requires AllLived(h)
    ensures AllLived(Run(h, events))
    decreases events
  {
    if events != [] {
      var t := Served(h, events[0]);
      forall v | v in t.vms
        ensures Lived(t.vms[v])
      {
        EventsAreOperations(h, events[0], v);
        if !(events[0].Launches? && events[0].v == v) {
          var ops :| h.vms[v] == Machine.Run(FRESH, ops);
          LivesOn(FRESH, ops, OpsFor(h, events[0], v));
        }
      }
      MachinesHaveLived(t, events[1..]);
    }
  }

  lemma OneOperation(vm: Vm, op: Op)
    ensures Machine.Run(vm, [op]) == Machine.Applied(vm, op)
  {
    assert [op][1..] == [];
    assert Machine.Run(vm, [op]) == Machine.Run(Applied(vm, op), []);
  }

  predicate AllIdsDiffer(h: Hydra) {
    forall v :: v in h.vms ==> IdsDiffer(h.vms[v])
  }

  lemma FewerIdsDiffer(vm: Vm, t: Vm)
    requires IdsDiffer(vm) && t.usb.Keys <= vm.usb.Keys && forall k :: k in t.usb ==> t.usb[k] == vm.usb[k]
    ensures IdsDiffer(t)
  {
  }

  lemma NextIdDiffers(vm: Vm, device: string, id: nat)
    requires IdsDiffer(vm) && device !in vm.usb && IsNext(vm.usb, id)
    ensures IdsDiffer(vm.(usb := vm.usb[device := id]))
  {
  }

  lemma TickKeepsIds(h: Hydra, b: Bringup, alive: nat -> bool, sockets: nat -> bool)
    requires AllIdsDiffer(h)
    ensures AllIdsDiffer(Ticked(h, b, alive, sockets))
  {
    forall v | v in h.vms
      ensures IdsDiffer(Threaded(h.vms[v], alive(v), sockets(v)))
    {
      TickTakesAllOrNone(h.vms[v], alive(v), sockets(v));
      FewerIdsDiffer(h.vms[v], Threaded(h.vms[v], alive(v), sockets(v)));
    }
  }

  lemma IdsKept(h: Hydra, e: Event)
    requires AllIdsDiffer(h)
    ensures AllIdsDiffer(Served(h, e))
  {
    match e
    case Ticks(b, alive, sockets) => TickKeepsIds(h, b, alive, sockets);
    case Launches(_, _, _) =>
    case Adds(v, device, id) =>
      if v in h.vms && device !in h.vms[v].usb && IsNext(h.vms[v].usb, id) {
        NextIdDiffers(h.vms[v], device, id);
      }
    case Shutdown =>
    case _ =>
      if e.v in h.vms {
        ChangedHasNoMore(h.vms[e.v], e);
        FewerIdsDiffer(h.vms[e.v], Changed(h.vms[e.v], e));
      }
  }

  function Run(h: Hydra, events: seq<Event>): Hydra
    decreases events
  {
    if events == [] then h else Run(Served(h, events[0]), events[1..])
  }

  predicate AllOrderly(h: Hydra, events: seq<Event>)
    decreases events
  {
    events == [] || (Orderly(h, events[0]) && AllOrderly(Served(h, events[0]), events[1..]))
  }

  /** Over every orderly run, with cleans that stop half-way anywhere, each device belongs to the one machine that
      the index names, and ids within a machine are positive and distinct. */
  lemma {:induction false} OwnershipIsKept(h: Hydra, events: seq<Event>)
    requires Agree(h) && AllIdsDiffer(h) && AllOrderly(h, events)
    ensures Agree(Run(h, events)) && AllIdsDiffer(Run(h, events))
    decreases events
  {
    if events != [] {
      AgreementKept(h, events[0]);
      IdsKept(h, events[0]);
      OwnershipIsKept(Served(h, events[0]), events[1..]);
    }
  }

  // ---- the tick --------------------------------------------------------------------------

  predicate IsLive(vm: Vm) {
    vm.state in {WAITING, RUNNING, SLEEPING}
  }

  predicate AllLive(h: Hydra) {
    forall v :: v in h.vms ==> IsLive(h.vms[v])
  }

  predicate AllAlright(h: Hydra) {
    forall v :: v in h.vms ==> Alright(h.vms[v])
  }

  /** After a tick every machine still registered is waiting, running or sleeping, exactly unless the tick had to bring
      up the bridge first and some machine was not: that tick looks at no machine. */
  lemma TickLeavesTheLive(h: Hydra, b: Bringup, alive: nat -> bool, sockets: nat -> bool)
    requires AllAlright(h)
    ensures AllLive(Ticked(h, b, alive, sockets)) <==> h.running || b != Came || AllLive(h)
  {
  }

  lemma ChangedAlright(vm: Vm, e: Event)
    requires Alright(vm) && Single(e)
    ensures Alright(Changed(vm, e))
  {
  }

  lemma TickedAlright(h: Hydra, b: Bringup, alive: nat -> bool, sockets: nat -> bool)
    requires AllAlright(h)
    ensures AllAlright(Ticked(h, b, alive, sockets))
  {
    forall v | v in h.vms
      ensures Alright(Threaded(h.vms[v], alive(v), sockets(v)))
    {
      AppliedAlright(h.vms[v], Op.Tick(alive(v), sockets(v)));
    }
  }

  lemma ServedAlright(h: Hydra, e: Event)
    requires AllAlright(h)
    ensures AllAlright(Served(h, e))
  {
    match e
    case Ticks(b, alive, sockets) => TickedAlright(h, b, alive, sockets);
    case Launches(_, _, w) => AppliedAlright(FRESH, Op.Start(w));
    case Adds(_, _, _) =>
    case Shutdown =>
    case _ =>
      if e.v in h.vms {
        ChangedAlright(h.vms[e.v], e);
      }
  }

  /** A machine that is registered stays alright. */
  lemma {:induction false} MachinesStayAlright(h: Hydra, events: seq<Event>)
    requires AllAlright(h)
    ensures AllAlright(Run(h, events))
    decreases events
  {
    if events != [] {
      ServedAlright(h, events[0]);
      MachinesStayAlright(Served(h, events[0]), events[1..]);
    }
  }

  predicate DeadTick(e: Event, v: nat) {
    e.Ticks? && !e.alive(v)
  }

  /** A start of machine `v`. */
  predicate StartOf(e: Event, v: nat) {
    (e.Launches? || e.Rouses?) && e.v == v
  }

  predicate NoStart(events: seq<Event>, v: nat) {
    forall k :: 0 <= k < |events| ==> !StartOf(events[k], v)
  }

  predicate NeverAlive(events: seq<Event>, v: nat) {
    forall k :: 0 <= k < |events| && events[k].Ticks? ==> !events[k].alive(v)
  }

  function TickCount(events: seq<Event>): nat {
    if events == [] then 0 else (if events[0].Ticks? then 1 else 0) + TickCount(events[1..])
  }

  /** The machine is gone, or no longer waits. */
  predicate WaitsNoMore(h: Hydra, v: nat) {
    v in h.vms ==> h.vms[v].state != WAITING
  }

  lemma {:induction false} WaitsNeverAgain(h: Hydra, events: seq<Event>, v: nat)
    requires WaitsNoMore(h, v) && NoStart(events, v)
    ensures WaitsNoMore(Run(h, events), v)
    decreases events
  {
    if events != [] {
      assert !StartOf(events[0], v);
      WaitsNeverAgain(Served(h, events[0]), events[1..], v);
    }
  }

  lemma WaitGoesOn(h: Hydra, e: Event, v: nat)
    requires h.running && v in h.vms && h.vms[v].state == WAITING && h.vms[v].wait < WAIT_TIME
    requires !StartOf(e, v) && (e.Ticks? ==> !e.alive(v))
    ensures var t := Served(h, e);
            WaitsNoMore(t, v) || (t.running && t.vms[v].wait == h.vms[v].wait + (if e.Ticks? then 1 else 0) < WAIT_TIME)
  {
  }

  /** Whatever happens to a running manager and its machines: a waiting machine whose process is never found running,
      and that is not started again, still waits only while its ticks make less than ten, each of which it has
      counted.  So it waits no more once they do. */
  lemma {:induction false} WaitingEndsInTime(h: Hydra, events: seq<Event>, v: nat)
    requires h.running && v in h.vms && h.vms[v].state == WAITING && h.vms[v].wait < WAIT_TIME
    requires NoStart(events, v) && NeverAlive(events, v)
    ensures var t := Run(h, events);
            WaitsNoMore(t, v) || t.vms[v].wait == h.vms[v].wait + TickCount(events) < WAIT_TIME
    decreases events
  {
    if events != [] {
      assert !StartOf(events[0], v);
      WaitGoesOn(h, events[0], v);
      var t := Served(h, events[0]);
      if WaitsNoMore(t, v) {
        WaitsNeverAgain(t, events[1..], v);
      } else {
        WaitingEndsInTime(t, events[1..], v);
      }
    }
  }

  lemma {:induction false} GoneStaysGone(h: Hydra, ticks: seq<Event>, v: nat)
    requires v !in h.vms && forall k :: 0 <= k < |ticks| ==> DeadTick(ticks[k], v)
    ensures v !in Run(h, ticks).vms
    decreases ticks
  {
    if ticks != [] {
      GoneStaysGone(Served(h, ticks[0]), ticks[1..], v);
    }
  }

  /** While the manager is running, a waiting machine whose process is not running is dropped with the tick that makes
      ten, and not before, whatever becomes of the other machines. */
  lemma {:induction false} WaitingMachineIsDropped(h: Hydra, ticks: seq<Event>, v: nat)
    requires h.running && v in h.vms && h.vms[v].state == WAITING && h.vms[v].wait < WAIT_TIME
    requires forall k :: 0 <= k < |ticks| ==> DeadTick(ticks[k], v)
    ensures v in Run(h, ticks).vms <==> h.vms[v].wait + |ticks| < WAIT_TIME
    decreases ticks
  {
    if ticks != [] {
      var next := Served(h, ticks[0]);
      if h.vms[v].wait + 1 < WAIT_TIME {
        assert next.vms[v] == h.vms[v].(wait := h.vms[v].wait + 1);
        WaitingMachineIsDropped(next, ticks[1..], v);
      } else {
        GoneStaysGone(next, ticks[1..], v);
      }
    }
  }

  // ---- runs that show the exceptions -----------------------------------------------------

  lemma RunTwo(h: Hydra, a: Event, b: Event)
    ensures Run(h, [a, b]) == Served(Served(h, a), b)
  {
    assert [a, b][1..] == [b] && [b][1..] == [];
    assert Run(Served(h, a), [b]) == Run(Served(Served(h, a), b), []);
  }

  lemma RunThree(h: Hydra, a: Event, b: Event, c: Event)
    ensures Run(h, [a, b, c]) == Served(Served(Served(h, a), b), c)
  {
    assert [a, b, c][1..] == [b, c];
    RunTwo(Served(h, a), b, c);
  }

  /** A machine with a device whose process has died is started again, and the launch fails: the machine is dropped,
      and the device stays booked for it. */
  lemma FailedLaunchBreaksTheIndex(v: nat, device: string, good: StartWorld, bad: StartWorld)
    requires good.built && good.launched && !(bad.built && bad.launched)
    ensures var events := [Launches(v, Came, good), Adds(v, device, 1), Launches(v, Came, bad)];
            var h := Run(Hydra(map[], map[], true), events);
            h.vms == map[] && h.usb == map[device := v] && !Agree(h)
  {
    var h, a, b, c :=
      Hydra(map[], map[], true), Launches(v, Came, good), Adds(v, device, 1), Launches(v, Came, bad);
    RunThree(h, a, b, c);
    var s := Served(h, a);
    assert s.vms == map[v := Started(FRESH, good).0];
    var t := Served(s, b);
    assert t.usb == map[device := v] && t.vms.Keys == {v};
    assert device in Served(t, c).usb;
  }

  /** A machine is started although the bridge does not come up, and its process ends.  The tick that brings up the
      bridge leaves it registered. */
  lemma BringingUpLooksAtNoMachine(v: nat, w: StartWorld, alive: nat -> bool, sockets: nat -> bool)
    requires w.built && w.launched && w.up && w.sockets
    ensures var events := [Launches(v, Refused, w), Exits(v, 0), Ticks(Came, alive, sockets)];
            var h := Run(Hydra(map[], map[], false), events);
            v in h.vms && h.vms[v].state == DONE
  {
    RunThree(Hydra(map[], map[], false), Launches(v, Refused, w), Exits(v, 0), Ticks(Came, alive, sockets));
  }
}
