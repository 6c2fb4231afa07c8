/** The backup module of the server, backup.py: one current job, the queue behind it, and the requests, hooks and
    messages that move them. */
module BackupServer {
  import opened Wrappers
  import opened Schedule
  import opened Queue
  import opened BackupJob

  /** A job and its plan. */
  datatype Slot = Slot(plan: Plan, job: Job)

  /** All the jobs ever made, the current one, the queue and the state file. */
  datatype Server = Server(queue: seq<Plan>, current: Option<nat>, slots: seq<Slot>, file: State)

  predicate Fits(s: Server) {
    s.current.Some? ==> s.current.value < |s.slots|
  }

  predicate Running(s: Server)
    requires Fits(s)
  {
    s.current.Some? && !s.slots[s.current.value].job.cancelled
  }

  /** What choosing a plan meets: whether the power allows it, the plans of the configuration, whether the state
      file can be read and written, the time, the plans that pass their checks, their schedules, whether the chosen
      backup starts, and what its first steps meet. */
  datatype Choice = Choice(
    power: bool, config: Option<seq<Plan>>, legible: bool, written: bool, now: int, passes: Plan -> bool,
    schedule: Plan -> Schedule, starts: bool, job: World)

  datatype Saving = Saving(legible: bool, written: bool, now: int)

  datatype Ask = Ask(path: string, force: bool, full: bool)

  /** What the server handles: an event of one of the jobs; a message forwarded by a job, of which it looks at the
      state and whether it is final; the hooks; and what users ask for. */
  datatype Input =
    | JobEvent(i: nat, e: Event)
    | Forwarded(state: nat, final: bool, w: World, saving: Saving, choice: Choice)
    | Shutdown(w: World, saving: Saving)
    | Pause(signalled: bool)
    | Unpause(signalled: bool)
    | Select(ask: Ask, choice: Choice)
    | Stop(path: string, w: World)
    | ClearState(removed: bool)

  function Found(s: Server, c: Choice): Moment {
    Moment(c.now, if c.legible then s.file else map[], c.passes)
  }

  function RunningId(s: Server): Option<string>
    requires Fits(s)
  {
    if Running(s) then Some(s.slots[s.current.value].plan.id) else None
  }

  /** The queue after the plans of the configuration have been added. */
  function Filled(s: Server, ask: Ask, c: Choice): seq<Plan>
    requires Fits(s) && c.config.Some?
  {
    AddedAll(s.queue, c.config.value, Found(s, c), ask.path, RunningId(s))
  }

  /** The backup of `p` is made and started; one that cannot be started is stopped and forgotten. */
  function Begin(s: Server, p: Plan, full: bool, c: Choice): Server {
    var state := if c.legible then s.file else map[];
    if !c.written then s
    else
      var job := if c.starts then Advanced(CREATED, c.job) else Stopped(CREATED, true, c.job.post);
      Server(s.queue, if c.starts then Some(|s.slots|) else None, s.slots + [Slot(p, job)],
             state[p.uuid := Begun(Entry(state, p.uuid), c.schedule(p), full).0])
  }

  /** The rest of `_select`, once the queue is filled. */
  function Picked(s: Server, ask: Ask, c: Choice): Server {
    var (n, rest) := Advance(s.queue, Found(s, c), Request(ask.path, ask.force));
    if n.Chosen? then Begin(s.(queue := rest), n.plan, ask.full, c) else s.(queue := rest)
  }

  /** `_select`. */
  function Selected(s: Server, ask: Ask, c: Choice): Server
    requires Fits(s)
  {
    if !c.power || (ask.path == "" && Running(s)) || c.config.None? || c.config.value == [] then s
    else
      var q := Filled(s, ask, c);
      if Running(s) || q == [] then s.(queue := q) else Picked(s.(queue := q), ask, c)
  }

  function OnJob(s: Server, i: nat, e: Event): Server
    requires i < |s.slots|
  {
    s.(slots := s.slots[i := s.slots[i].(job := Applied(s.slots[i].job, e))])
  }

  /** The current job's result is written to the state file, and the job dropped. */
  function Dropped(s: Server, saving: Saving): Server
    requires Fits(s) && s.current.Some?
  {
    var slot := s.slots[s.current.value];
    var save := if saving.written then Saved(saving.legible, saving.now, slot.job.state == ERROR) else Lost;
    s.(current := None, file := AfterSave(s.file, slot.plan.uuid, save))
  }

  /** What the server does with one input. */
  function Served(s: Server, input: Input): Server
    requires Fits(s)
  {
    match input
    case JobEvent(i, e) => if i < |s.slots| then OnJob(s, i, e) else s
    case Forwarded(state, final, w, saving, choice) =>
      if s.current.None? || state < ERROR then s
      else
        var t := OnJob(s, s.current.value, StopAsked(false, w));
        if !final then t
        else
          var u := Dropped(t, saving);
          if u.queue == [] then u else Selected(u, Ask("", false, false), choice)
    case Shutdown(w, saving) =>
      if Running(s) then Dropped(OnJob(s, s.current.value, StopAsked(false, w)), saving) else s
    case Pause(signalled) => if Running(s) then OnJob(s, s.current.value, Suspended(signalled)) else s
    case Unpause(signalled) => if Running(s) then OnJob(s, s.current.value, Resumed(signalled)) else s
    case Select(ask, choice) => Selected(s, ask, choice)
    case Stop(path, w) =>
      if !Running(s) then s
      else if path == "" || Matches(path, s.slots[s.current.value].plan) then
        OnJob(s, s.current.value, StopAsked(true, w))
      else
        var k := FirstMatch(s.queue, path);
        if k == |s.queue| then s else s.(queue := s.queue[..k] + s.queue[k + 1..])
    case ClearState(removed) => if Running(s) || !removed then s else s.(file := map[])
  }

  // ---- the server as the source has it ---------------------------------------------------

  class BackupServer {
    const queue: Queue
    const file: StateFile
    /** The jobs that the server made, of which the dispatcher still calls those with something to wait for. */
    var jobs: seq<Backup>
    var plans: seq<Plan>
    /** The position of `_current` among them. */
    var current: Option<nat>
    ghost var slots: seq<Slot>

    ghost predicate Valid()
      reads this, queue, jobs
    {
      && queue.Valid()
      && |jobs| == |plans| == |slots|
      && (forall i :: 0 <= i < |jobs| ==> slots[i] == Slot(plans[i], jobs[i].View()))
      && (forall i, j :: 0 <= i < j < |jobs| ==> jobs[i] != jobs[j])
      && (forall i :: 0 <= i < |jobs| ==> Good(slots[i].job) && Settled(slots[i].job))
      && (current.Some? ==> current.value < |jobs|)
    }

    ghost function View(): Server
      reads this, queue, file
    {
      Server(queue.entries, current, slots, file.plans)
    }

    constructor (plans: State)
      ensures Valid() && View() == Server([], None, [], plans) && fresh(queue) && fresh(file)
    {
      queue := new Queue();
      file := new StateFile(plans);
      jobs, this.plans, current, slots := [], [], None, [];
    }

    predicate IsRunning()
      requires Valid()
      reads this, queue, jobs, file
      ensures IsRunning() <==> Running(View())
    {
      current.Some? && !jobs[current.value].cancelled
    }

    /** The call of a job's `stop`. */
    method StopJob(i: nat, force: bool, w: World)
      requires Valid() && i < |jobs| && Possible(w)
      modifies this`slots, jobs[i]
      ensures Valid() && View() == OnJob(old(View()), i, StopAsked(force, w))
    {
      AppliedGood(jobs[i].View(), StopAsked(force, w));
      jobs[i].Stop(force, w);
      slots := slots[i := Slot(plans[i], jobs[i].View())];
    }

    /** The dispatcher finds a process of job `i` ended, or its timeout due. */
    method OnJobEvent(i: nat, e: Event)
      requires Valid() && i < |jobs| && (e.Ended? || e.TimedOut?) && EventPossible(e)
      modifies this`slots, jobs[i]
      ensures Valid() && View() == Served(old(View()), JobEvent(i, e))
    {
      AppliedGood(jobs[i].View(), e);
      if e.Ended? {
        jobs[i].ProcessEnded(e.pid, e.w);
      } else {
        jobs[i].StepTimeout(e.w);
      }
      slots := slots[i := Slot(plans[i], jobs[i].View())];
    }

    method SuspendJob(i: nat, signalled: bool)
      requires Valid() && i < |jobs|
      modifies this`slots, jobs[i]
      ensures Valid() && View() == OnJob(old(View()), i, Suspended(signalled))
    {
      jobs[i].Suspend(signalled);
      slots := slots[i := Slot(plans[i], jobs[i].View())];
    }

    method ResumeJob(i: nat, signalled: bool)
      requires Valid() && i < |jobs|
      modifies this`slots, jobs[i]
      ensures Valid() && View() == OnJob(old(View()), i, Resumed(signalled))
    {
      jobs[i].Resume(signalled);
      slots := slots[i := Slot(plans[i], jobs[i].View())];
    }

    /** The current job's `save`, after which it is dropped. */
    method SaveAndDrop(saving: Saving)
      requires Valid() && current.Some?
      modifies this`current, file
      ensures Valid() && View() == Dropped(old(View()), saving)
    {
      var i := current.value;
      var ok := file.Save(plans[i].uuid, saving.now, jobs[i].state == ERROR, saving.legible, saving.written);
      current := None;
    }

    /** `hook`, on shutdown. */
    method HookShutdown(w: World, saving: Saving)
      requires Valid() && Possible(w)
      modifies this, file, jobs
      ensures Valid() && View() == Served(old(View()), Shutdown(w, saving))
    {
      if !IsRunning() {
        return;
      }
      StopJob(current.value, false, w);
      SaveAndDrop(saving);
    }

    /** `hook` and `control`, when the running backup is to be suspended. */
    method HookPause(signalled: bool)
      requires Valid()
      modifies this, jobs
      ensures Valid() && View() == Served(old(View()), Pause(signalled))
    {
      if IsRunning() {
        SuspendJob(current.value, signalled);
      }
    }

    /** `hook` and `control`, when it is to go on. */
    method HookUnpause(signalled: bool)
      requires Valid()
      modifies this, jobs
      ensures Valid() && View() == Served(old(View()), Unpause(signalled))
    {
      if IsRunning() {
        ResumeJob(current.value, signalled);
      }
    }

    /** `control`, for a message that a job has forwarded. */
    method ControlForwarded(state: nat, final: bool, w: World, saving: Saving, c: Choice)
      requires Valid() && Possible(w) && Possible(c.job)
      modifies this, queue, file, jobs
      ensures Valid() && View() == Served(old(View()), Forwarded(state, final, w, saving, c))
    {
      if current.None? || state < ERROR {
        return;
      }
      StopJob(current.value, false, w);
      if !final {
        return;
      }
      SaveAndDrop(saving);
      if |queue.entries| == 0 {
        return;
      }
      SelectPlan(Ask("", false, false), c);
    }

    /** `control`, when a user asks to stop, and `_stop`. */
    method ControlStop(path: string, w: World)
      requires Valid() && Possible(w)
      modifies this, queue, jobs
      ensures Valid() && View() == Served(old(View()), Stop(path, w))
    {
      if !IsRunning() {
        return;
      }
      if path == "" || Matches(path, plans[current.value]) {
        StopJob(current.value, true, w);
      } else {
        var removal := queue.Remove(path);
      }
    }

    /** `control`, when a user asks to clear the state. */
    method ControlClear(removed: bool)
      requires Valid()
      modifies file
      ensures Valid() && View() == Served(old(View()), ClearState(removed))
    {
      if !IsRunning() && removed {
        file.plans := map[];
      }
    }

    /** `_select`. */
    method SelectPlan(ask: Ask, c: Choice)
      requires Valid() && Possible(c.job)
      modifies this, queue, file
      ensures Valid() && View() == Selected(old(View()), ask, c)
    {
      hide Picked;
      if !c.power || (ask.path == "" && IsRunning()) || c.config.None? {
        return;
      }
      var found := Moment(c.now, if c.legible then file.plans else map[], c.passes);
      var id := if IsRunning() then Some(plans[current.value].id) else None;
      var added := queue.AddPlans(c.config.value, found, ask.path, id);
      if added.None? || IsRunning() || |queue.entries| == 0 {
        return;
      }
      PickPlan(ask, c);
    }

    method PickPlan(ask: Ask, c: Choice)
      requires Valid() && Possible(c.job)
      modifies this, queue, file
      ensures Valid() && View() == Picked(old(View()), ask, c)
    {
      var found := Moment(c.now, if c.legible then file.plans else map[], c.passes);
      var n := queue.NextPlan(found, Request(ask.path, ask.force));
      if !n.Chosen? {
        return;
      }
      var incremental := file.Start(n.plan.uuid, c.schedule(n.plan), ask.full, c.legible, c.written);
      if incremental.None? {
        return;
      }
      StartJob(n.plan, c);
    }

    /** The making and starting of a `Backup` in `_select`. */
    method StartJob(p: Plan, c: Choice)
      requires Valid() && Possible(c.job)
      modifies this
      ensures Valid()
      ensures View() == old(View()).(
                current := if c.starts then Some(|old(slots)|) else None,
                slots := old(slots)
                  + [Slot(p, if c.starts then Advanced(CREATED, c.job) else Stopped(CREATED, true, c.job.post))])
    {
      hide Advanced, Stopped;
      var job := new Backup();
      if c.starts {
        AdvancedGood(CREATED, c.job);
        job.Next(c.job);
      } else {
        StoppedGood(CREATED, true, c.job.post);
        job.Stop(true, c.job);
      }
      Enlist(p, job);
      current := if c.starts then Some(|jobs| - 1) else None;
    }

    method Enlist(p: Plan, job: Backup)
      requires Valid() && job !in jobs && Good(job.View()) && Settled(job.View())
      modifies this`jobs, this`plans, this`slots
      ensures Valid() && |jobs| == |old(slots)| + 1
      ensures View() == old(View()).(slots := old(slots) + [Slot(p, job.View())])
    {
      hide Good, Settled;
      jobs, plans, slots := jobs + [job], plans + [p], slots + [Slot(p, job.View())];
    }
  }

  // ---- what every reachable server keeps -------------------------------------------------

  /** At most one job is running, and it is the current one; the queue holds distinct plans, and not the running
      one. */
  predicate Safe(s: Server) {
    && Fits(s)
    && (forall i :: 0 <= i < |s.slots| ==> Good(s.slots[i].job) && Settled(s.slots[i].job))
    && (forall i :: 0 <= i < |s.slots| && !s.slots[i].job.cancelled ==> s.current == Some(i))
    && Distinct(s.queue)
    && (Running(s) ==> s.slots[s.current.value].plan.uuid !in Uuids(s.queue))
  }

  /** A plan's id is computed from its identifier. */
  ghost predicate Named(p: Plan, idOf: string -> string) {
    p.id == idOf(p.uuid)
  }

  ghost predicate AllNamed(s: seq<Plan>, idOf: string -> string) {
    forall k :: 0 <= k < |s| ==> Named(s[k], idOf)
  }

  ghost predicate InputNamed(input: Input, idOf: string -> string) {
    match input
    case Forwarded(_, _, _, _, c) => c.config.Some? ==> AllNamed(c.config.value, idOf)
    case Select(_, c) => c.config.Some? ==> AllNamed(c.config.value, idOf)
    case _ => true
  }

  ghost predicate PlansNamed(s: Server, idOf: string -> string) {
    AllNamed(s.queue, idOf) && forall i :: 0 <= i < |s.slots| ==> Named(s.slots[i].plan, idOf)
  }

  lemma OnJobSafe(s: Server, i: nat, e: Event)
    requires Safe(s) && i < |s.slots|
    ensures Safe(OnJob(s, i, e))
  {
    AppliedGood(s.slots[i].job, e);
    if s.slots[i].job.cancelled {
      EndIsRepeated(s.slots[i].job, e);
    }
  }

  /** A job that is asked to stop is over. */
  lemma StopEnds(j: Job, force: bool, w: World)
    requires Good(j) && Settled(j)
    ensures Applied(j, StopAsked(force, w)).cancelled
  {
  }

  lemma DroppedSafe(s: Server, saving: Saving)
    requires Safe(s) && s.current.Some? && s.slots[s.current.value].job.cancelled
    ensures Safe(Dropped(s, saving))
  {
  }

  lemma BeginSafe(s: Server, p: Plan, full: bool, c: Choice)
    requires Safe(s) && !Running(s) && p.uuid !in Uuids(s.queue)
    ensures Safe(Begin(s, p, full, c))
  {
    hide Advanced;
    AdvancedGood(CREATED, c.job);
    StoppedGood(CREATED, true, c.job.post);
  }

  lemma FilledSafe(s: Server, ask: Ask, c: Choice, idOf: string -> string)
    requires Safe(s) && c.config.Some?
    requires PlansNamed(s, idOf) && AllNamed(c.config.value, idOf)
    ensures Safe(s.(queue := Filled(s, ask, c)))
  {
    StaysDistinct(s.queue, c.config.value, Found(s, c), ask.path, RunningId(s));
    if Running(s) {
      RunningIsNotQueued(s.queue, c.config.value, Found(s, c), ask.path, s.slots[s.current.value].plan);
    }
  }

  lemma SelectedSafe(s: Server, ask: Ask, c: Choice, idOf: string -> string)
    requires Safe(s) && PlansNamed(s, idOf) && (c.config.Some? ==> AllNamed(c.config.value, idOf))
    ensures Safe(Selected(s, ask, c))
  {
    if c.config.Some? {
      var q := Filled(s, ask, c);
      FilledSafe(s, ask, c, idOf);
      if !Running(s) {
        var r := Request(ask.path, ask.force);
        ChosenLeaves(q, Found(s, c), r);
        var (n, rest) := Advance(q, Found(s, c), r);
        if n.Chosen? {
          BeginSafe(s.(queue := rest), n.plan, ask.full, c);
        }
      }
    }
  }

  lemma FilledNamed(s: Server, ask: Ask, c: Choice, idOf: string -> string)
    requires Fits(s) && c.config.Some? && AllNamed(s.queue, idOf) && AllNamed(c.config.value, idOf)
    ensures AllNamed(Filled(s, ask, c), idOf)
  {
    var plans, m, id := c.config.value, Found(s, c), RunningId(s);
    var front, back := NewFront(s.queue, plans, m, ask.path, id), NewBack(s.queue, plans, m, ask.path, id);
    QueueIsKept(s.queue, plans, m, ask.path, id);
    forall p: Plan | p in front || p in back ensures Named(p, idOf) {
      NewAreWanted(s.queue, plans, m, ask.path, id, p);
    }
  }

  lemma SelectedNamed(s: Server, ask: Ask, c: Choice, idOf: string -> string)
    requires Fits(s) && PlansNamed(s, idOf) && (c.config.Some? ==> AllNamed(c.config.value, idOf))
    ensures PlansNamed(Selected(s, ask, c), idOf)
  {
    if c.config.Some? {
      FilledNamed(s, ask, c, idOf);
      PickedNamed(s.(queue := Filled(s, ask, c)), ask, c, idOf);
    }
  }

  lemma PickedNamed(s: Server, ask: Ask, c: Choice, idOf: string -> string)
    requires PlansNamed(s, idOf)
    ensures PlansNamed(Picked(s, ask, c), idOf)
  {
    var k := AdvanceDrops(s.queue, Found(s, c), Request(ask.path, ask.force));
  }

  lemma ForwardedSafe(s: Server, input: Input, idOf: string -> string)
    requires Safe(s) && PlansNamed(s, idOf) && InputNamed(input, idOf)
    requires input.Forwarded? && s.current.Some? && input.state >= ERROR
    ensures Safe(Served(s, input)) && PlansNamed(Served(s, input), idOf)
  {
    var i := s.current.value;
    OnJobSafe(s, i, StopAsked(false, input.w));
    StopEnds(s.slots[i].job, false, input.w);
    var t := OnJob(s, i, StopAsked(false, input.w));
    DroppedSafe(t, input.saving);
    var u := Dropped(t, input.saving);
    SelectedSafe(u, Ask("", false, false), input.choice, idOf);
    SelectedNamed(u, Ask("", false, false), input.choice, idOf);
  }

  lemma OnJobNamed(s: Server, i: nat, e: Event, idOf: string -> string)
    requires i < |s.slots| && PlansNamed(s, idOf)
    ensures PlansNamed(OnJob(s, i, e), idOf)
  {}

  lemma ShutdownSafe(s: Server, w: World, saving: Saving, idOf: string -> string)
    requires Safe(s) && Running(s) && PlansNamed(s, idOf)
    ensures var t := Served(s, Shutdown(w, saving)); Safe(t) && PlansNamed(t, idOf)
  {
    var i := s.current.value;
    OnJobNamed(s, i, StopAsked(false, w), idOf);
    OnJobSafe(s, i, StopAsked(false, w));
    StopEnds(s.slots[i].job, false, w);
    DroppedSafe(OnJob(s, i, StopAsked(false, w)), saving);
  }

  lemma StopSafe(s: Server, path: string, w: World, idOf: string -> string)
    requires Safe(s) && Running(s) && PlansNamed(s, idOf)
    ensures var t := Served(s, Stop(path, w)); Safe(t) && PlansNamed(t, idOf)
  {
    var i := s.current.value;
    if path == "" || Matches(path, s.slots[i].plan) {
      OnJobNamed(s, i, StopAsked(true, w), idOf);
      OnJobSafe(s, i, StopAsked(true, w));
    } else {
      var k := FirstMatch(s.queue, path);
      if k < |s.queue| {
        UuidsWithout(s.queue, k);
      }
    }
  }

  /** One input. */
  lemma ServedSafe(s: Server, input: Input, idOf: string -> string)
    requires Safe(s) && PlansNamed(s, idOf) && InputNamed(input, idOf)
    ensures Safe(Served(s, input)) && PlansNamed(Served(s, input), idOf)
  {
    match input
    case JobEvent(i, e) =>
      if i < |s.slots| {
        OnJobNamed(s, i, e, idOf);
        OnJobSafe(s, i, e);
      }
    case Forwarded(state, _, _, _, _) =>
      if s.current.Some? && state >= ERROR {
        ForwardedSafe(s, input, idOf);
      }
    case Shutdown(w, saving) =>
      if Running(s) {
        ShutdownSafe(s, w, saving, idOf);
      }
    case Pause(signalled) =>
      if Running(s) {
        OnJobNamed(s, s.current.value, Suspended(signalled), idOf);
        OnJobSafe(s, s.current.value, Suspended(signalled));
      }
    case Unpause(signalled) =>
      if Running(s) {
        OnJobNamed(s, s.current.value, Resumed(signalled), idOf);
        OnJobSafe(s, s.current.value, Resumed(signalled));
      }
    case Select(ask, choice) =>
      SelectedSafe(s, ask, choice, idOf);
      SelectedNamed(s, ask, choice, idOf);
    case Stop(path, w) =>
      if Running(s) {
        StopSafe(s, path, w, idOf);
      }
    case ClearState(_) =>
  }

  function Run(s: Server, inputs: seq<Input>): Server
    requires Fits(s)
    decreases inputs
  {
    if inputs == [] then s else RunFit(s, inputs[0]); Run(Served(s, inputs[0]), inputs[1..])
  }

  lemma RunFit(s: Server, input: Input)
    requires Fits(s)
    ensures Fits(Served(s, input))
  {
  }

  /** Over every sequence of requests, hooks, messages and job events, whatever fails on the way: at most one job is
      running, every job the server has dropped is over, the queue holds distinct plans and never the running one. */
  lemma {:induction false} EveryRunIsSafe(s: Server, inputs: seq<Input>, idOf: string -> string)
    requires Safe(s) && PlansNamed(s, idOf)
    requires forall k :: 0 <= k < |inputs| ==> InputNamed(inputs[k], idOf)
    ensures Fits(Run(s, inputs)) && Safe(Run(s, inputs))
    decreases inputs
  {
    if inputs != [] {
      ServedSafe(s, inputs[0], idOf);
      EveryRunIsSafe(Served(s, inputs[0]), inputs[1..], idOf);
    }
  }

  lemma AtMostOneRuns(s: Server, i: nat, j: nat)
    requires Safe(s) && i < |s.slots| && j < |s.slots|
    requires !s.slots[i].job.cancelled && !s.slots[j].job.cancelled
    ensures i == j && s.current == Some(i)
  {
  }

  // ---- what ends a running backup --------------------------------------------------------

  /** The running backup is ended by its own events, by a shutdown, by a request to stop that names it or nothing,
      and by any message that announces the end of a backup: the server does not look whose end it is. */
  predicate Ends(s: Server, input: Input)
    requires Fits(s) && Running(s)
  {
    var slot := s.slots[s.current.value];
    match input
    case JobEvent(i, e) => i == s.current.value && Applied(slot.job, e).cancelled
    case Forwarded(state, _, _, _, _) => state >= ERROR
    case Shutdown(_, _) => true
    case Stop(path, _) => path == "" || Matches(path, slot.plan)
    case _ => false
  }

  lemma RunningEndsWhen(s: Server, input: Input)
    requires Safe(s) && Running(s)
    ensures Fits(Served(s, input)) && |s.slots| <= |Served(s, input).slots|
    ensures Served(s, input).slots[s.current.value].job.cancelled <==> Ends(s, input)
  {
    var i := s.current.value;
    match input
    case Forwarded(state, final, w, saving, choice) =>
      if state >= ERROR {
        StopEnds(s.slots[i].job, false, w);
        var u := Dropped(OnJob(s, i, StopAsked(false, w)), saving);
        SlotsStay(u, Ask("", false, false), choice);
      }
    case Shutdown(w, saving) => StopEnds(s.slots[i].job, false, w);
    case Stop(path, w) => StopEnds(s.slots[i].job, true, w);
    case Select(ask, choice) => SlotsStay(s, ask, choice);
    case _ =>
  }

  lemma SlotsStay(s: Server, ask: Ask, c: Choice)
    requires Fits(s)
    ensures s.slots <= Selected(s, ask, c).slots
  {
  }

  /** A selection keeps the result that is booked for a plan, unless it starts a backup on an illegible file; it may
      change the plan's count. */
  lemma ResultStaysBooked(s: Server, ask: Ask, c: Choice, uuid: string)
    requires Fits(s) && uuid in s.file && (c.legible || Selected(s, ask, c).slots == s.slots)
    ensures var u := Selected(s, ask, c);
      uuid in u.file && u.file[uuid].last == s.file[uuid].last && u.file[uuid].failed == s.file[uuid].failed
  {
  }

  /** What a final message does to the running backup, unless that is uploading. */
  lemma FinalEndsTheRunning(t: Server, state: nat, w: World, saving: Saving, next: Choice)
    requires Fits(t) && Running(t) && t.slots[t.current.value].job.state != UPLOADING && state >= ERROR
    ensures var u := Served(t, Forwarded(state, true, w, saving, next));
            var i := t.current.value;
            && i < |u.slots| && u.slots[i].job.cancelled && u.slots[i].job.state == ERROR
            && (saving.written && next.legible ==>
                  t.slots[i].plan.uuid in u.file && u.file[t.slots[i].plan.uuid].failed)
  {
    var i := t.current.value;
    var v := Dropped(OnJob(t, i, StopAsked(false, w)), saving);
    assert v.slots[i].job == Stopped(t.slots[i].job, false, w.post);
    SlotsStay(v, Ask("", false, false), next);
    if saving.written && next.legible {
      ResultStaysBooked(v, Ask("", false, false), next, t.slots[i].plan.uuid);
    }
  }

  /** The job's result is booked for its plan: the time of the save, and a failure unless the job is done or has been
      uploading. */
  predicate Booked(file: State, slot: Slot, now: int) {
    && slot.plan.uuid in file && file[slot.plan.uuid].last == At(now)
    && (file[slot.plan.uuid].failed <==> slot.job.state !in {UPLOADING, DONE})
  }

  lemma DropBooks(s: Server, w: World, saving: Saving)
    requires Safe(s) && s.current.Some? && saving.written
    ensures var i := s.current.value;
      Booked(Dropped(OnJob(s, i, StopAsked(false, w)), saving).file, s.slots[i], saving.now)
  {
  }

  /** A final message, whoever has sent it, books the result of the current job, over or not; and so it stays, unless a
      next backup is then started on an illegible file. */
  lemma FinalBooksTheResult(s: Server, state: nat, w: World, saving: Saving, next: Choice)
    requires Safe(s) && s.current.Some? && state >= ERROR && saving.written
    requires next.legible || |Served(s, Forwarded(state, true, w, saving, next)).slots| == |s.slots|
    ensures Booked(Served(s, Forwarded(state, true, w, saving, next)).file, s.slots[s.current.value], saving.now)
  {
    var i := s.current.value;
    var v := Dropped(OnJob(s, i, StopAsked(false, w)), saving);
    DropBooks(s, w, saving);
    if v.queue != [] {
      SlotsStay(v, Ask("", false, false), next);
      ResultStaysBooked(v, Ask("", false, false), next, s.slots[i].plan.uuid);
    }
  }

  /** So does a shutdown for the running one. */
  lemma ShutdownBooksTheResult(s: Server, w: World, saving: Saving)
    requires Safe(s) && Running(s) && saving.written
    ensures Booked(Served(s, Shutdown(w, saving)).file, s.slots[s.current.value], saving.now)
  {
    DropBooks(s, w, saving);
  }

  /** A plan whose backup has ended as done is passed over by itself until its wait has passed, and one whose backup has
      failed is not. */
  lemma DoneWaitsFailedDoesNot(s: Server, slot: Slot, now: int, p: Plan, w: Moment, r: Request)
    requires Booked(s.file, slot, now) && slot.plan.uuid == p.uuid && w.state == s.file
    requires w.passes(p) && !r.force && !Matches(r.path, p)
    ensures slot.job.state == DONE ==> (Judge(p, w, r) == PassedOver <==> w.now - now <= p.wait)
    ensures slot.job.state == ERROR ==> Judge(p, w, r) == Runs
  {
  }

  /** Hooks and requests reach the running job, and while it runs the state file cannot be cleared. */
  lemma RequestsReachTheJob(s: Server, signalled: bool, path: string, w: World)
    requires Safe(s) && Running(s)
    ensures var i := s.current.value;
      && Served(s, Pause(signalled)).slots[i].job.paused == (signalled || s.slots[i].job.paused)
      && Served(s, Unpause(signalled)).slots[i].job.paused == (!signalled && s.slots[i].job.paused)
      && (path == "" || Matches(path, s.slots[i].plan) ==>
            var t := Served(s, Stop(path, w));
            t.slots[i].job.cancelled && t.slots[i].job.state == ERROR && t.queue == s.queue)
      && Served(s, ClearState(true)) == s
  {
  }

  /** A request to stop that does not name it takes the first named plan out of the queue. */
  lemma StopTakesOut(s: Server, path: string, w: World, k: nat)
    requires Safe(s) && Running(s) && path != "" && !Matches(path, s.slots[s.current.value].plan)
    requires k <= |s.queue| && (forall j :: 0 <= j < k ==> !Matches(path, s.queue[j]))
    requires k < |s.queue| ==> Matches(path, s.queue[k])
    ensures Served(s, Stop(path, w)) == if k == |s.queue| then s else s.(queue := s.queue[..k] + s.queue[k + 1..])
  {
    assert FirstMatch(s.queue, path) == k;
  }

  /** While no backup runs there is nothing to suspend or to shut down, and the state file can be cleared. */
  lemma ClearedWhenIdle(s: Server, removed: bool, signalled: bool, w: World, saving: Saving)
    requires Fits(s) && !Running(s)
    ensures Served(s, ClearState(removed)).file == if removed then map[] else s.file
    ensures Served(s, Pause(signalled)) == Served(s, Unpause(signalled)) == Served(s, Shutdown(w, saving)) == s
  {
  }

  // ---- what is started -------------------------------------------------------------------

  /** Nothing is chosen without power, without plans, or, when no plan is asked for, while a backup is running; and
      while one is running the queue alone changes. */
  lemma SelectedNothing(s: Server, ask: Ask, c: Choice)
    requires Fits(s)
    ensures !c.power || c.config.None? || c.config.value == [] || (ask.path == "" && Running(s)) ==>
      Selected(s, ask, c) == s
    ensures Running(s) && c.config.Some? && c.config.value != [] && c.power && ask.path != "" ==>
      var now := Moment(c.now, if c.legible then s.file else map[], c.passes);
      var id := s.slots[s.current.value].plan.id;
      Selected(s, ask, c) == s.(queue := AddedAll(s.queue, c.config.value, now, ask.path, Some(id)))
  {
  }

  /** When no backup is running, the first plan in the filled queue that is not passed over is taken off it with all
      before it.  If it is eligible and can be booked it is started, as a full backup when one is asked for; a plan that
      cannot be booked, or whose last date cannot be read, is just lost. */
  lemma SelectedStarts(s: Server, ask: Ask, c: Choice, q: seq<Plan>, now: Moment, k: nat)
    requires Fits(s) && !Running(s) && c.power && c.config.Some? && c.config.value != []
    requires now == Moment(c.now, if c.legible then s.file else map[], c.passes)
    requires q == AddedAll(s.queue, c.config.value, now, ask.path, None)
    requires k <= |q| && forall j :: 0 <= j < k ==> Judge(q[j], now, Request(ask.path, ask.force)) == PassedOver
    requires k < |q| ==> Judge(q[k], now, Request(ask.path, ask.force)) != PassedOver
    ensures var u := Selected(s, ask, c);
      && u.queue == (if k == |q| then [] else q[k + 1..])
      && if k == |q| || Judge(q[k], now, Request(ask.path, ask.force)) == BadDate || !c.written then
           u == s.(queue := u.queue)
         else
           && |u.slots| == |s.slots| + 1 && s.slots <= u.slots && u.slots[|s.slots|].plan == q[k]
           && (if c.starts then
                 u.current == Some(|s.slots|) && u.slots[|s.slots|].job == BackupJob.Run(CREATED, [Started(c.job)])
               else u.current == None && u.slots[|s.slots|].job.cancelled && u.slots[|s.slots|].job.state == ERROR)
           && u.file == AfterStart(s.file, Op.Run(q[k].uuid, ask.full, c.legible, true, Lost), c.schedule(q[k]))
  {
    hide Judge, AddedAll, Advance, Advanced, Begun, Uuids;
    NextIsTheFirst(q, now, Request(ask.path, ask.force), k);
    assert [Started(c.job)][1..] == [];
    assert BackupJob.Run(CREATED, [Started(c.job)]) == BackupJob.Run(Applied(CREATED, Started(c.job)), []);
  }

  /** A final message drops the current job, whose end it is taken to be, and goes on to the next plan when any is
      queued. */
  lemma FinalSelects(s: Server, state: nat, w: World, saving: Saving, next: Choice) returns (v: Server)
    requires Safe(s) && s.current.Some? && state >= ERROR
    ensures v.queue == s.queue && v.current == None && |v.slots| == |s.slots|
    ensures forall i :: 0 <= i < |s.slots| ==>
      if s.current == Some(i) then v.slots[i].job.cancelled else v.slots[i] == s.slots[i]
    ensures Served(s, Forwarded(state, true, w, saving, next)) ==
      if s.queue == [] then v else Selected(v, Ask("", false, false), next)
  {
    var i := s.current.value;
    StopEnds(s.slots[i].job, false, w);
    v := Dropped(OnJob(s, i, StopAsked(false, w)), saving);
  }

  /** A backup that is over is replaced at once when a user asks for the next one, before its final message has been
      handled.  That message, which the old job has forwarded, then stops the new backup; and it is the new plan for
      which a failure is booked, also if a next one is chosen, as long as the state file can be read and written. */
  lemma LateFinalStopsTheNext(s: Server, ask: Ask, c: Choice, w: World, saving: Saving, next: Choice)
    requires Safe(s) && s.current.Some? && !Running(s)
    requires var over := s.slots[s.current.value].job; Final(over.state) in over.log
    requires var t := Selected(s, ask, c); Fits(t) && Running(t) && t.slots[t.current.value].job.state != UPLOADING
    ensures var t := Selected(s, ask, c);
            var late := Forwarded(s.slots[s.current.value].job.state, true, w, saving, next);
            var u := Served(t, late);
            && t.current != s.current && t.current.value < |u.slots|
            && u.slots[t.current.value].job.cancelled && u.slots[t.current.value].job.state == ERROR
            && (saving.written && next.legible ==>
                  var uuid := t.slots[t.current.value].plan.uuid; uuid in u.file && u.file[uuid].failed)
  {
    FinalEndsTheRunning(Selected(s, ask, c), s.slots[s.current.value].job.state, w, saving, next);
  }
}
