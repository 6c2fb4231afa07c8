/** One backup of backup.py: an automaton driven by the ends of its processes, by its timeout and by requests. */
module BackupJob {
  import opened Wrappers

  const WAITING := 0x0
  const PRE_CMD := 0x1
  const KEYGEN := 0x2
  const NO_KEYGEN := 0x3
  const ENCRYPT_COMPRESS := 0x4
  const COMPRESS := 0x5
  const HASHING_P1 := 0x6
  const HASHING_P2 := 0x7
  const PACKING := 0x8
  const UPLOADING := 0x9
  const ERROR := 0xA
  const DONE := 0xB

  /** What a job forwards: the lock that keeps the machine awake taken and given back, a change of state, and the
      end of the job. */
  datatype Msg = Acquire | Release | Update(prev: nat, state: nat) | Final(state: nat)

  /** The timeout that is pending: for the current step, or for the command that follows the backup. */
  datatype Timer = NoTimer | StepTimer | PostTimer

  /** What comes of a step: its process is started and watched, there is nothing to wait for, it fails, or an
      exception leaves it. */
  datatype Outcome = Waits | Continues | Fails | Raises

  /** What comes of the command after the backup: there is none or it cannot be started; it is started; reading it
      raises an exception; or starting it raises one that is no OSError, as an empty command line does. */
  datatype Post = NoPost | PostStarts | PostRaises | PostBreaks

  /** What one call meets on its way: whether the plan has a command before the backup, whether the directory can
      be made, whether the process that ended did well, what becomes of each step and of the command at the end, and
      whether looking through the old backups after the upload raises no exception. */
  datatype World = World(
    hasPre: bool, mkdir: nat -> bool, exitOk: bool, step: nat -> Outcome, post: Post, cleans: bool)

  /** The outcomes that the steps of the source have. */
  ghost predicate Possible(w: World) {
    && (forall s :: w.step(s) == Raises ==> s == PRE_CMD)
    && (forall s :: w.step(s) == Continues ==> s in {PRE_CMD, KEYGEN, HASHING_P2, UPLOADING})
    && w.step(HASHING_P2) != Waits
  }

  /** A job with the part of the dispatcher that belongs to it: the processes watched on its behalf and the
      messages it has forwarded.  Processes are numbered in the order in which they are started. */
  datatype Job = Job(
    state: nat, cancelled: bool, paused: bool, proc: Option<nat>, watched: set<nat>, timer: Timer, log: seq<Msg>,
    pids: nat)

  const CREATED := Job(WAITING, false, false, None, {}, NoTimer, [], 0)

  // ---- the steps as functions ------------------------------------------------------------

  /** `_next` on a cancelled job. */
  function Finished(j: Job): Job {
    j.(timer := NoTimer, log := j.log + [Release, Final(j.state)])
  }

  function Launched(j: Job): Job {
    j.(proc := Some(j.pids), watched := j.watched + {j.pids}, pids := j.pids + 1)
  }

  /** `_stop`. */
  function Stopped(j: Job, force: bool, post: Post): Job {
    if j.cancelled then j
    else
      var k := j.(cancelled := true, paused := false, timer := NoTimer,
                  state := if force || j.state != UPLOADING then ERROR else DONE);
      match post
      case NoPost => Finished(k)
      case PostRaises => k
      case PostBreaks => k.(timer := PostTimer)
      case PostStarts => Launched(k).(timer := PostTimer)
  }

  /** `_update` to a state other than ERROR. */
  function Updated(j: Job, s: nat): Job {
    j.(state := s, paused := false, log := j.log + [Update(j.state, s)])
  }

  /** `_update` to ERROR. */
  function Failed(j: Job, post: Post): Job {
    Stopped(Updated(j, ERROR), true, post)
  }

  function Successor(s: nat): nat {
    if s <= PRE_CMD then KEYGEN
    else if s == KEYGEN then ENCRYPT_COMPRESS
    else if s == NO_KEYGEN then COMPRESS
    else if s == ENCRYPT_COMPRESS then HASHING_P1
    else s + 1
  }

  /** `_next`. */
  function Advanced(j: Job, w: World): Job
    decreases UPLOADING - j.state, 1
  {
    if j.cancelled then Finished(j)
    else
      var k := j.(timer := StepTimer, log := if j.state == WAITING then j.log + [Acquire] else j.log);
      if j.state == WAITING && w.hasPre then Entered(k, PRE_CMD, w)
      else if j.state <= PRE_CMD && !w.mkdir(j.state) then Stopped(k, true, w.post)
      else if j.proc.Some? && !w.exitOk then Failed(k, w.post).(proc := None)
      else if j.state >= UPLOADING then
        if w.cleans then Stopped(k.(proc := None), false, w.post) else k.(proc := None)
      else Entered(k.(proc := None), Successor(j.state), w)
  }

  /** The step that begins with the change to state `s`. */
  function Entered(j: Job, s: nat, w: World): Job
    requires j.state < s <= UPLOADING
    decreases UPLOADING - j.state, 0
  {
    var k := Updated(j, s);
    match w.step(s)
    case Waits => Launched(k)
    case Continues => Advanced(if s == KEYGEN then Updated(k, NO_KEYGEN) else k, w)
    case Fails => Failed(k, w.post)
    case Raises => k
  }

  // ---- the job as the source has it ------------------------------------------------------

  class Backup {
    var state: nat
    var cancelled: bool
    var paused: bool
    var proc: Option<nat>
    var watched: set<nat>
    var timer: Timer
    var log: seq<Msg>
    var pids: nat

    function View(): Job
      reads this
    {
      Job(state, cancelled, paused, proc, watched, timer, log, pids)
    }

    /** What is left of the run: nothing once it is cancelled. */
    function Measure(): nat
      reads this
    {
      if cancelled then 0 else if state < DONE then 1 + DONE - state else 1
    }

    constructor ()
      ensures View() == CREATED
    {
      state, cancelled, paused, proc, watched, timer, log, pids := WAITING, false, false, None, {}, NoTimer, [], 0;
    }

    method Forward(m: Msg)
      modifies this`log
      ensures log == old(log) + [m]
    {
      log := log + [m];
    }

    method Launch()
      modifies this
      ensures View() == Launched(old(View()))
    {
      proc, watched, pids := Some(pids), watched + {pids}, pids + 1;
    }

    /** `_update`. */
    method Update(s: nat, w: World) returns (ok: bool)
      requires s <= ERROR && (!cancelled ==> state < s) && Possible(w)
      modifies this
      ensures View() == if old(cancelled) then old(View())
                        else if s == ERROR then Failed(old(View()), w.post)
                        else Updated(old(View()), s)
      ensures ok <==> !old(cancelled) && s != ERROR
      decreases Measure(), 1
    {
      if cancelled {
        Stop(true, w);
        return false;
      }
      var p := state;
      state := s;
      paused := false;
      Forward(Msg.Update(p, s));
      if s == ERROR {
        Stop(true, w);
        return false;
      }
      return true;
    }

    /** `_stop`. */
    method Stop(force: bool, w: World)
      requires Possible(w)
      modifies this
      ensures View() == Stopped(old(View()), force, w.post)
      decreases Measure(), 0
    {
      if cancelled {
        return;
      }
      cancelled := true;
      paused := false;
      timer := NoTimer;
      state := if force || state != UPLOADING then ERROR else DONE;
      StartPostCmd(w);
    }

    method StartPostCmd(w: World)
      requires cancelled && timer == NoTimer && Possible(w)
      modifies this
      ensures View() == match w.post
                        case NoPost => Finished(old(View()))
                        case PostRaises => old(View())
                        case PostBreaks => old(View()).(timer := PostTimer)
                        case PostStarts => Launched(old(View())).(timer := PostTimer)
      decreases Measure(), 5
    {
      match w.post
      case NoPost => Next(w);
      case PostRaises =>
      case PostBreaks => timer := PostTimer;
      case PostStarts =>
        timer := PostTimer;
        Launch();
    }

    /** `_next`. */
    method Next(w: World)
      requires Possible(w) && (!cancelled ==> state <= UPLOADING)
      modifies this
      ensures View() == Advanced(old(View()), w)
      decreases Measure(), 4
    {
      timer := NoTimer;
      if cancelled {
        Forward(Release);
        Forward(Final(state));
        return;
      }
      timer := StepTimer;
      if state == WAITING {
        Forward(Acquire);
        if w.hasPre {
          StepPreCmd(w);
          return;
        }
      }
      if state <= PRE_CMD && !w.mkdir(state) {
        Stop(true, w);
        return;
      }
      if proc.Some? {
        var ok := w.exitOk;
        if !ok {
          ok := Update(ERROR, w);
        }
        proc := None;
        if !ok {
          Stop(true, w);
          return;
        }
      }
      NextStep(w);
    }

    /** What `_next` calls for the state it finds. */
    method NextStep(w: World)
      requires !cancelled && state <= UPLOADING && proc.None? && Possible(w)
      modifies this
      ensures View() == if old(state) < UPLOADING then Entered(old(View()), Successor(old(state)), w)
                        else if w.cleans then Stopped(old(View()), false, w.post)
                        else old(View())
      decreases Measure(), 3
    {
      if state == WAITING || state == PRE_CMD {
        StepKeygen(w);
      } else if state == NO_KEYGEN {
        StepExec(COMPRESS, w);
      } else if state == KEYGEN {
        StepExec(ENCRYPT_COMPRESS, w);
      } else if state == COMPRESS || state == ENCRYPT_COMPRESS {
        StepExec(HASHING_P1, w);
      } else if state == HASHING_P1 {
        StepHashPart2(w);
      } else if state == HASHING_P2 {
        StepExec(PACKING, w);
      } else if state == PACKING {
        StepUpload(w);
      } else if w.cleans {
        Stop(false, w);
      }
    }

    method StepPreCmd(w: World)
      requires !cancelled && state == WAITING && Possible(w)
      modifies this
      ensures View() == Entered(old(View()), PRE_CMD, w)
      decreases Measure(), 2
    {
      var ok := Update(PRE_CMD, w);
      match w.step(PRE_CMD)
      case Waits => Launch();
      case Continues => Next(w);
      case Fails => ok := Update(ERROR, w);
      case Raises =>
    }

    method StepKeygen(w: World)
      requires !cancelled && state < KEYGEN && Possible(w)
      modifies this
      ensures View() == Entered(old(View()), KEYGEN, w)
      decreases Measure(), 2
    {
      var ok := Update(KEYGEN, w);
      match w.step(KEYGEN)
      case Waits => Launch();
      case Continues =>
        ok := Update(NO_KEYGEN, w);
        Next(w);
      case Fails => ok := Update(ERROR, w);
      case Raises => assert false;
    }

    /** `_step_ec`, `_step_compress`, `_step_hash_part1` and `_step_pack`, which start one process each. */
    method StepExec(s: nat, w: World)
      requires s in {ENCRYPT_COMPRESS, COMPRESS, HASHING_P1, PACKING}
      requires !cancelled && state < s && Possible(w)
      modifies this
      ensures View() == Entered(old(View()), s, w)
      decreases Measure(), 2
    {
      var ok := Update(s, w);
      if w.step(s) == Waits {
        Launch();
      } else {
        ok := Update(ERROR, w);
      }
    }

    method StepHashPart2(w: World)
      requires !cancelled && state < HASHING_P2 && Possible(w)
      modifies this
      ensures View() == Entered(old(View()), HASHING_P2, w)
      decreases Measure(), 2
    {
      var ok := Update(HASHING_P2, w);
      if w.step(HASHING_P2) == Continues {
        Next(w);
      } else {
        ok := Update(ERROR, w);
      }
    }

    method StepUpload(w: World)
      requires !cancelled && state < UPLOADING && Possible(w)
      modifies this
      ensures View() == Entered(old(View()), UPLOADING, w)
      decreases Measure(), 2
    {
      var ok := Update(UPLOADING, w);
      match w.step(UPLOADING)
      case Waits => Launch();
      case Continues => Next(w);
      case Fails => ok := Update(ERROR, w);
      case Raises => assert false;
    }

    /** `_step_timeout`, called by the dispatcher when the pending timeout fires. */
    method StepTimeout(w: World)
      requires Possible(w) && (!cancelled ==> state <= UPLOADING)
      modifies this
      ensures View() == Applied(old(View()), TimedOut(w))
    {
      if timer == NoTimer {
        return;
      }
      var post := timer == PostTimer;
      timer := NoTimer;
      if post {
        Next(w);
      } else {
        Stop(true, w);
      }
    }

    /** The dispatcher has found process `pid` ended. */
    method ProcessEnded(pid: nat, w: World)
      requires Possible(w) && (!cancelled ==> state <= UPLOADING)
      modifies this
      ensures View() == Applied(old(View()), Ended(pid, w))
    {
      if pid in watched {
        watched := watched - {pid};
        Next(w);
      }
    }

    method Suspend(signalled: bool)
      modifies this
      ensures View() == Applied(old(View()), Suspended(signalled))
    {
      if signalled {
        paused := true;
      }
    }

    method Resume(signalled: bool)
      modifies this
      ensures View() == Applied(old(View()), Resumed(signalled))
    {
      if signalled {
        paused := false;
      }
    }
  }

  // ---- runs ------------------------------------------------------------------------------

  datatype Event =
    | Started(w: World)
    | Ended(pid: nat, w: World)
    | TimedOut(w: World)
    | StopAsked(force: bool, w: World)
    | Suspended(signalled: bool)
    | Resumed(signalled: bool)

  /** The job after an event; one that cannot happen changes nothing. */
  function Applied(j: Job, e: Event): Job {
    match e
    case Started(w) => if j == CREATED then Advanced(j, w) else j
    case Ended(pid, w) => if pid in j.watched then Advanced(j.(watched := j.watched - {pid}), w) else j
    case TimedOut(w) =>
      if j.timer == NoTimer then j
      else if j.timer == PostTimer then Advanced(j.(timer := NoTimer), w)
      else Stopped(j.(timer := NoTimer), true, w.post)
    case StopAsked(force, w) => Stopped(j, force, w.post)
    case Suspended(signalled) => if signalled then j.(paused := true) else j
    case Resumed(signalled) => if signalled then j.(paused := false) else j
  }

  function Run(j: Job, events: seq<Event>): Job
    decreases events
  {
    if events == [] then j else Run(Applied(j, events[0]), events[1..])
  }

  // ---- what every reachable job keeps ----------------------------------------------------

  /** The changes of state that are no failures. */
  predicate Edge(a: nat, b: nat) {
    match a
    case 0 => b == PRE_CMD || b == KEYGEN
    case 1 => b == KEYGEN
    case 2 => b == NO_KEYGEN || b == ENCRYPT_COMPRESS
    case 3 => b == COMPRESS
    case 4 => b == HASHING_P1
    case _ => a < UPLOADING && b == a + 1
  }

  /** The state that the last update of a log announces. */
  function Last(log: seq<Msg>): nat {
    if log == [] then WAITING
    else if log[|log| - 1].Update? then log[|log| - 1].state
    else Last(log[..|log| - 1])
  }

  /** Each update begins where the one before it ended, and goes along an edge or to ERROR. */
  predicate Chained(log: seq<Msg>) {
    log == [] ||
    (Chained(log[..|log| - 1]) &&
     match log[|log| - 1]
     case Update(p, s) => p == Last(log[..|log| - 1]) && (Edge(p, s) || (s == ERROR && p <= UPLOADING))
     case _ => true)
  }

  /** The lock is asked for by the very first message or not at all. */
  predicate AcquiresFirst(log: seq<Msg>) {
    forall k :: 0 < k < |log| ==> log[k] != Acquire
  }

  /** Nothing has been said of an end. */
  predicate Quiet(log: seq<Msg>) {
    forall k :: 0 <= k < |log| ==> !log[k].Release? && !log[k].Final?
  }

  /** The lock has been asked for. */
  predicate Locked(log: seq<Msg>) {
    log != [] && log[0] == Acquire
  }

  predicate Good(j: Job) {
    && j.state <= DONE
    && (j.cancelled <==> j.state >= ERROR)
    && Chained(j.log)
    && AcquiresFirst(j.log)
    && (!j.cancelled ==> Last(j.log) == j.state)
    && (j.state == DONE ==> Last(j.log) == UPLOADING)
    && (!j.cancelled ==> Quiet(j.log) && (j.state != WAITING ==> Locked(j.log)))
    && (forall p :: p in j.watched ==> p < j.pids)
  }

  /** The lock has been given back, or the end of a watched process or the pending timeout will see to it. */
  predicate GivesBack(j: Job) {
    Release in j.log || j.watched != {} || j.timer == PostTimer
  }

  /** A live job watches its process and no other; once started it always has a timeout pending. */
  predicate Settled(j: Job) {
    && (!j.cancelled ==> j.watched == if j.proc.Some? then {j.proc.value} else {})
    && (!j.cancelled ==> j.timer == if j.state == WAITING then NoTimer else StepTimer)
    && (j.cancelled ==> j.timer != StepTimer)
    && (j.state == WAITING ==> j.log == [] && j.proc == None)
  }

  lemma OneMore(log: seq<Msg>, m: Msg)
    requires Chained(log) && AcquiresFirst(log)
    requires m.Update? ==> m.prev == Last(log) && (Edge(m.prev, m.state) || (m.state == ERROR && m.prev <= UPLOADING))
    ensures Chained(log + [m]) && (m != Acquire || log == [] ==> AcquiresFirst(log + [m]))
    ensures Last(log + [m]) == if m.Update? then m.state else Last(log)
  {
  }

  lemma FinishedGood(j: Job)
    requires Good(j) && j.cancelled
    ensures Good(Finished(j))
  {
    OneMore(j.log, Release);
    OneMore(j.log + [Release], Final(j.state));
    assert j.log + [Release] + [Final(j.state)] == j.log + [Release, Final(j.state)];
  }

  lemma StoppedGood(j: Job, force: bool, post: Post)
    requires Good(j) && (j.cancelled ==> Settled(j))
    ensures Good(Stopped(j, force, post)) && Settled(Stopped(j, force, post))
    ensures Stopped(j, force, post).cancelled
  {
    if !j.cancelled && post == PostStarts {
      assert j.pids in Stopped(j, force, post).watched;
    } else if !j.cancelled && post == NoPost {
      FinishedGood(j.(cancelled := true, paused := false, timer := NoTimer,
                      state := if force || j.state != UPLOADING then ERROR else DONE));
    }
  }

  lemma UpdatedGood(j: Job, s: nat)
    requires Good(j) && !j.cancelled && Edge(j.state, s) && Locked(j.log)
    ensures Good(Updated(j, s))
  {
  }

  lemma FailedGood(j: Job, post: Post)
    requires Good(j) && !j.cancelled
    ensures Good(Failed(j, post)) && Settled(Failed(j, post)) && Failed(j, post).cancelled
  {
    OneMore(j.log, Update(j.state, ERROR));
    var k := Updated(j, ERROR);
    if post == NoPost {
      FinishedGood(k.(cancelled := true, paused := false, timer := NoTimer));
    }
  }

  lemma {:induction false} AdvancedGood(j: Job, w: World)
    requires Good(j) && (!j.cancelled ==> j.watched == {})
    requires j.state == WAITING ==> j.log == [] && j.proc == None
    ensures Good(Advanced(j, w)) && Settled(Advanced(j, w))
    decreases UPLOADING - j.state, 1
  {
    if j.cancelled {
      FinishedGood(j);
    } else {
      var k := j.(timer := StepTimer, log := if j.state == WAITING then j.log + [Acquire] else j.log);
      OneMore(j.log, Acquire);
      if j.state == WAITING && w.hasPre {
        EnteredGood(k, PRE_CMD, w);
      } else if j.state <= PRE_CMD && !w.mkdir(j.state) {
        StoppedGood(k.(timer := NoTimer), true, w.post);
      } else if j.proc.Some? && !w.exitOk {
        FailedGood(k, w.post);
      } else if j.state >= UPLOADING {
        StoppedGood(k.(proc := None), false, w.post);
      } else {
        EnteredGood(k.(proc := None), Successor(j.state), w);
      }
    }
  }

  lemma {:induction false} EnteredGood(j: Job, s: nat, w: World)
    requires Good(j) && !j.cancelled && j.watched == {} && j.proc == None && j.timer == StepTimer
    requires Edge(j.state, s) && Locked(j.log)
    ensures Good(Entered(j, s, w)) && Settled(Entered(j, s, w))
    decreases UPLOADING - j.state, 0
  {
    var k := Updated(j, s);
    UpdatedGood(j, s);
    match w.step(s)
    case Waits =>
    case Continues =>
      if s == KEYGEN {
        UpdatedGood(k, NO_KEYGEN);
        AdvancedGood(Updated(k, NO_KEYGEN), w);
      } else {
        AdvancedGood(k, w);
      }
    case Fails => FailedGood(k, w.post);
    case Raises =>
  }

  lemma AppliedGood(j: Job, e: Event)
    requires Good(j) && Settled(j)
    ensures Good(Applied(j, e)) && Settled(Applied(j, e))
  {
    match e
    case Started(w) => if j == CREATED { AdvancedGood(j, w); }
    case Ended(pid, w) => if pid in j.watched { AdvancedGood(j.(watched := j.watched - {pid}), w); }
    case TimedOut(w) =>
      if j.timer == PostTimer {
        AdvancedGood(j.(timer := NoTimer), w);
      } else if j.timer == StepTimer {
        StoppedGood(j.(timer := NoTimer), true, w.post);
      }
    case StopAsked(force, w) => StoppedGood(j, force, w.post);
    case Suspended(_) =>
    case Resumed(_) =>
  }

  /** Whatever happens to a job, in whatever order, it keeps both. */
  lemma {:induction false} RunGood(j: Job, events: seq<Event>)
    requires Good(j) && Settled(j)
    ensures Good(Run(j, events)) && Settled(Run(j, events))
    decreases events
  {
    if events != [] {
      AppliedGood(j, events[0]);
      RunGood(Applied(j, events[0]), events[1..]);
    }
  }

  // ---- the route through the states ------------------------------------------------------

  /** The states that a log announces, in order. */
  function Trail(log: seq<Msg>): seq<nat> {
    if log == [] then []
    else Trail(log[..|log| - 1]) + if log[|log| - 1].Update? then [log[|log| - 1].state] else []
  }

  /** The one route to state `s` with or without the command before, encrypted or not. */
  function Route(pre: bool, encrypted: bool, s: nat): seq<nat> {
    match s
    case 0 => []
    case 1 => [PRE_CMD]
    case 2 => (if pre then [PRE_CMD] else []) + [KEYGEN]
    case 3 => Route(pre, encrypted, KEYGEN) + [NO_KEYGEN]
    case 4 => Route(pre, encrypted, KEYGEN) + [ENCRYPT_COMPRESS]
    case 5 => Route(pre, encrypted, NO_KEYGEN) + [COMPRESS]
    case 6 => Route(pre, encrypted, if encrypted then ENCRYPT_COMPRESS else COMPRESS) + [HASHING_P1]
    case _ => Route(pre, encrypted, s - 1) + [s]
  }

  lemma EncryptionComesLater(pre: bool, s: nat)
    requires s < HASHING_P1
    ensures Route(pre, true, s) == Route(pre, false, s)
  {
  }

  lemma {:induction false} RouteTaken(log: seq<Msg>) returns (pre: bool, encrypted: bool)
    requires Chained(log) && Last(log) <= UPLOADING
    ensures Trail(log) == Route(pre, encrypted, Last(log))
  {
    pre, encrypted := true, true;
    if log != [] {
      var p := Last(log[..|log| - 1]);
      pre, encrypted := RouteTaken(log[..|log| - 1]);
      if log[|log| - 1].Update? {
        var s := log[|log| - 1].state;
        if s == KEYGEN {
          pre := p == PRE_CMD;
        } else if s == HASHING_P1 {
          EncryptionComesLater(pre, p);
          encrypted := p == ENCRYPT_COMPRESS;
        }
      }
    }
  }

  /** All of the steps in order, with exactly one of the two ways to compress. */
  function FullRoute(pre: bool, encrypted: bool): seq<nat> {
    (if pre then [PRE_CMD] else []) + [KEYGEN]
    + (if encrypted then [ENCRYPT_COMPRESS] else [NO_KEYGEN, COMPRESS])
    + [HASHING_P1, HASHING_P2, PACKING, UPLOADING]
  }

  lemma RouteToUpload(pre: bool, encrypted: bool)
    ensures Route(pre, encrypted, UPLOADING) == FullRoute(pre, encrypted)
  {
    RouteToHash(pre, encrypted);
    var h := Route(pre, encrypted, HASHING_P1);
    assert Route(pre, encrypted, HASHING_P2) == h + [HASHING_P2];
    assert Route(pre, encrypted, PACKING) == h + [HASHING_P2, PACKING];
  }

  lemma RouteToHash(pre: bool, encrypted: bool)
    ensures Route(pre, encrypted, HASHING_P1) ==
            (if pre then [PRE_CMD] else []) + [KEYGEN]
            + (if encrypted then [ENCRYPT_COMPRESS] else [NO_KEYGEN, COMPRESS]) + [HASHING_P1]
  {
    assert Route(pre, encrypted, COMPRESS) == Route(pre, encrypted, KEYGEN) + [NO_KEYGEN, COMPRESS];
  }

  /** A job that ends as done has gone through every step, whatever happened on the way. */
  lemma DoneTookEveryStep(events: seq<Event>)
    requires Run(CREATED, events).state == DONE
    ensures exists pre, encrypted :: Trail(Run(CREATED, events).log) == FullRoute(pre, encrypted)
  {
    RunGood(CREATED, events);
    var pre, encrypted := RouteTaken(Run(CREATED, events).log);
    RouteToUpload(pre, encrypted);
  }

  /** Every change of state raises its number. */
  lemma {:induction false} TrailRises(log: seq<Msg>, i: nat, k: nat)
    requires Chained(log) && i < k < |Trail(log)|
    ensures Trail(log)[i] < Trail(log)[k]
  {
    var before := log[..|log| - 1];
    LastOfTrail(before);
    if k < |Trail(before)| {
      TrailRises(before, i, k);
    } else if i < |Trail(before)| - 1 {
      TrailRises(before, i, |Trail(before)| - 1);
    }
  }

  lemma {:induction false} LastOfTrail(log: seq<Msg>)
    ensures Trail(log) == [] ==> Last(log) == WAITING
    ensures Trail(log) != [] ==> Last(log) == Trail(log)[|Trail(log)| - 1]
  {
    if log != [] {
      LastOfTrail(log[..|log| - 1]);
    }
  }

  // ---- the end ---------------------------------------------------------------------------

  lemma {:induction false} AdvancedGrows(j: Job, w: World)
    ensures j.log <= Advanced(j, w).log
    decreases UPLOADING - j.state, 1
  {
    if !j.cancelled {
      var k := j.(timer := StepTimer, log := if j.state == WAITING then j.log + [Acquire] else j.log);
      if j.state == WAITING && w.hasPre {
        EnteredGrows(k, PRE_CMD, w);
      } else if (j.state <= PRE_CMD && !w.mkdir(j.state)) || (j.proc.Some? && !w.exitOk) || j.state >= UPLOADING {
      } else {
        EnteredGrows(k.(proc := None), Successor(j.state), w);
      }
    }
  }

  lemma {:induction false} EnteredGrows(j: Job, s: nat, w: World)
    requires j.state < s <= UPLOADING
    ensures j.log <= Entered(j, s, w).log
    decreases UPLOADING - j.state, 0
  {
    if w.step(s) == Continues {
      var k := Updated(j, s);
      AdvancedGrows(if s == KEYGEN then Updated(k, NO_KEYGEN) else k, w);
    }
  }

  /** What has been forwarded stays forwarded. */
  lemma AppliedGrows(j: Job, e: Event)
    ensures j.log <= Applied(j, e).log
  {
    match e
    case Started(w) => AdvancedGrows(j, w);
    case Ended(pid, w) => AdvancedGrows(j.(watched := j.watched - {pid}), w);
    case TimedOut(w) => AdvancedGrows(j.(timer := NoTimer), w);
    case _ =>
  }

  /** What happens to a cancelled job only repeats that it has ended. */
  predicate Repeats(log: seq<Msg>, longer: seq<Msg>, state: nat) {
    log <= longer && forall k :: |log| <= k < |longer| ==> longer[k] in {Release, Final(state)}
  }

  lemma EndIsRepeated(j: Job, e: Event)
    requires Good(j) && Settled(j) && j.cancelled
    ensures Applied(j, e).cancelled && Applied(j, e).state == j.state
    ensures Applied(j, e).log in {j.log, j.log + [Release, Final(j.state)]}
    ensures GivesBack(Applied(j, e)) <==> GivesBack(j)
  {
  }

  /** ERROR and DONE are for ever: a cancelled job keeps its state and forwards nothing but its end. */
  lemma {:induction false} EndIsForEver(j: Job, events: seq<Event>)
    requires Good(j) && Settled(j) && j.cancelled
    ensures Run(j, events).cancelled && Run(j, events).state == j.state
    ensures Repeats(j.log, Run(j, events).log, j.state)
    ensures GivesBack(Run(j, events)) <==> GivesBack(j)
    decreases events
  {
    if events != [] {
      AppliedGood(j, events[0]);
      EndIsRepeated(j, events[0]);
      EndIsForEver(Applied(j, events[0]), events[1..]);
    }
  }

  function PostOf(e: Event): Post {
    match e
    case Started(w) => w.post
    case Ended(_, w) => w.post
    case TimedOut(w) => w.post
    case StopAsked(_, w) => w.post
    case Suspended(_) => NoPost
    case Resumed(_) => NoPost
  }

  /** The processes that are still watched while the event is handled. */
  function StillWatched(j: Job, e: Event): set<nat> {
    if e.Ended? then j.watched - {e.pid} else j.watched
  }

  /** How often the end has been announced. */
  function Finals(log: seq<Msg>): nat {
    if log == [] then 0 else Finals(log[..|log| - 1]) + if log[|log| - 1].Final? then 1 else 0
  }

  lemma {:induction false} QuietHasNone(log: seq<Msg>)
    requires Quiet(log)
    ensures Finals(log) == 0 && Release !in log
  {
    if log != [] {
      QuietHasNone(log[..|log| - 1]);
    }
  }

  lemma OneFinalMore(log: seq<Msg>, state: nat)
    ensures Finals(log + [Release, Final(state)]) == Finals(log) + 1
    ensures Release in log + [Release, Final(state)]
  {
    var more := log + [Release, Final(state)];
    assert more[..|log| + 1] == log + [Release] && (log + [Release])[..|log|] == log;
    assert more[|log|] == Release;
  }

  /** A job at its cancellation, when the processes `watched` are still watched. */
  predicate JustStopped(j: Job, watched: set<nat>, post: Post) {
    match post
    case NoPost =>
      j.watched == watched && j.timer == NoTimer && |j.log| >= 2 && Quiet(j.log[..|j.log| - 2])
      && j.log[|j.log| - 2..] == [Release, Final(j.state)]
    case PostRaises => j.watched == watched && j.timer == NoTimer && Quiet(j.log)
    case PostBreaks => j.watched == watched && j.timer == PostTimer && Quiet(j.log)
    case PostStarts => |j.watched| == |watched| + 1 && j.timer == PostTimer && Quiet(j.log)
  }

  lemma StopsAsDescribed(j: Job, force: bool, post: Post)
    requires !j.cancelled && Quiet(j.log) && forall p :: p in j.watched ==> p < j.pids
    ensures JustStopped(Stopped(j, force, post), j.watched, post)
  {
    var k := Stopped(j, force, post);
    if post == NoPost {
      assert k.log[..|k.log| - 2] == j.log && k.log[|k.log| - 2..] == [Release, Final(k.state)];
    }
  }

  lemma {:induction false} AdvancedStops(j: Job, w: World)
    requires !j.cancelled && j.watched == {} && Quiet(j.log)
    ensures var k := Advanced(j, w); k.cancelled ==> JustStopped(k, {}, w.post)
    decreases UPLOADING - j.state, 1
  {
    var k := j.(timer := StepTimer, log := if j.state == WAITING then j.log + [Acquire] else j.log);
    if j.state == WAITING && w.hasPre {
      EnteredStops(k, PRE_CMD, w);
    } else if j.state <= PRE_CMD && !w.mkdir(j.state) {
      StopsAsDescribed(k, true, w.post);
    } else if j.proc.Some? && !w.exitOk {
      StopsAsDescribed(Updated(k, ERROR), true, w.post);
    } else if j.state >= UPLOADING {
      StopsAsDescribed(k.(proc := None), false, w.post);
    } else {
      EnteredStops(k.(proc := None), Successor(j.state), w);
    }
  }

  lemma {:induction false} EnteredStops(j: Job, s: nat, w: World)
    requires !j.cancelled && j.watched == {} && Quiet(j.log) && j.state < s <= UPLOADING
    ensures var k := Entered(j, s, w); k.cancelled ==> JustStopped(k, {}, w.post)
    decreases UPLOADING - j.state, 0
  {
    var k := Updated(j, s);
    match w.step(s)
    case Waits =>
    case Continues => AdvancedStops(if s == KEYGEN then Updated(k, NO_KEYGEN) else k, w);
    case Fails => StopsAsDescribed(Updated(k, ERROR), true, w.post);
    case Raises =>
  }

  lemma CancellingStops(j: Job, e: Event)
    requires Good(j) && Settled(j) && !j.cancelled && Applied(j, e).cancelled
    ensures JustStopped(Applied(j, e), StillWatched(j, e), PostOf(e))
  {
    hide Advanced, Stopped, JustStopped, Chained, Quiet;
    match e
    case Started(w) => AdvancedStops(j, w);
    case Ended(pid, w) => AdvancedStops(j.(watched := j.watched - {pid}), w);
    case TimedOut(w) => StopsAsDescribed(j.(timer := NoTimer), true, w.post);
    case StopAsked(force, w) => StopsAsDescribed(j, force, w.post);
    case Suspended(_) =>
    case Resumed(_) =>
  }

  /** While the timeout of the command after the backup is pending, nothing has happened since the cancellation. */
  lemma {:induction false} PendingMeansUntouched(j: Job, events: seq<Event>)
    requires Good(j) && Settled(j) && j.cancelled && Run(j, events).timer == PostTimer
    ensures j.timer == PostTimer && Run(j, events).watched == j.watched && Run(j, events).log == j.log
    decreases events
  {
    if events != [] {
      AppliedGood(j, events[0]);
      EndIsRepeated(j, events[0]);
      PendingMeansUntouched(Applied(j, events[0]), events[1..]);
    }
  }

  /** Once a cancelled job's processes have all ended, it has given its lock back or a pending timeout will see to it,
      exactly unless reading the command to run after the backup raised an exception at a moment when no other process
      was watched.  A timeout is still pending then only if starting that command broke off with an exception. */
  lemma LockIsGivenBack(before: seq<Event>, e: Event, after: seq<Event>)
    requires var j := Run(CREATED, before); !j.cancelled && Applied(j, e).cancelled
    requires Run(Applied(Run(CREATED, before), e), after).watched == {}
    ensures var j := Run(CREATED, before);
            var l := Run(Applied(j, e), after);
            && (Release in l.log || l.timer == PostTimer <==> PostOf(e) != PostRaises || StillWatched(j, e) != {})
            && (l.timer == PostTimer ==> PostOf(e) == PostBreaks)
  {
    var j := Run(CREATED, before);
    var k := Applied(j, e);
    RunGood(CREATED, before);
    AppliedGood(j, e);
    CancellingStops(j, e);
    EndIsForEver(k, after);
    if Run(k, after).timer == PostTimer {
      PendingMeansUntouched(k, after);
    }
    if PostOf(e) == NoPost {
      assert k.log[|k.log| - 2] == k.log[|k.log| - 2..][0];
    } else {
      QuietHasNone(k.log);
    }
  }

  /** Nothing more will happen to a cancelled job: its processes have ended and no timeout is pending. */
  predicate AtRest(j: Job) {
    j.watched == {} && j.timer == NoTimer
  }

  /** It happens: the key process fails while the plan's command for afterwards cannot be read.  The job is over and
      at rest, and the lock it has taken stays. */
  lemma LockIsLost(w: World, v: World)
    requires !w.hasPre && w.mkdir(WAITING) && w.step(KEYGEN) == Waits && !v.exitOk && v.post == PostRaises
    ensures var j := Run(CREATED, [Started(w), Ended(0, v)]);
            j.cancelled && AtRest(j) && Acquire in j.log && Release !in j.log
  {
    var j := Applied(CREATED, Started(w));
    assert j.log == [Acquire, Update(WAITING, KEYGEN)] && j.watched == {0} && j.proc == Some(0);
    var k := Applied(j, Ended(0, v));
    assert k.log == j.log + [Update(KEYGEN, ERROR)] && k.log[0] == Acquire;
    RunTwo(CREATED, Started(w), Ended(0, v));
  }

  lemma RunTwo(j: Job, a: Event, b: Event)
    ensures Run(j, [a, b]) == Applied(Applied(j, a), b)
  {
    assert [a, b][1..] == [b] && [b][1..] == [];
    assert Run(Applied(j, a), [b]) == Run(Applied(Applied(j, a), b), []);
  }

  // ---- how often the end is announced ----------------------------------------------------

  /** How often the timeout of the command after the backup fires. */
  function PostFirings(j: Job, events: seq<Event>): nat
    decreases events
  {
    if events == [] then 0
    else
      (if events[0].TimedOut? && j.timer == PostTimer then 1 else 0)
      + PostFirings(Applied(j, events[0]), events[1..])
  }

  lemma EndCounted(j: Job, e: Event)
    requires Good(j) && Settled(j) && j.cancelled
    ensures var k := Applied(j, e);
            && Finals(k.log) + |k.watched|
            == Finals(j.log) + |j.watched| + (if e.TimedOut? && j.timer == PostTimer then 1 else 0)
            && (k.timer == PostTimer ==> j.timer == PostTimer)
            && (e.TimedOut? ==> k.timer == NoTimer)
  {
    OneFinalMore(j.log, j.state);
  }

  lemma {:induction false} EndsCounted(j: Job, events: seq<Event>)
    requires Good(j) && Settled(j) && j.cancelled
    ensures var k := Run(j, events);
            Finals(k.log) + |k.watched| == Finals(j.log) + |j.watched| + PostFirings(j, events)
    ensures PostFirings(j, events) <= if j.timer == PostTimer then 1 else 0
    decreases events
  {
    if events != [] {
      AppliedGood(j, events[0]);
      EndIsRepeated(j, events[0]);
      EndCounted(j, events[0]);
      EndsCounted(Applied(j, events[0]), events[1..]);
    }
  }

  /** The announcements that a cancellation makes or leaves to the process that it starts. */
  function Owed(post: Post): nat {
    if post == NoPost || post == PostStarts then 1 else 0
  }

  lemma OwedAtStop(k: Job, watched: set<nat>, post: Post)
    requires JustStopped(k, watched, post)
    ensures Finals(k.log) + |k.watched| == Owed(post) + |watched|
  {
    if post == NoPost {
      var quiet := k.log[..|k.log| - 2];
      QuietHasNone(quiet);
      OneFinalMore(quiet, k.state);
      assert k.log == quiet + [Release, Final(k.state)];
    } else {
      QuietHasNone(k.log);
    }
  }

  /** The end of a cancelled job is announced once unless the command after the backup raises an exception, once more
      for the process that was still watched, and once more when the timeout of that command fires: so many times it
      has been announced when the job is at rest, and as many less before as processes are still watched. */
  lemma EndIsAnnounced(before: seq<Event>, e: Event, after: seq<Event>)
    requires var j := Run(CREATED, before); !j.cancelled && Applied(j, e).cancelled
    ensures var j := Run(CREATED, before);
            var k := Applied(j, e);
            var l := Run(k, after);
            && Finals(l.log) + |l.watched| == Owed(PostOf(e)) + |StillWatched(j, e)| + PostFirings(k, after)
            && |StillWatched(j, e)| <= 1 && PostFirings(k, after) <= 1
  {
    var j := Run(CREATED, before);
    var k := Applied(j, e);
    RunGood(CREATED, before);
    AppliedGood(j, e);
    CancellingStops(j, e);
    EndsCounted(k, after);
    OwedAtStop(k, StillWatched(j, e), PostOf(e));
    assert StillWatched(j, e) <= if j.proc.Some? then {j.proc.value} else {};
    AtMostOne(StillWatched(j, e), if j.proc.Some? then j.proc.value else 0);
  }

  lemma AtMostOne(s: set<nat>, p: nat)
    requires s <= {p}
    ensures |s| <= 1
  {
    assert s == {} || s == {p};
  }

  /** So the end of a job at rest has been announced exactly once if and only if just one of these came about. */
  lemma AnnouncedOnceWhen(before: seq<Event>, e: Event, after: seq<Event>)
    requires var j := Run(CREATED, before); !j.cancelled && Applied(j, e).cancelled
    requires AtRest(Run(Applied(Run(CREATED, before), e), after))
    ensures var j := Run(CREATED, before);
            var k := Applied(j, e);
            Finals(Run(k, after).log) == 1 <==>
              if PostOf(e) == NoPost || PostOf(e) == PostStarts then
                StillWatched(j, e) == {} && PostFirings(k, after) == 0
              else
                StillWatched(j, e) != {} <==> PostFirings(k, after) == 0
  {
    EndIsAnnounced(before, e, after);
    var j := Run(CREATED, before);
    assert StillWatched(j, e) == {} <==> |StillWatched(j, e)| == 0;
  }

  /** The lock is asked for at most once, before anything else, and so never after the end. */
  lemma LockIsTakenOnce(events: seq<Event>, k: nat)
    requires k < |Run(CREATED, events).log| && Run(CREATED, events).log[k] == Acquire
    ensures k == 0
  {
    RunGood(CREATED, events);
  }

  /** A job that has started and has not ended always has a timeout pending, which ends it: not even an exception
      in a step leaves it hanging. */
  lemma TimeoutEndsTheJob(events: seq<Event>, w: World)
    requires var j := Run(CREATED, events); !j.cancelled && j.state != WAITING
    ensures var j := Applied(Run(CREATED, events), TimedOut(w)); j.cancelled && j.state == ERROR
  {
    RunGood(CREATED, events);
  }

  // ---- what DONE means -------------------------------------------------------------------

  lemma {:induction false} NotDoneBeforePacking(j: Job, w: World)
    requires Possible(w) && !j.cancelled && j.state < PACKING
    ensures Advanced(j, w).state != DONE
    decreases UPLOADING - j.state, 1
  {
    var k := j.(timer := StepTimer, log := if j.state == WAITING then j.log + [Acquire] else j.log);
    if j.state == WAITING && w.hasPre {
      NotDoneAfter(k, PRE_CMD, w);
    } else if (j.state <= PRE_CMD && !w.mkdir(j.state)) || (j.proc.Some? && !w.exitOk) {
    } else {
      NotDoneAfter(k.(proc := None), Successor(j.state), w);
    }
  }

  lemma {:induction false} NotDoneAfter(j: Job, s: nat, w: World)
    requires Possible(w) && !j.cancelled && j.state < s <= PACKING
    ensures Entered(j, s, w).state != DONE
    decreases UPLOADING - j.state, 0
  {
    if w.step(s) == Continues {
      var k := Updated(j, s);
      NotDoneBeforePacking(if s == KEYGEN then Updated(k, NO_KEYGEN) else k, w);
    }
  }

  ghost predicate EventPossible(e: Event) {
    match e
    case Started(w) => Possible(w)
    case Ended(_, w) => Possible(w)
    case TimedOut(w) => Possible(w)
    case StopAsked(_, w) => Possible(w)
    case Suspended(_) => true
    case Resumed(_) => true
  }

  lemma AdvancedDone(j: Job, w: World)
    requires Possible(w) && !j.cancelled && j.state <= UPLOADING && j.proc.Some?
    ensures Advanced(j, w).state == DONE <==>
              w.exitOk && w.cleans && (j.state == UPLOADING || (j.state == PACKING && w.step(UPLOADING) == Continues))
  {
    if j.state < PACKING {
      NotDoneBeforePacking(j, w);
    } else if j.state == PACKING && w.exitOk {
      var k := j.(timer := StepTimer, proc := None);
      assert Advanced(j, w) == Entered(k, UPLOADING, w);
      if w.step(UPLOADING) == Continues {
        assert Entered(k, UPLOADING, w) == Advanced(Updated(k, UPLOADING), w);
      }
    }
  }

  /** A live job becomes done when its upload ends well or there is nothing to upload to, and the old backups can be
      looked through, and also when it is asked to stop, without force, while the upload is still going on. */
  lemma BecomesDoneWhen(j: Job, e: Event)
    requires Good(j) && Settled(j) && !j.cancelled && EventPossible(e)
    ensures Applied(j, e).state == DONE <==>
      || (e.Ended? && e.pid in j.watched && e.w.exitOk && e.w.cleans
          && (j.state == UPLOADING || (j.state == PACKING && e.w.step(UPLOADING) == Continues)))
      || (e.StopAsked? && !e.force && j.state == UPLOADING)
  {
    if e.Started? && j == CREATED {
      NotDoneBeforePacking(j, e.w);
    } else if e.Ended? && e.pid in j.watched {
      AdvancedDone(j.(watched := j.watched - {e.pid}), e.w);
    }
  }

  // ---- what a call meets -----------------------------------------------------------------

  /** Message `i` or a later one announces state `s`. */
  predicate Told(log: seq<Msg>, i: nat, s: nat) {
    exists k :: i <= k < |log| && log[k].Update? && log[k].state == s
  }

  /** The states whose steps have an outcome of their own. */
  predicate IsStep(s: nat) {
    s <= UPLOADING && s != NO_KEYGEN
  }

  /** A step that message `i` or a later one announces fails. */
  ghost predicate StepFails(w: World, log: seq<Msg>, i: nat) {
    exists s :: IsStep(s) && Told(log, i, s) && w.step(s) == Fails
  }

  /** What step `s` has made of a job that began the call as `j`. */
  predicate Heeded(j: Job, w: World, s: nat, k: Job) {
    match w.step(s)
    case Waits => k.state == s && !k.cancelled && k.proc == Some(j.pids) && k.watched == j.watched + {j.pids}
    case Raises => k.state == s && !k.cancelled && k.proc == None && k.watched == j.watched
    case Fails => k.state == ERROR
    case Continues => s < k.state || (s == UPLOADING && !w.cleans && k.state == s && !k.cancelled)
  }

  /** Every step that the call announces has its own outcome, and none comes after one that does not continue. */
  ghost predicate AllHeeded(j: Job, w: World, k: Job) {
    forall s :: IsStep(s) && Told(k.log, |j.log|, s) ==> Heeded(j, w, s, k)
  }

  lemma ToldNext(log: seq<Msg>, was: seq<Msg>, m: Msg)
    requires was + [m] <= log
    ensures forall s :: Told(log, |was|, s) <==> (m.Update? && m.state == s) || Told(log, |was| + 1, s)
  {
    assert log[|was|] == m;
  }

  lemma StoppedTells(j: Job, force: bool, post: Post)
    ensures forall s :: !Told(Stopped(j, force, post).log, |j.log|, s)
  {
  }

  lemma FailedTells(j: Job, post: Post)
    requires !j.cancelled
    ensures forall s :: Told(Failed(j, post).log, |j.log|, s) ==> s == ERROR
  {
    ToldNext(Failed(j, post).log, j.log, Update(j.state, ERROR));
    StoppedTells(Updated(j, ERROR), true, post);
  }

  lemma {:induction false} AdvancedMeets(j: Job, w: World)
    requires !j.cancelled && WAITING < j.state <= UPLOADING
    ensures var k := Advanced(j, w);
      && (k.state == ERROR <==>
          (j.state == PRE_CMD && !w.mkdir(PRE_CMD)) || (j.proc.Some? && !w.exitOk) || StepFails(w, k.log, |j.log|))
      && (j.state < k.state || (j.state == UPLOADING && !w.cleans && k.state == j.state && !k.cancelled))
      && (forall s :: Told(k.log, |j.log|, s) ==> j.state < s)
      && AllHeeded(j, w, k)
    decreases UPLOADING - j.state, 1
  {
    var i := j.(timer := StepTimer);
    if j.state == PRE_CMD && !w.mkdir(PRE_CMD) {
      StoppedTells(i, true, w.post);
    } else if j.proc.Some? && !w.exitOk {
      FailedTells(i, w.post);
    } else if j.state == UPLOADING {
      StoppedTells(i.(proc := None), false, w.post);
    } else {
      EnteredMeets(i.(proc := None), Successor(j.state), w);
    }
  }

  lemma {:induction false} EnteredMeets(j: Job, s: nat, w: World)
    requires !j.cancelled && j.proc == None && j.state < s && IsStep(s)
    ensures var k := Entered(j, s, w);
      && (k.state == ERROR <==>
          (s == PRE_CMD && w.step(PRE_CMD) == Continues && !w.mkdir(PRE_CMD)) || StepFails(w, k.log, |j.log|))
      && s <= k.state && Told(k.log, |j.log|, s)
      && (forall t :: Told(k.log, |j.log|, t) ==> s <= t)
      && AllHeeded(j, w, k)
    decreases UPLOADING - j.state, 0
  {
    var i, k := Updated(j, s), Entered(j, s, w);
    EnteredTells(j, s, w);
    if w.step(s) == Fails {
      FailedTells(i, w.post);
    } else if w.step(s) == Continues {
      var next := if s == KEYGEN then Updated(i, NO_KEYGEN) else i;
      AdvancedMeets(next, w);
    }
  }

  /** What a step announces itself. */
  lemma EnteredTells(j: Job, s: nat, w: World)
    requires j.state < s && IsStep(s)
    ensures var i, k := Updated(j, s), Entered(j, s, w);
      && (forall t :: Told(k.log, |j.log|, t) <==> t == s || Told(k.log, |i.log|, t))
      && (s == KEYGEN && w.step(s) == Continues ==>
            forall t :: Told(k.log, |i.log|, t) <==> t == NO_KEYGEN || Told(k.log, |i.log| + 1, t))
  {
    var i, k := Updated(j, s), Entered(j, s, w);
    if w.step(s) == Continues {
      AdvancedGrows(if s == KEYGEN then Updated(i, NO_KEYGEN) else i, w);
    }
    ToldNext(k.log, j.log, Update(j.state, s));
    if s == KEYGEN && w.step(s) == Continues {
      ToldNext(k.log, i.log, Update(KEYGEN, NO_KEYGEN));
    }
  }

  /** A job that is started or whose process has ended: what `_next` is called for. */
  predicate Moves(j: Job, e: Event) {
    (e.Started? && j == CREATED) || (e.Ended? && e.pid in j.watched)
  }

  /** Something goes wrong in the call: the process that has ended had failed, the directory cannot be made, or a step
      that the call announces fails. */
  ghost predicate Trouble(j: Job, e: Event)
    requires e.Started? || e.Ended?
  {
    var k := Applied(j, e);
    || (e.Ended? && !e.w.exitOk)
    || (j.state == WAITING && !e.w.hasPre && !e.w.mkdir(WAITING))
    || (!e.w.mkdir(PRE_CMD)
        && (j.state == PRE_CMD || (Told(k.log, |j.log|, PRE_CMD) && e.w.step(PRE_CMD) == Continues)))
    || StepFails(e.w, k.log, |j.log|)
  }

  lemma StartMeets(w: World)
    ensures var k := Advanced(CREATED, w);
      && (k.state == ERROR <==>
          || (!w.hasPre && !w.mkdir(WAITING))
          || (!w.mkdir(PRE_CMD) && Told(k.log, 0, PRE_CMD) && w.step(PRE_CMD) == Continues)
          || StepFails(w, k.log, 0))
      && AllHeeded(CREATED, w, k)
  {
    var i, k := CREATED.(timer := StepTimer, log := [Acquire]), Advanced(CREATED, w);
    if w.hasPre {
      StartEnters(PRE_CMD, w);
    } else if !w.mkdir(WAITING) {
      assert k == Stopped(i, true, w.post) && [] + [Acquire] == [Acquire] <= k.log;
      StoppedTells(i, true, w.post);
      ToldNext(k.log, [], Acquire);
    } else {
      StartEnters(KEYGEN, w);
    }
  }

  lemma StartEnters(s: nat, w: World)
    requires if w.hasPre then s == PRE_CMD else w.mkdir(WAITING) && s == KEYGEN
    ensures var k := Advanced(CREATED, w);
      && (k.state == ERROR <==>
          (s == PRE_CMD && w.step(PRE_CMD) == Continues && !w.mkdir(PRE_CMD)) || StepFails(w, k.log, 0))
      && (forall t :: Told(k.log, 0, t) ==> s <= t) && Told(k.log, 0, s)
      && AllHeeded(CREATED, w, k)
  {
    var i, k := CREATED.(timer := StepTimer, log := [Acquire]), Advanced(CREATED, w);
    assert [] + [Acquire] == [Acquire] && i.(proc := None) == i;
    assert k == Entered(i, s, w);
    EnteredMeets(i, s, w);
    EnteredGrows(i, s, w);
    ToldNext(k.log, [], Acquire);
  }

  /** A call on a live job ends it in ERROR exactly when something goes wrong in it; and every step that it announces
      has come out as it did: one that waits has its process watched, and the call stops there. */
  lemma CallFailsWhen(j: Job, e: Event)
    requires Good(j) && Settled(j) && !j.cancelled && Moves(j, e)
    ensures Applied(j, e).state == ERROR <==> Trouble(j, e)
    ensures AllHeeded(j.(watched := {}), e.w, Applied(j, e))
  {
    if e.Started? {
      StartMeets(e.w);
    } else {
      assert j.watched - {e.pid} == {};
      AdvancedMeets(j.(watched := {}), e.w);
    }
  }

  lemma {:induction false} AdvancedPauses(j: Job, w: World)
    requires !j.cancelled && j.state <= UPLOADING
    ensures var k := Advanced(j, w); k.paused <==> j.paused && k.state == j.state
    decreases UPLOADING - j.state, 1
  {
    var k := j.(timer := StepTimer, log := if j.state == WAITING then j.log + [Acquire] else j.log);
    if j.state == WAITING && w.hasPre {
      EnteredPauses(k, PRE_CMD, w);
    } else if (j.state <= PRE_CMD && !w.mkdir(j.state)) || (j.proc.Some? && !w.exitOk) || j.state == UPLOADING {
    } else {
      EnteredPauses(k.(proc := None), Successor(j.state), w);
    }
  }

  lemma {:induction false} EnteredPauses(j: Job, s: nat, w: World)
    requires !j.cancelled && j.state < s <= UPLOADING
    ensures var k := Entered(j, s, w); !k.paused && j.state < k.state
    decreases UPLOADING - j.state, 0
  {
    if w.step(s) == Continues {
      var k := Updated(j, s);
      var next := if s == KEYGEN then Updated(k, NO_KEYGEN) else k;
      AdvancedPauses(next, w);
      AdvancedMeets(next, w);
    }
  }

  /** A pause begins with a suspension that could be signalled, and lasts until one that could be resumed or until the
      job's state changes. */
  lemma PausedWhen(j: Job, e: Event)
    requires Good(j) && Settled(j)
    ensures Applied(j, e).paused <==>
      (e.Suspended? && e.signalled) || (j.paused && !(e.Resumed? && e.signalled) && Applied(j, e).state == j.state)
  {
    if !j.cancelled && Moves(j, e) {
      AdvancedPauses(if e.Ended? then j.(watched := j.watched - {e.pid}) else j, e.w);
    }
  }

  /** In particular a process that has failed ends its job, whatever the state. */
  lemma FailedProcessEnds(j: Job, pid: nat, w: World)
    requires Good(j) && Settled(j) && !j.cancelled && pid in j.watched && !w.exitOk
    ensures Applied(j, Ended(pid, w)).cancelled && Applied(j, Ended(pid, w)).state == ERROR
  {
    CallFailsWhen(j, Ended(pid, w));
    AppliedGood(j, Ended(pid, w));
  }

  /** The state that follows a process that has ended well. */
  function Follows(s: nat): nat {
    if s == PRE_CMD then KEYGEN
    else if s == KEYGEN then ENCRYPT_COMPRESS
    else if s == ENCRYPT_COMPRESS || s == COMPRESS then HASHING_P1
    else if s == HASHING_P1 then HASHING_P2
    else UPLOADING
  }

  /** A process that has ended well is followed by the next step: behind a key comes encryption. */
  lemma GoodProcessGoesOn(j: Job, pid: nat, w: World)
    requires Good(j) && Settled(j) && !j.cancelled && pid in j.watched && w.exitOk
    requires j.state in {PRE_CMD, KEYGEN, ENCRYPT_COMPRESS, COMPRESS, HASHING_P1, PACKING}
    requires j.state == PRE_CMD ==> w.mkdir(PRE_CMD)
    ensures j.log + [Update(j.state, Follows(j.state))] <= Applied(j, Ended(pid, w)).log
  {
    var i := j.(watched := j.watched - {pid}, timer := StepTimer, proc := None);
    var s := Successor(j.state);
    assert Applied(j, Ended(pid, w)) == Entered(i, s, w);
    if w.step(s) == Continues {
      AdvancedGrows(if s == KEYGEN then Updated(Updated(i, s), NO_KEYGEN) else Updated(i, s), w);
    }
  }

  lemma {:induction false} RunSplit(j: Job, events: seq<Event>, k: nat)
    requires k < |events|
    ensures Run(j, events) == Run(Applied(Run(j, events[..k]), events[k]), events[k + 1..])
    decreases k
  {
    if k > 0 {
      RunSplit(Applied(j, events[0]), events[1..], k - 1);
      assert events[..k][1..] == events[1..][..k - 1] && events[1..][k..] == events[k + 1..];
    }
  }

  /** So nothing has gone wrong on the way to DONE: every process whose end moved the job had done well, every
      directory could be made, and no step failed. */
  lemma DoneMetNoTrouble(events: seq<Event>, k: nat)
    requires Run(CREATED, events).state == DONE && k < |events|
    requires var j := Run(CREATED, events[..k]); !j.cancelled && Moves(j, events[k])
    ensures !Trouble(Run(CREATED, events[..k]), events[k])
  {
    var j := Run(CREATED, events[..k]);
    RunGood(CREATED, events[..k]);
    RunSplit(CREATED, events, k);
    CallFailsWhen(j, events[k]);
    AppliedGood(j, events[k]);
    if Applied(j, events[k]).cancelled {
      EndIsForEver(Applied(j, events[k]), events[k + 1..]);
    }
  }

  /** For instance, a running job that is asked to stop announces its end at once, and again with the end of its
      process. */
  lemma EndIsAnnouncedTwice(j: Job, pid: nat, w: World, v: World)
    requires Good(j) && Settled(j) && !j.cancelled && j.proc == Some(pid) && w.post == NoPost
    ensures Run(j, [StopAsked(true, w), Ended(pid, v)]).log == j.log + [Release, Final(ERROR), Release, Final(ERROR)]
  {
    RunTwo(j, StopAsked(true, w), Ended(pid, v));
  }

  /** A step whose process has ended well is followed by the next one's process. */
  lemma StepFollows(j: Job, w: World)
    requires !j.cancelled && PRE_CMD < j.state < UPLOADING && j.proc == Some(j.pids - 1) && j.watched == {j.pids - 1}
    requires w.exitOk && w.step(Successor(j.state)) == Waits
    ensures var k := Applied(j, Ended(j.pids - 1, w));
            && k.state == Successor(j.state) && !k.cancelled
            && k.pids == j.pids + 1 && k.proc == Some(j.pids) && k.watched == {j.pids}
  {
    assert j.watched - {j.pids - 1} == {};
    var i := j.(watched := {});
    assert Applied(j, Ended(j.pids - 1, w)) == Advanced(i, w);
    assert Advanced(i, w) == Entered(i.(timer := StepTimer, proc := None), Successor(j.state), w);
  }

  /** After the first hash come the second, without a process, and the packing. */
  lemma PackingFollows(j: Job, w: World)
    requires !j.cancelled && j.state == HASHING_P1 && j.proc == Some(j.pids - 1) && j.watched == {j.pids - 1}
    requires w.exitOk && w.step(HASHING_P2) == Continues && w.step(PACKING) == Waits
    ensures var k := Applied(j, Ended(j.pids - 1, w));
            && k.state == PACKING && !k.cancelled
            && k.pids == j.pids + 1 && k.proc == Some(j.pids) && k.watched == {j.pids}
  {
    assert j.watched - {j.pids - 1} == {};
    var i := j.(watched := {});
    assert Applied(j, Ended(j.pids - 1, w)) == Advanced(i, w);
    var k := i.(timer := StepTimer, proc := None);
    assert Advanced(i, w) == Entered(k, HASHING_P2, w) == Advanced(Updated(k, HASHING_P2), w);
    assert Advanced(Updated(k, HASHING_P2), w) == Entered(Updated(k, HASHING_P2), PACKING, w);
  }

  /** And an upload that is cut short makes the job done: four steps with a process go well, the fifth, the upload, is
      still running when the job is asked to stop without force. */
  lemma CutUploadIsDone(w: World)
    requires !w.hasPre && w.mkdir(WAITING) && w.exitOk && w.post == NoPost
    requires forall s :: w.step(s) == if s == HASHING_P2 then Continues else Waits
    ensures var j := Run(CREATED, [Started(w), Ended(0, w), Ended(1, w), Ended(2, w), Ended(3, w)]);
            j.state == UPLOADING && j.proc == Some(4) && j.watched == {4}
            && Applied(j, StopAsked(false, w)).state == DONE && 4 in Applied(j, StopAsked(false, w)).watched
  {
    var a := Applied(CREATED, Started(w));
    assert a.state == KEYGEN && a.proc == Some(0) && a.watched == {0} && a.pids == 1;
    var b := Applied(a, Ended(0, w));
    StepFollows(a, w);
    var c := Applied(b, Ended(1, w));
    StepFollows(b, w);
    var d := Applied(c, Ended(2, w));
    PackingFollows(c, w);
    var last := [Ended(2, w), Ended(3, w)];
    var events := [Started(w), Ended(0, w), Ended(1, w)] + last;
    assert events[1..] == [Ended(0, w), Ended(1, w)] + last && events[1..][1..] == [Ended(1, w)] + last;
    assert events[1..][1..][1..] == last;
    assert Run(a, events[1..]) == Run(c, last);
    assert Run(CREATED, events) == Run(a, events[1..]);
    assert events == [Started(w), Ended(0, w), Ended(1, w), Ended(2, w), Ended(3, w)];
    StepFollows(d, w);
    RunTwo(c, Ended(2, w), Ended(3, w));
  }
}
