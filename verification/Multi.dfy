/** `Multi` of backup.py: a list of commands run one after the other by polling. */
module Multi {
  import opened Wrappers

  datatype Event = Started(cmd: string) | Exited(status: int)

  /** The commands still to come, whether a failing one ends the list, and what has happened so far. */
  datatype State = State(left: seq<string>, stopError: bool, log: seq<Event>)

  /** What comes of starting a command: it runs; it fails with an OSError; or another exception is raised, as for an
      empty list of words. */
  datatype Launch = Runs | Fails | Raises

  /** What a poll returns: nothing yet, or a status; or an exception leaves it. */
  datatype Answer = Pending | Status(value: int) | Broken

  /** One `poll`: `exit` is the status of the running command once it has ended, `launch` what comes of starting the
      next one.  A command that cannot be started is dropped and its predecessor's status returned. */
  function Polled(s: State, exit: Option<int>, launch: Launch): (State, Answer) {
    if exit.None? then (s, Pending)
    else
      var ended := s.(log := s.log + [Exited(exit.value)]);
      if s.left == [] || (s.stopError && exit.value != 0) then (ended, Status(exit.value))
      else
        match launch
        case Runs => (ended.(left := s.left[1..], log := ended.log + [Started(s.left[0])]), Pending)
        case Fails => (ended.(left := s.left[1..]), Status(exit.value))
        case Raises => (ended.(left := s.left[1..]), Broken)
  }

  class Multi {
    var cmds: seq<string>
    var stopError: bool
    ghost var log: seq<Event>

    ghost function View(): State
      reads this
    {
      State(cmds, stopError, log)
    }

    /** The first command has been started; the constructor of the source raises when it cannot be. */
    constructor (cmds: seq<string>, stopError: bool)
      requires cmds != []
      ensures View() == Begun(cmds, stopError)
    {
      this.cmds, this.stopError := cmds[1..], stopError;
      log := [Started(cmds[0])];
    }

    method Poll(exit: Option<int>, launch: Launch) returns (r: Answer)
      modifies this
      ensures (View(), r) == Polled(old(View()), exit, launch)
    {
      if exit.None? {
        return Pending;
      }
      log := log + [Exited(exit.value)];
      if |cmds| == 0 || (stopError && exit.value != 0) {
        return Status(exit.value);
      }
      var next := cmds[0];
      cmds := cmds[1..];
      match launch
      case Fails => return Status(exit.value);
      case Raises => return Broken;
      case Runs =>
        log := log + [Started(next)];
        return Pending;
    }

    /** Kills the running command and forgets the rest. */
    method Stop()
      modifies this
      ensures View() == old(View()).(left := [])
    {
      cmds := [];
    }
  }

  function Begun(cmds: seq<string>, stopError: bool): State
    requires cmds != []
  {
    State(cmds[1..], stopError, [Started(cmds[0])])
  }

  /** Polls until there is a result.  Entry `j` of `exited` says whether poll `j` finds the running command
      ended; command `k` ends with `codes(k)`, and `launches(k)` is what comes of starting it. */
  function Run(s: State, k: nat, exited: seq<bool>, codes: nat -> int, launches: nat -> Launch): (State, Answer)
    decreases exited
  {
    if exited == [] then (s, Pending)
    else if !exited[0] then Run(s, k, exited[1..], codes, launches)
    else
      var (t, r) := Polled(s, Some(codes(k)), launches(k + 1));
      if !r.Pending? then (t, r) else Run(t, k + 1, exited[1..], codes, launches)
  }

  // ---- the list as a loop ----------------------------------------------------------------

  /** Command `k` of `n` is followed by the next one. */
  predicate GoesOn(n: nat, stopError: bool, codes: nat -> int, launches: nat -> Launch, k: nat) {
    k + 1 < n && (stopError ==> codes(k) == 0) && launches(k + 1).Runs?
  }

  /** An exception comes of starting the one after command `k` of `n`. */
  predicate BreaksOff(n: nat, stopError: bool, codes: nat -> int, launches: nat -> Launch, k: nat) {
    k + 1 < n && (stopError ==> codes(k) == 0) && launches(k + 1).Raises?
  }

  /** The position of the last command that runs. */
  function Last(n: nat, stopError: bool, codes: nat -> int, launches: nat -> Launch, k: nat): (last: nat)
    requires k < n
    ensures k <= last < n
    decreases n - k
  {
    if GoesOn(n, stopError, codes, launches, k) then Last(n, stopError, codes, launches, k + 1) else k
  }

  /** What is still to happen while command `k` runs, when `m` is the last one. */
  function After(cmds: seq<string>, codes: nat -> int, k: nat, m: nat): (events: seq<Event>)
    requires k <= m < |cmds|
    ensures events != []
    decreases m - k
  {
    [Exited(codes(k))] + if k == m then [] else [Started(cmds[k + 1])] + After(cmds, codes, k + 1, m)
  }

  /** Commands 0 to `m` run one after the other. */
  function Sequence(cmds: seq<string>, codes: nat -> int, m: nat): seq<Event>
    requires m < |cmds|
  {
    [Started(cmds[0])] + After(cmds, codes, 0, m)
  }

  lemma TwoMore(log: seq<Event>, a: Event, b: Event, rest: seq<Event>)
    ensures log + [a] + [b] + rest == log + ([a] + ([b] + rest))
  {
  }

  lemma {:induction false} RunFrom(
    cmds: seq<string>, stopError: bool, k: nat, log: seq<Event>, exited: seq<bool>, codes: nat -> int,
    launches: nat -> Launch)
    requires k < |cmds|
    ensures var last := Last(|cmds|, stopError, codes, launches, k);
            var (t, r) := Run(State(cmds[k + 1..], stopError, log), k, exited, codes, launches);
            var all := log + After(cmds, codes, k, last);
            && t.log <= all && (!r.Pending? <==> t.log == all) && (r.Status? ==> r.value == codes(last))
            && (!r.Pending? ==> (r.Broken? <==> BreaksOff(|cmds|, stopError, codes, launches, last)))
    decreases |exited|
  {
    var last := Last(|cmds|, stopError, codes, launches, k);
    if exited == [] {
    } else if !exited[0] {
      RunFrom(cmds, stopError, k, log, exited[1..], codes, launches);
    } else if last == k {
      assert [Exited(codes(k))] + [] == [Exited(codes(k))];
    } else {
      var a, b := Exited(codes(k)), Started(cmds[k + 1]);
      assert cmds[k + 1..][0] == cmds[k + 1] && cmds[k + 1..][1..] == cmds[k + 2..];
      TwoMore(log, a, b, After(cmds, codes, k + 1, last));
      RunFrom(cmds, stopError, k + 1, log + [a] + [b], exited[1..], codes, launches);
    }
  }

  /** However it is polled, the runner has done a beginning of the plain loop over the list: each command once, in
      order, none before its predecessor has ended.  It is done exactly when that loop is over, and then reports the
      status of the last command that ran, unless starting the next one raises an exception that is no OSError. */
  lemma PollingRefinesTheLoop(
    cmds: seq<string>, stopError: bool, exited: seq<bool>, codes: nat -> int, launches: nat -> Launch)
    requires cmds != []
    ensures var last := Last(|cmds|, stopError, codes, launches, 0);
            var (t, r) := Run(Begun(cmds, stopError), 0, exited, codes, launches);
            && t.log <= Sequence(cmds, codes, last)
            && (!r.Pending? <==> t.log == Sequence(cmds, codes, last))
            && (!r.Pending? ==>
                  r == if BreaksOff(|cmds|, stopError, codes, launches, last) then Broken else Status(codes(last)))
  {
    RunFrom(cmds, stopError, 0, [Started(cmds[0])], exited, codes, launches);
  }

  /** The commands that run are the shortest beginning of the list whose last one is not followed by another. */
  lemma {:induction false} LastIsTheFirstToStop(
    n: nat, stopError: bool, codes: nat -> int, launches: nat -> Launch, k: nat, last: nat)
    requires k <= last < n
    ensures Last(n, stopError, codes, launches, k) == last <==>
              (forall j :: k <= j < last ==> GoesOn(n, stopError, codes, launches, j))
              && !GoesOn(n, stopError, codes, launches, last)
    decreases n - k
  {
    if GoesOn(n, stopError, codes, launches, k) && k < last {
      LastIsTheFirstToStop(n, stopError, codes, launches, k + 1, last);
    }
  }

  /** Command `j` has ended without an error, if errors stop the list, and the next one can be started. */
  predicate LetsNextRun(stopError: bool, codes: nat -> int, launches: nat -> Launch, j: nat) {
    (stopError ==> codes(j) == 0) && launches(j + 1).Runs?
  }

  /** Command `k` runs exactly when every one before it has ended without an error, if errors stop the list, and
      every one from the second to it could be started. */
  lemma {:induction false} RunsWhen(
    n: nat, stopError: bool, codes: nat -> int, launches: nat -> Launch, i: nat, k: nat)
    requires i <= k < n
    ensures k <= Last(n, stopError, codes, launches, i) <==>
      forall j :: i <= j < k ==> LetsNextRun(stopError, codes, launches, j)
    decreases n - i
  {
    assert i < k ==> (GoesOn(n, stopError, codes, launches, i) <==> LetsNextRun(stopError, codes, launches, i));
    if i < k && GoesOn(n, stopError, codes, launches, i) {
      RunsWhen(n, stopError, codes, launches, i + 1, k);
    }
  }

  /** A list that stops on errors and reports success has run to its end exactly when every command could be
      started: a command that cannot be started makes the whole list report its predecessor's success. */
  lemma SuccessMeansAllRan(n: nat, codes: nat -> int, launches: nat -> Launch)
    requires n > 0 && codes(Last(n, true, codes, launches, 0)) == 0
    ensures Last(n, true, codes, launches, 0) == n - 1 <==> forall j :: 0 < j < n ==> launches(j).Runs?
  {
    var last := Last(n, true, codes, launches, 0);
    LastIsTheFirstToStop(n, true, codes, launches, 0, last);
    assert last < n - 1 ==> !launches(last + 1).Runs?;
    if last == n - 1 {
      forall j | 0 < j < n ensures launches(j).Runs? {
        assert GoesOn(n, true, codes, launches, j - 1);
      }
    }
  }

  /** For instance: two commands of which the second cannot be started report the first one's status, 0. */
  lemma MissingCommandReportsSuccess(a: string, b: string)
    ensures Run(Begun([a, b], true), 0, [true], (k: nat) => 0, (k: nat) => Fails)
         == (State([], true, [Started(a), Exited(0)]), Status(0))
  {
    assert Begun([a, b], true) == State([b], true, [Started(a)]) by {
      assert [a, b][1..] == [b];
    }
    assert [b][1..] == [] && [Started(a)] + [Exited(0)] == [Started(a), Exited(0)];
  }

  /** After `stop` no further command is ever started. */
  lemma {:induction false} NothingStartsAfterStop(
    s: State, k: nat, exited: seq<bool>, codes: nat -> int, launches: nat -> Launch)
    requires s.left == []
    ensures Run(s, k, exited, codes, launches).0.log <= s.log + [Exited(codes(k))]
  {
    if exited != [] && !exited[0] {
      NothingStartsAfterStop(s, k, exited[1..], codes, launches);
    }
  }
}
