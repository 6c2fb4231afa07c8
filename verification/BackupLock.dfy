/** The lock against sleep that a backup takes: the messages of a job, handled by the locker module. */
module BackupLock {
  import J = BackupJob
  import L = Locker
  import opened Wrappers

  /** The locker module handles one message of a job. */
  function Handled(t: L.Table, m: J.Msg, now: int): L.Table {
    match m
    case Acquire => L.Added(t, L.Backup, L.Forever, true, now).0
    case Release => L.Added(t, L.Backup, L.Seconds(0), true, now).0
    case _ => t
  }

  /** It handles them in the order in which they were forwarded. */
  function HandledAll(t: L.Table, log: seq<J.Msg>, now: int): L.Table {
    if log == [] then t else Handled(HandledAll(t, log[..|log| - 1], now), log[|log| - 1], now)
  }

  /** One message more. */
  lemma OneMoreWord(t: L.Table, m: J.Msg, now: int)
    ensures var u := Handled(t, m, now);
      && (L.Backup in u.lockers && (L.Backup in t.lockers ==> t.lockers[L.Backup] == L.Locker(None, None)) ==>
          u.lockers[L.Backup] == L.Locker(None, None))
      && (L.Backup in u.lockers <==> m == J.Acquire || (m != J.Release && L.Backup in t.lockers))
      && forall n :: n != L.Backup ==> (n in u.lockers <==> n in t.lockers)
  {}

  lemma {:induction false} LastWord(t: L.Table, log: seq<J.Msg>, now: int)
    requires L.Backup !in t.lockers && J.AcquiresFirst(log)
    ensures L.Backup in HandledAll(t, log, now).lockers <==> J.Acquire in log && J.Release !in log
    ensures L.Backup in HandledAll(t, log, now).lockers ==>
      HandledAll(t, log, now).lockers[L.Backup] == L.Locker(None, None)
    ensures forall n :: n != L.Backup ==> (n in HandledAll(t, log, now).lockers <==> n in t.lockers)
    decreases |log|
  {
    hide Handled;
    if log != [] {
      var before, m := log[..|log| - 1], log[|log| - 1];
      LastWord(t, before, now);
      OneMoreWord(HandledAll(t, before, now), m, now);
      assert log == before + [m];
    }
  }

  /** While a job runs the machine is kept awake, from the job's first step on.  Once the job is cancelled and its
      processes have ended, it is let go, at once or with the timeout that is pending, exactly unless reading the
      command to run after the backup raised an exception at a moment when no other process was watched. */
  lemma KeptAwakeWhileRunning(t: L.Table, before: seq<J.Event>, e: J.Event, after: seq<J.Event>, now: int)
    requires L.Backup !in t.lockers
    requires var j := J.Run(J.CREATED, before); j.state != J.WAITING && !j.cancelled && J.Applied(j, e).cancelled
    requires J.Run(J.Applied(J.Run(J.CREATED, before), e), after).watched == {}
    ensures var j := J.Run(J.CREATED, before);
            var l := J.Run(J.Applied(j, e), after);
            && L.Backup in HandledAll(t, j.log, now).lockers
            && (L.Backup !in HandledAll(t, l.log, now).lockers || l.timer == J.PostTimer
                <==> J.PostOf(e) != J.PostRaises || J.StillWatched(j, e) != {})
  {
    var j := J.Run(J.CREATED, before);
    J.RunGood(J.CREATED, before);
    J.AppliedGood(j, e);
    J.RunGood(J.Applied(j, e), after);
    J.LockIsGivenBack(before, e, after);
    J.AppliedGrows(j, e);
    J.EndIsForEver(J.Applied(j, e), after);
    LastWord(t, j.log, now);
    LastWord(t, J.Run(J.Applied(j, e), after).log, now);
  }
}
