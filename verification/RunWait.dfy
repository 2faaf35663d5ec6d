/** task_wait (cmd/smind/mcp_run_tools.go): the pending-permission scan, the backed-off wait on
    one run, and a driver that re-issues waits. Time is an integer count of milliseconds. */
module RunWait {
  import opened RunViewer

  datatype RunStatus = StatusDone | StatusError | StatusStopped | StatusLive(text: int)

  predicate IsTerminal(s: RunStatus) { !s.StatusLive? }

  /** A run.logs snapshot. */
  datatype Logs = Logs(status: RunStatus, events: seq<Event>)

  // ---------------------------------------------------------------- pending permissions

  function ResolvedIds(log: seq<Event>): set<RequestId> {
    set i | 0 <= i < |log| && log[i].Resolved? :: log[i].id
  }

  /** The requests of the log whose ids are not in `resolved`, in order. */
  function Unresolved(log: seq<Event>, resolved: set<RequestId>): seq<Request> {
    if log == [] then []
    else
      var n := |log| - 1;
      var rs := Unresolved(log[..n], resolved);
      if log[n].Requested? && log[n].request.id !in resolved then rs + [log[n].request] else rs
  }

  function PendingFrom(l: Logs): seq<Request> {
    if IsTerminal(l.status) then [] else Unresolved(l.events, ResolvedIds(l.events))
  }

  /** The simple form: add on request, remove on resolution. */
  function Outstanding(log: seq<Event>): seq<Request> {
    if log == [] then []
    else
      var n := |log| - 1;
      match log[n]
      case Requested(r) => Outstanding(log[..n]) + [r]
      case Resolved(id, _, _) => Without(Outstanding(log[..n]), id)
      case _ => Outstanding(log[..n])
  }

  function Without(rs: seq<Request>, id: RequestId): seq<Request> {
    if rs == [] then []
    else
      var n := |rs| - 1;
      if rs[n].id == id then Without(rs[..n], id) else Without(rs[..n], id) + [rs[n]]
  }

  lemma {:induction false} FreshWithout(rs: seq<Request>, ignore: set<RequestId>, id: RequestId)
    ensures Fresh(Without(rs, id), ignore) == Fresh(rs, ignore + {id})
  {
    if rs != [] {
      var n := |rs| - 1;
      FreshWithout(rs[..n], ignore, id);
      FreshSnoc(Without(rs[..n], id), rs[n], ignore);
    }
  }

  lemma FreshSnoc(rs: seq<Request>, r: Request, ignore: set<RequestId>)
    ensures Fresh(rs + [r], ignore) == if r.id in ignore then Fresh(rs, ignore) else Fresh(rs, ignore) + [r]
  {
    assert (rs + [r])[..|rs|] == rs;
  }

  /** The two-pass scan against the incremental list, for any ids taken as resolved that include
      those the log resolves. */
  lemma {:induction false} ScanFilters(log: seq<Event>, resolved: set<RequestId>)
    requires ResolvedIds(log) <= resolved
    ensures Unresolved(log, resolved) == Fresh(Outstanding(log), resolved)
  {
    if log != [] {
      var n := |log| - 1;
      assert ResolvedIds(log[..n]) <= ResolvedIds(log);
      ScanFilters(log[..n], resolved);
      if log[n].Requested? {
        FreshSnoc(Outstanding(log[..n]), log[n].request, resolved);
      } else if log[n].Resolved? {
        assert log[n].id in ResolvedIds(log);
        FreshWithout(Outstanding(log[..n]), resolved, log[n].id);
        assert resolved + {log[n].id} == resolved;
      }
    }
  }

  /** Every request of an id that the log resolves anywhere is resolved after it. */
  ghost predicate ResolvedAfterwards(log: seq<Event>) {
    forall i, id :: Requests(log, i, id) && ResolvedIn(log, id) ==> exists j :: i < j && Resolves(log, j, id)
  }

  lemma StillOpenNext(log: seq<Event>, i: int, r: Request)
    requires log != []
    ensures var n := |log| - 1;
      StillOpen(log, i, r) <==>
        (StillOpen(log[..n], i, r) && !Resolves(log, n, r.id)) || (i == n && log[n] == Requested(r))
  {
    var n := |log| - 1;
    assert forall j :: Resolves(log[..n], j, r.id) <==> Resolves(log, j, r.id) && j < n;
    assert forall j :: Resolves(log, j, r.id) ==> j <= n;
  }

  /** What the incremental list holds: the requests with no later resolution. */
  lemma {:induction false} OutstandingMembers(log: seq<Event>, r: Request)
    ensures r in Outstanding(log) <==> exists i :: StillOpen(log, i, r)
  {
    if log != [] {
      var n := |log| - 1;
      OutstandingMembers(log[..n], r);
      StillOpenNext(log, n, r);
      if i :| StillOpen(log, i, r) { StillOpenNext(log, i, r); }
      if i :| StillOpen(log[..n], i, r) { StillOpenNext(log, i, r); }
      if log[n].Resolved? { WithoutMembers(Outstanding(log[..n]), log[n].id, r); }
    }
  }

  ghost predicate StillOpen(log: seq<Event>, i: int, r: Request) {
    0 <= i < |log| && log[i] == Requested(r) && forall j :: i < j ==> !Resolves(log, j, r.id)
  }

  lemma {:induction false} WithoutMembers(rs: seq<Request>, id: RequestId, r: Request)
    ensures r in Without(rs, id) <==> r in rs && r.id != id
  {
    if rs != [] {
      var n := |rs| - 1;
      WithoutMembers(rs[..n], id, r);
      assert rs == rs[..n] + [rs[n]];
    }
  }

  lemma {:induction false} FreshIsAll(rs: seq<Request>, ignore: set<RequestId>)
    ensures |Fresh(rs, ignore)| <= |rs|
    ensures Fresh(rs, ignore) == rs <==> forall r :: r in rs ==> r.id !in ignore
  {
    if rs != [] {
      var n := |rs| - 1;
      FreshIsAll(rs[..n], ignore);
      assert rs == rs[..n] + [rs[n]];
    }
  }

  lemma ResolvedIdsMeaning(log: seq<Event>, id: RequestId)
    ensures id in ResolvedIds(log) <==> ResolvedIn(log, id)
  {
    if id in ResolvedIds(log) {
      var i :| 0 <= i < |log| && log[i].Resolved? && log[i].id == id;
      assert Resolves(log, i, id);
    }
  }

  /** On any log, the scan is the incremental add-on-request, remove-on-resolve list, in the same
      order, iff every request resolved anywhere is resolved after it; in general it is that list
      without the requests whose id is resolved anywhere. */
  lemma ScanIsIncrementalIff(log: seq<Event>)
    ensures Unresolved(log, ResolvedIds(log)) == Fresh(Outstanding(log), ResolvedIds(log))
    ensures Unresolved(log, ResolvedIds(log)) == Outstanding(log) <==> ResolvedAfterwards(log)
  {
    var open, resolved := Outstanding(log), ResolvedIds(log);
    ScanFilters(log, resolved);
    FreshIsAll(open, resolved);
    if !ResolvedAfterwards(log) {
      var i, id :| Requests(log, i, id) && ResolvedIn(log, id) && forall j :: i < j ==> !Resolves(log, j, id);
      var r := log[i].request;
      assert StillOpen(log, i, r);
      OutstandingMembers(log, r);
      ResolvedIdsMeaning(log, id);
    } else {
      forall r | r in open ensures r.id !in resolved {
        OutstandingMembers(log, r);
        ResolvedIdsMeaning(log, r.id);
        var i :| StillOpen(log, i, r);
        assert Requests(log, i, r.id);
      }
    }
  }

  /** A log on which the two differ, for any request: it is resolved before it is made. */
  lemma ScanDropsEarlyResolution(r: Request, option: int, reason: Reason)
    ensures var log := [Resolved(r.id, option, reason), Requested(r)];
      Unresolved(log, ResolvedIds(log)) == [] && Outstanding(log) == [r]
  {
    var log := [Resolved(r.id, option, reason), Requested(r)];
    assert log[..1] == [Resolved(r.id, option, reason)] && log[..1][..0] == [];
    assert log[0].id in ResolvedIds(log) && log[1].request.id == log[0].id;
    assert Outstanding(log[..1]) == [];
    assert Unresolved(log[..1], ResolvedIds(log)) == [];
    assert Outstanding(log) == Outstanding(log[..1]) + [r];
  }

  /** So on well-formed logs the two are the same. */
  lemma ScanIsIncremental(log: seq<Event>)
    requires WellFormed(log)
    ensures Unresolved(log, ResolvedIds(log)) == Outstanding(log)
  {
    ScanIsIncrementalIff(log);
    forall i, id | Requests(log, i, id) && ResolvedIn(log, id) ensures exists j :: i < j && Resolves(log, j, id) {
      var j :| Resolves(log, j, id);
      var i' :| i' < j && Requests(log, i', id);
      assert i' == i;
    }
  }

  lemma {:induction false} UnresolvedMembers(log: seq<Event>, resolved: set<RequestId>, r: Request)
    ensures r in Unresolved(log, resolved) <==> Requested(r) in log && r.id !in resolved
  {
    if log != [] {
      var n := |log| - 1;
      UnresolvedMembers(log[..n], resolved, r);
      assert log == log[..n] + [log[n]];
    }
  }

  /** On any log, what is pending in a live run: requested, and resolved nowhere. */
  lemma PendingMeaning(l: Logs, r: Request)
    ensures r in PendingFrom(l) <==>
      !IsTerminal(l.status) && Requested(r) in l.events && forall i :: !Resolves(l.events, i, r.id)
  {
    UnresolvedMembers(l.events, ResolvedIds(l.events), r);
    ResolvedIdsMeaning(l.events, r.id);
  }

  method PendingPermissionsFrom(l: Logs) returns (pending: seq<Request>)
    ensures pending == PendingFrom(l)
  {
    if IsTerminal(l.status) { return []; }
    var resolved: set<RequestId> := {};
    var i := 0;
    while i < |l.events|
      invariant 0 <= i <= |l.events|
      invariant resolved == ResolvedIds(l.events[..i])
    {
      if l.events[i].Resolved? { resolved := resolved + {l.events[i].id}; }
      i := i + 1;
    }
    assert l.events[..i] == l.events;
    pending := [];
    i := 0;
    while i < |l.events|
      invariant 0 <= i <= |l.events|
      invariant pending == Unresolved(l.events[..i], resolved)
    {
      assert l.events[..i + 1][..i] == l.events[..i];
      if l.events[i].Requested? && l.events[i].request.id !in resolved {
        pending := pending + [l.events[i].request];
      }
      i := i + 1;
    }
    assert l.events[..i] == l.events;
  }

  // ---------------------------------------------------------------- one wait's answer

  datatype WaitState = WaitingPermission | RunDone | RunError | RunStopped | TimedOut | StillRunning

  /** The answer: why the wait ended, the run's status, and the requests that ended it. */
  datatype WaitOutput = WaitOutput(state: WaitState, status: RunStatus, pending: seq<Request>)

  /** The requests the caller has not surfaced yet. */
  function Fresh(rs: seq<Request>, ignore: set<RequestId>): seq<Request> {
    if rs == [] then []
    else
      var n := |rs| - 1;
      if rs[n].id in ignore then Fresh(rs[..n], ignore) else Fresh(rs[..n], ignore) + [rs[n]]
  }

  function BuildOutput(l: Logs, ignore: set<RequestId>, timedOut: bool): WaitOutput {
    var pending := Fresh(PendingFrom(l), ignore);
    if pending != [] then WaitOutput(WaitingPermission, l.status, pending)
    else
      match l.status
      case StatusDone => WaitOutput(RunDone, l.status, [])
      case StatusError => WaitOutput(RunError, l.status, [])
      case StatusStopped => WaitOutput(RunStopped, l.status, [])
      case StatusLive(_) => WaitOutput(if timedOut then TimedOut else StillRunning, l.status, [])
  }

  lemma {:induction false} FreshMembers(rs: seq<Request>, ignore: set<RequestId>, r: Request)
    ensures r in Fresh(rs, ignore) <==> r in rs && r.id !in ignore
  {
    if rs != [] {
      FreshMembers(rs[..|rs| - 1], ignore, r);
      assert rs == rs[..|rs| - 1] + [rs[|rs| - 1]];
    }
  }

  /** A wait times out or goes on polling only on a snapshot of a live run all of whose pending
      requests are ignored; it reports a permission exactly otherwise in a live run. */
  lemma WaitsOnlyWhenNothingIsPending(l: Logs, ignore: set<RequestId>, timedOut: bool)
    ensures var s := BuildOutput(l, ignore, timedOut).state;
      && (s == TimedOut || s == StillRunning <==>
          !IsTerminal(l.status) && forall r :: r in PendingFrom(l) ==> r.id in ignore)
      && (s == WaitingPermission <==>
          !IsTerminal(l.status) && exists r :: r in PendingFrom(l) && r.id !in ignore)
      && (s == TimedOut ==> timedOut) && (s == StillRunning ==> !timedOut)
    ensures forall r :: r in BuildOutput(l, ignore, timedOut).pending <==> r in PendingFrom(l) && r.id !in ignore
  {
    var rs := PendingFrom(l);
    forall r { FreshMembers(rs, ignore, r); }
    if Fresh(rs, ignore) != [] {
      assert Fresh(rs, ignore)[0] in Fresh(rs, ignore);
    }
  }

  /** The state an answer reports is that of its status: done, error and stopped for a run that ended
      so, and something else exactly for a run that goes on. */
  predicate StateFits(out: WaitOutput) {
    && (out.state == RunDone <==> out.status == StatusDone)
    && (out.state == RunError <==> out.status == StatusError)
    && (out.state == RunStopped <==> out.status == StatusStopped)
  }

  /** A finished run is reported as what it is, whatever its log still holds and whether or not the
      wait timed out; and an answer carries its snapshot's status. */
  lemma AnswerFitsStatus(l: Logs, ignore: set<RequestId>, timedOut: bool)
    ensures var out := BuildOutput(l, ignore, timedOut);
      && StateFits(out) && out.status == l.status
      && (IsTerminal(l.status) ==> out.pending == [])
  {}

  method BuildTaskWaitOutput(l: Logs, ignore: set<RequestId>, timedOut: bool) returns (out: WaitOutput)
    ensures out == BuildOutput(l, ignore, timedOut)
  {
    var pending := PendingPermissionsFrom(l);
    var unseen: seq<Request> := [];
    var i := 0;
    while i < |pending|
      invariant 0 <= i <= |pending|
      invariant unseen == Fresh(pending[..i], ignore)
    {
      assert pending[..i + 1][..i] == pending[..i];
      if pending[i].id !in ignore { unseen := unseen + [pending[i]]; }
      i := i + 1;
    }
    assert pending[..i] == pending;
    if |unseen| > 0 { return WaitOutput(WaitingPermission, l.status, unseen); }
    match l.status
    case StatusDone => return WaitOutput(RunDone, l.status, []);
    case StatusError => return WaitOutput(RunError, l.status, []);
    case StatusStopped => return WaitOutput(RunStopped, l.status, []);
    case StatusLive(_) => return WaitOutput(if timedOut then TimedOut else StillRunning, l.status, []);
  }

  // ---------------------------------------------------------------- waiting on one run

  const POLL_MIN := 50
  const POLL_MAX := 500

  /** What a poll meets: an error, or a snapshot after some time. */
  datatype Poll = PollFailed | PollOk(logs: Logs, elapsed: nat)

  /** What a sleep meets: the context ends, or it lasts its time and maybe more. */
  datatype Nap = Cancelled | Slept(extra: nat)

  /** What the world does in the k-th round. */
  datatype Round = Round(poll: Poll, nap: Nap)

  datatype WaitResult = Failed | Output(out: WaitOutput)

  function IntervalAt(k: nat): nat {
    if k == 0 then POLL_MIN else (var d := 2 * IntervalAt(k - 1); if d > POLL_MAX then POLL_MAX else d)
  }

  /** The first k intervals together. */
  function Backoff(k: nat): nat { if k == 0 then 0 else Backoff(k - 1) + IntervalAt(k - 1) }

  lemma {:induction false} BackoffGrows(k: nat)
    ensures 500 * k - 1250 <= Backoff(k)
    ensures k >= 4 ==> IntervalAt(k) == 500 && Backoff(k) == 500 * k - 1250
  {
    if k <= 4 {
      assert IntervalAt(0) == 50 && IntervalAt(1) == 100 && IntervalAt(2) == 200;
      assert IntervalAt(3) == 400 && IntervalAt(4) == 500;
      assert Backoff(1) == 50 && Backoff(2) == 150 && Backoff(3) == 350 && Backoff(4) == 750;
    } else {
      BackoffGrows(k - 1);
    }
  }

  /** The first n polls found the run going on with nothing to report. */
  predicate NothingYet(world: nat -> Round, ignore: set<RequestId>, n: int) {
    forall k :: 0 <= k < n ==> PollsOn(world, ignore, k)
  }

  predicate PollsOn(world: nat -> Round, ignore: set<RequestId>, k: nat) {
    FoundRunning(world(k), ignore) && !world(k).nap.Cancelled?
  }

  predicate FoundRunning(round: Round, ignore: set<RequestId>) {
    round.poll.PollOk? && BuildOutput(round.poll.logs, ignore, false).state == StillRunning
  }

  lemma RunningBeforeDeadline(round: Round, ignore: set<RequestId>, timedOut: bool)
    requires round.poll.PollOk?
    ensures BuildOutput(round.poll.logs, ignore, timedOut).state == StillRunning <==>
      !timedOut && FoundRunning(round, ignore)
  {}

  lemma NothingYetNext(world: nat -> Round, ignore: set<RequestId>, n: nat)
    requires NothingYet(world, ignore, n) && FoundRunning(world(n), ignore) && world(n).nap.Slept?
    ensures NothingYet(world, ignore, n + 1)
  {}

  function Elapsed(round: Round): nat { if round.poll.PollOk? then round.poll.elapsed else 0 }

  function Extra(round: Round): nat { if round.nap.Slept? then round.nap.extra else 0 }

  /** The time the first n rounds took beyond their intervals. */
  function Delay(world: nat -> Round, n: nat): nat {
    if n == 0 then 0 else Delay(world, n - 1) + Elapsed(world(n - 1)) + Extra(world(n - 1))
  }

  /** When the last of `polls` polls ended: no later than the intervals and the delays before it, and
      no sleep ran past the deadline on purpose. */
  predicate InTime(world: nat -> Round, start: int, deadline: int, polls: nat, now: int)
    requires polls >= 1
  {
    && start <= now <= start + Backoff(polls - 1) + Delay(world, polls - 1) + Elapsed(world(polls - 1))
    && (polls >= 2 ==> now <= deadline + Extra(world(polls - 2)) + Elapsed(world(polls - 1)))
  }

  /** Why a wait failed: its last poll did, or, with nothing to report yet, its context ended in the
      nap after it. */
  predicate FailsOn(round: Round, ignore: set<RequestId>, late: bool) {
    round.poll.PollFailed? || (FoundRunning(round, ignore) && !late && round.nap.Cancelled?)
  }

  /** The n-th poll began within the deadline, counting the sleeps before it. */
  lemma PollsBounded(start: int, deadline: int, n: nat)
    requires n >= 1 && start <= deadline && (n >= 2 ==> start + Backoff(n - 2) < deadline)
    ensures 500 * n <= deadline - start + 2250
  {
    if n >= 2 { BackoffGrows(n - 2); }
  }

  /** The clock before a wait's next poll, `polls` polls done. */
  predicate BeforePoll(world: nat -> Round, start: int, deadline: int, polls: nat, now: int) {
    && start <= now <= start + Backoff(polls) + Delay(world, polls)
    && (now >= deadline || now >= start + Backoff(polls))
    && (polls >= 1 ==> now <= deadline + Extra(world(polls - 1)) && start + Backoff(polls - 1) < deadline)
  }

  /** At most (T + 2250) / 500 polls for a timeout of T. */
  predicate PollsFit(start: int, deadline: int, polls: nat) {
    start <= deadline ==> 500 * polls <= deadline - start + 2250
  }

  lemma FirstPoll(world: nat -> Round, start: int, deadline: int)
    ensures BeforePoll(world, start, deadline, 0, start) && IntervalAt(0) == POLL_MIN > 0
  {}

  lemma EndsInTime(world: nat -> Round, start: int, deadline: int, polls: nat, now: int)
    requires BeforePoll(world, start, deadline, polls, now)
    ensures InTime(world, start, deadline, polls + 1, now + Elapsed(world(polls)))
    ensures PollsFit(start, deadline, polls + 1)
  {
    if start <= deadline { PollsBounded(start, deadline, polls + 1); }
  }

  /** The next interval, doubled up to the maximum. */
  function Doubled(interval: nat): nat { if interval * 2 > POLL_MAX then POLL_MAX else interval * 2 }

  lemma NextPoll(world: nat -> Round, start: int, deadline: int, polls: nat, before: int, now: int, interval: nat)
    requires BeforePoll(world, start, deadline, polls, before) && world(polls).poll.PollOk? && world(polls).nap.Slept?
    requires now == before + Elapsed(world(polls)) < deadline && interval == IntervalAt(polls) && interval > 0
    ensures var sleep := if interval > deadline - now then deadline - now else interval;
      sleep > 0 && BeforePoll(world, start, deadline, polls + 1, now + sleep + world(polls).nap.extra)
    ensures Doubled(interval) == IntervalAt(polls + 1) && Doubled(interval) > 0
  {}

  /** How a wait ended on its last round: failed iff that failed it, else with the answer of that
      round's snapshot, which reports the snapshot's status and never says "running". */
  predicate EndsAs(r: WaitResult, round: Round, ignore: set<RequestId>, late: bool) {
    && (r.Failed? <==> FailsOn(round, ignore, late))
    && (r.Output? ==>
          && round.poll.PollOk? && r.out == BuildOutput(round.poll.logs, ignore, late)
          && r.out.state != StillRunning && StateFits(r.out) && r.out.status == round.poll.logs.status)
  }

  /** One round of mcpWaitOneRun up to its sleep. */
  method PollOnce(round: Round, deadline: int, ignore: set<RequestId>, before: int)
    returns (done: bool, r: WaitResult, now: int)
    ensures now == before + Elapsed(round)
    ensures done ==> EndsAs(r, round, ignore, now >= deadline)
    ensures !done ==> FoundRunning(round, ignore) && round.nap.Slept? && now < deadline
  {
    now := before;
    if round.poll.PollFailed? { return true, Failed, now; }
    now := now + round.poll.elapsed;
    var remaining := deadline - now;
    var out := BuildTaskWaitOutput(round.poll.logs, ignore, remaining <= 0);
    AnswerFitsStatus(round.poll.logs, ignore, remaining <= 0);
    RunningBeforeDeadline(round, ignore, remaining <= 0);
    if out.state != StillRunning { return true, Output(out), now; }
    if round.nap.Cancelled? { return true, Failed, now; }
    return false, Failed, now;
  }

  /** mcpWaitOneRun. It ends whatever the world does, never reports "running", and polls at most
      (T + 2250) / 500 times for a timeout of T; every snapshot but the last left it nothing to
      report; it fails iff its last poll failed or its context ended after it, reports the status of
      its last snapshot, times out only after the deadline, and takes no longer than it has to. */
  method WaitOneRun(world: nat -> Round, start: int, deadline: int, ignore: set<RequestId>)
    returns (r: WaitResult, polls: nat, now: int)
    ensures polls >= 1 && InTime(world, start, deadline, polls, now)
    ensures PollsFit(start, deadline, polls)
    ensures NothingYet(world, ignore, polls - 1)
    ensures EndsAs(r, world(polls - 1), ignore, now >= deadline)
  {
    now, polls := start, 0;
    var interval := POLL_MIN;
    FirstPoll(world, start, deadline);
    while true
      invariant BeforePoll(world, start, deadline, polls, now)
      invariant interval == IntervalAt(polls) && interval > 0
      invariant NothingYet(world, ignore, polls)
      decreases deadline - now
    {
      var before := now;
      EndsInTime(world, start, deadline, polls, before);
      var done;
      done, r, now := PollOnce(world(polls), deadline, ignore, before);
      polls := polls + 1;
      if done { return; }
      NothingYetNext(world, ignore, polls - 1);
      NextPoll(world, start, deadline, polls - 1, before, now, interval);
      var sleep := interval;
      if sleep > deadline - now { sleep := deadline - now; }
      now := now + sleep + world(polls - 1).nap.extra;
      interval := interval * 2;
      if interval > POLL_MAX { interval := POLL_MAX; }
    }
  }

  /** That is: the poll failed, or the context ended before the deadline on a run that goes on and
      has no request the caller does not know. */
  lemma FailsIff(round: Round, ignore: set<RequestId>, late: bool)
    ensures FailsOn(round, ignore, late) <==>
      || round.poll.PollFailed?
      || (!late && round.nap.Cancelled? && !IsTerminal(round.poll.logs.status)
          && forall r :: r in PendingFrom(round.poll.logs) ==> r.id in ignore)
  {
    if round.poll.PollOk? { WaitsOnlyWhenNothingIsPending(round.poll.logs, ignore, false); }
  }

  // ---------------------------------------------------------------- a driver that re-issues waits

  function IdSet(rs: seq<Request>): set<RequestId> { set i | 0 <= i < |rs| :: rs[i].id }

  /** The requests surfaced by waits on successive snapshots, each wait ignoring what the earlier
      ones surfaced. */
  function Surfaced(snapshots: seq<Logs>, ignore: set<RequestId>): seq<Request> {
    if snapshots == [] then []
    else
      var n := |snapshots| - 1;
      var before := Surfaced(snapshots[..n], ignore);
      before + Fresh(PendingFrom(snapshots[n]), ignore + IdSet(before))
  }

  predicate DistinctIds(rs: seq<Request>) { forall i, j :: 0 <= i < j < |rs| ==> rs[i].id != rs[j].id }

  ghost predicate AppendOnly(snapshots: seq<Logs>) {
    forall i, j :: 0 <= i < j < |snapshots| ==> snapshots[i].events <= snapshots[j].events
  }

  lemma {:induction false} PendingOrigin(log: seq<Event>, resolved: set<RequestId>, k: nat)
    requires k < |Unresolved(log, resolved)|
    ensures exists i :: Requests(log, i, Unresolved(log, resolved)[k].id)
  {
    var n := |log| - 1;
    if k < |Unresolved(log[..n], resolved)| {
      PendingOrigin(log[..n], resolved, k);
      var i :| Requests(log[..n], i, Unresolved(log[..n], resolved)[k].id);
      assert Requests(log, i, Unresolved(log, resolved)[k].id);
    } else {
      assert Requests(log, n, Unresolved(log, resolved)[k].id);
    }
  }

  lemma {:induction false} PendingDistinct(log: seq<Event>, resolved: set<RequestId>)
    requires DistinctRequests(log)
    ensures DistinctIds(Unresolved(log, resolved))
  {
    if log != [] {
      var n := |log| - 1;
      var before := log[..n];
      assert forall i, id :: Requests(before, i, id) ==> Requests(log, i, id);
      PendingDistinct(before, resolved);
      forall k | 0 <= k < |Unresolved(before, resolved)| && log[n].Requested?
        ensures Unresolved(before, resolved)[k].id != log[n].request.id
      {
        PendingOrigin(before, resolved, k);
        assert Requests(log, n, log[n].request.id);
      }
    }
  }

  lemma {:induction false} FreshIds(rs: seq<Request>, ignore: set<RequestId>)
    ensures IdSet(Fresh(rs, ignore)) == IdSet(rs) - ignore
  {
    if rs != [] {
      var n := |rs| - 1;
      FreshIds(rs[..n], ignore);
      assert rs == rs[..n] + [rs[n]];
      IdSetSnoc(rs[..n], rs[n]);
      IdSetSnoc(Fresh(rs[..n], ignore), rs[n]);
    }
  }

  lemma DistinctSnoc(rs: seq<Request>, r: Request)
    requires DistinctIds(rs) && r.id !in IdSet(rs)
    ensures DistinctIds(rs + [r])
  {
    assert forall k :: 0 <= k < |rs| ==> rs[k].id in IdSet(rs);
  }

  lemma LastIsNew(rs: seq<Request>)
    requires rs != [] && DistinctIds(rs)
    ensures DistinctIds(rs[..|rs| - 1]) && rs[|rs| - 1].id !in IdSet(rs[..|rs| - 1])
  {}

  lemma {:induction false} FreshDistinct(rs: seq<Request>, ignore: set<RequestId>)
    requires DistinctIds(rs)
    ensures DistinctIds(Fresh(rs, ignore)) && IdSet(Fresh(rs, ignore)) == IdSet(rs) - ignore
  {
    FreshIds(rs, ignore);
    if rs != [] {
      var n := |rs| - 1;
      LastIsNew(rs);
      FreshDistinct(rs[..n], ignore);
      DistinctSnoc(Fresh(rs[..n], ignore), rs[n]);
    }
  }

  lemma IdSetSnoc(rs: seq<Request>, r: Request)
    ensures IdSet(rs + [r]) == IdSet(rs) + {r.id}
  {
    IdSetAppend(rs, [r]);
    assert IdSet([r]) == {r.id} by { assert [r][0] == r; }
  }

  lemma IdSetAppend(a: seq<Request>, b: seq<Request>)
    ensures IdSet(a + b) == IdSet(a) + IdSet(b)
  {
    forall i | 0 <= i < |b| ensures b[i].id in IdSet(a + b) { assert (a + b)[|a| + i] == b[i]; }
    forall i | 0 <= i < |a| ensures a[i].id in IdSet(a + b) { assert (a + b)[i] == a[i]; }
  }

  lemma DistinctAppend(a: seq<Request>, b: seq<Request>)
    requires DistinctIds(a) && DistinctIds(b) && IdSet(a) !! IdSet(b)
    ensures DistinctIds(a + b)
  {
    forall i, j | 0 <= i < j < |a + b| ensures (a + b)[i].id != (a + b)[j].id {
      if i < |a| <= j {
        assert a[i].id in IdSet(a) && b[j - |a|].id in IdSet(b);
      }
    }
  }

  lemma SurfacedSnoc(snapshots: seq<Logs>, l: Logs, ignore: set<RequestId>)
    ensures Surfaced(snapshots + [l], ignore) ==
      Surfaced(snapshots, ignore) + Fresh(PendingFrom(l), ignore + IdSet(Surfaced(snapshots, ignore)))
  {
    assert (snapshots + [l])[..|snapshots|] == snapshots;
  }

  /** One more wait surfaces only new requests, and then all that are pending are known. */
  lemma NextSurfaced(before: seq<Request>, l: Logs, ignore: set<RequestId>)
    requires DistinctIds(before) && IdSet(before) !! ignore && DistinctRequests(l.events)
    ensures var after := before + Fresh(PendingFrom(l), ignore + IdSet(before));
      DistinctIds(after) && IdSet(after) !! ignore && IdSet(PendingFrom(l)) <= ignore + IdSet(after)
  {
    var shown := Fresh(PendingFrom(l), ignore + IdSet(before));
    PendingDistinct(l.events, ResolvedIds(l.events));
    FreshDistinct(PendingFrom(l), ignore + IdSet(before));
    DistinctAppend(before, shown);
    IdSetAppend(before, shown);
  }

  /** Over snapshots with distinct request ids, no request is surfaced twice or although ignored,
      and every request pending in the last snapshot was surfaced or ignored. */
  lemma {:induction false} SurfacedOnce(snapshots: seq<Logs>, ignore: set<RequestId>)
    requires forall k :: 0 <= k < |snapshots| ==> DistinctRequests(snapshots[k].events)
    ensures DistinctIds(Surfaced(snapshots, ignore))
    ensures IdSet(Surfaced(snapshots, ignore)) !! ignore
    ensures snapshots != [] ==>
      IdSet(PendingFrom(snapshots[|snapshots| - 1])) <= ignore + IdSet(Surfaced(snapshots, ignore))
  {
    if snapshots != [] {
      var n := |snapshots| - 1;
      SurfacedOnce(snapshots[..n], ignore);
      NextSurfaced(Surfaced(snapshots[..n], ignore), snapshots[n], ignore);
    }
  }

  lemma DistinctInPrefix(log: seq<Event>, longer: seq<Event>)
    requires log <= longer && DistinctRequests(longer)
    ensures DistinctRequests(log)
  {
    assert forall i, id :: Requests(log, i, id) ==> Requests(longer, i, id);
  }

  /** A driver that re-issues task_wait over an append-only log, adding every surfaced id to the
      ignore list, sees each request at most once, and has seen every request that was pending
      in any snapshot by the time it waited on it. */
  lemma DriverSeesEachRequestOnce(snapshots: seq<Logs>, ignore: set<RequestId>)
    requires AppendOnly(snapshots) && snapshots != [] && DistinctRequests(snapshots[|snapshots| - 1].events)
    ensures DistinctIds(Surfaced(snapshots, ignore))
    ensures IdSet(Surfaced(snapshots, ignore)) !! ignore
    ensures forall k :: 0 <= k < |snapshots| ==>
      IdSet(PendingFrom(snapshots[k])) <= ignore + IdSet(Surfaced(snapshots[..k + 1], ignore))
  {
    var last := snapshots[|snapshots| - 1].events;
    forall k | 0 <= k < |snapshots| ensures DistinctRequests(snapshots[k].events) {
      assert k < |snapshots| - 1 ==> snapshots[k].events <= last;
      DistinctInPrefix(snapshots[k].events, last);
    }
    SurfacedOnce(snapshots, ignore);
    forall k | 0 <= k < |snapshots|
      ensures IdSet(PendingFrom(snapshots[k])) <= ignore + IdSet(Surfaced(snapshots[..k + 1], ignore))
    {
      SurfacedOnce(snapshots[..k + 1], ignore);
    }
  }

  /** One more wait of a driver. */
  lemma NextWait(snapshots: seq<Logs>, l: Logs, ignore: set<RequestId>, seen: set<RequestId>, pending: seq<Request>)
    requires seen == ignore + IdSet(Surfaced(snapshots, ignore)) && pending == Fresh(PendingFrom(l), seen)
    ensures Surfaced(snapshots + [l], ignore) == Surfaced(snapshots, ignore) + pending
    ensures seen + IdSet(pending) == ignore + IdSet(Surfaced(snapshots + [l], ignore))
  {
    SurfacedSnoc(snapshots, l, ignore);
    IdSetAppend(Surfaced(snapshots, ignore), pending);
  }

  lemma OutputPending(l: Logs, ignore: set<RequestId>, timedOut: bool)
    ensures BuildOutput(l, ignore, timedOut).pending == Fresh(PendingFrom(l), ignore)
  {}

  /** What a driver promises: no request surfaced twice, none that was ignored, and every request
      pending when it waited surfaced by then. */
  ghost predicate SeenOnce(snapshots: seq<Logs>, ignore: set<RequestId>, surfaced: seq<Request>) {
    && DistinctIds(surfaced) && IdSet(surfaced) !! ignore
    && forall k :: 0 <= k < |snapshots| ==>
         IdSet(PendingFrom(snapshots[k])) <= ignore + IdSet(Surfaced(snapshots[..k + 1], ignore))
  }

  /** Each wait ended, after its polls, on its snapshot. */
  predicate Driven(worlds: nat -> nat -> Round, polls: seq<nat>, snapshots: seq<Logs>) {
    |polls| == |snapshots| && forall k :: 0 <= k < |polls| ==> EndsOn(worlds(k), polls[k], snapshots[k])
  }

  lemma DrivenNext(worlds: nat -> nat -> Round, polls: seq<nat>, snapshots: seq<Logs>, n: nat, l: Logs)
    requires Driven(worlds, polls, snapshots) && EndsOn(worlds(|polls|), n, l)
    ensures Driven(worlds, polls + [n], snapshots + [l])
  {}

  /** It waits on the run again and again, surfaces what each wait reports and ignores it from then
      on, until a wait fails or it has waited often enough. `polls` are the polls each wait took and
      `snapshots` the logs each ended on. */
  method ReissueWaits(worlds: nat -> nat -> Round, waits: nat, start: int, timeout: nat, ignore: set<RequestId>)
    returns (surfaced: seq<Request>, snapshots: seq<Logs>, polls: seq<nat>)
    ensures Driven(worlds, polls, snapshots) && |polls| <= waits
    ensures surfaced == Surfaced(snapshots, ignore)
  {
    surfaced, snapshots, polls := [], [], [];
    var now, seen := start, ignore;
    var i := 0;
    while i < waits
      invariant 0 <= i <= waits && |polls| == |snapshots| == i && Driven(worlds, polls, snapshots)
      invariant surfaced == Surfaced(snapshots, ignore) && seen == ignore + IdSet(surfaced)
    {
      var r, n, t := WaitOneRun(worlds(i), now, now + timeout, seen);
      if r.Failed? { break; }
      var l := worlds(i)(n - 1).poll.logs;
      OutputPending(l, seen, t >= now + timeout);
      NextWait(snapshots, l, ignore, seen, r.out.pending);
      DrivenNext(worlds, polls, snapshots, n, l);
      surfaced, seen := surfaced + r.out.pending, seen + IdSet(r.out.pending);
      snapshots, polls, now := snapshots + [l], polls + [n], t;
      i := i + 1;
    }
  }

  /** The driver, whatever the world does: over an append-only log with distinct request ids it sees
      each request once. */
  method DriveWaits(worlds: nat -> nat -> Round, waits: nat, start: int, timeout: nat, ignore: set<RequestId>)
    returns (surfaced: seq<Request>, snapshots: seq<Logs>, polls: seq<nat>)
    ensures Driven(worlds, polls, snapshots) && |polls| <= waits
    ensures AppendOnly(snapshots) && snapshots != [] && DistinctRequests(snapshots[|snapshots| - 1].events) ==>
      SeenOnce(snapshots, ignore, surfaced)
  {
    surfaced, snapshots, polls := ReissueWaits(worlds, waits, start, timeout, ignore);
    if AppendOnly(snapshots) && snapshots != [] && DistinctRequests(snapshots[|snapshots| - 1].events) {
      DriverSeesEachRequestOnce(snapshots, ignore);
    }
  }

  /** A wait whose last of `polls` polls answered with the snapshot. */
  predicate EndsOn(world: nat -> Round, polls: nat, l: Logs) {
    polls >= 1 && world(polls - 1).poll.PollOk? && world(polls - 1).poll.logs == l
  }
}
