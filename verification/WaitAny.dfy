/** Waiting on the first of several runs (validateWaitRunIDs and mcpWaitAnyRun in
    cmd/smind/mcp_run_tools.go): one worker per run, a result channel with room for one result of
    each, and a main loop that receives, cancels and joins. */
module WaitAny {
  import opened RunViewer
  import opened RunWait

  const MAX_RUN_IDS := 16

  // ---------------------------------------------------------------- the run ids

  predicate Distinct(ids: seq<string>) { forall i, j :: 0 <= i < j < |ids| ==> ids[i] != ids[j] }

  datatype IdCheck = IdsOk | BadCount | EmptyId | Duplicate(id: string)

  /** The first k ids are distinct and not empty. */
  predicate GoodUpTo(ids: seq<string>, k: nat)
    requires k <= |ids|
  {
    "" !in ids[..k] && Distinct(ids[..k])
  }

  /** validateWaitRunIDs: accepts exactly the lists of 2 to 16 distinct non-empty ids, and complains
      about the first id that is empty or that occurred before. */
  method ValidateRunIds(ids: seq<string>) returns (r: IdCheck)
    ensures r.IdsOk? <==> 2 <= |ids| <= MAX_RUN_IDS && "" !in ids && Distinct(ids)
    ensures r.BadCount? <==> !(2 <= |ids| <= MAX_RUN_IDS)
    ensures r.EmptyId? ==> exists k :: 0 <= k < |ids| && GoodUpTo(ids, k) && ids[k] == ""
    ensures r.Duplicate? ==> exists k :: 0 <= k < |ids| && GoodUpTo(ids, k) && ids[k] == r.id && r.id in ids[..k]
  {
    if |ids| < 2 || |ids| > MAX_RUN_IDS { return BadCount; }
    var seen: set<string> := {};
    var k := 0;
    while k < |ids|
      invariant 0 <= k <= |ids|
      invariant seen == set i | 0 <= i < k :: ids[i]
      invariant "" !in seen && Distinct(ids[..k])
    {
      assert GoodUpTo(ids, k);
      if ids[k] == "" { return EmptyId; }
      if ids[k] in seen { return Duplicate(ids[k]); }
      seen := seen + {ids[k]};
      k := k + 1;
    }
    assert ids[..k] == ids;
    return IdsOk;
  }

  // ---------------------------------------------------------------- the step system

  /** A worker waits on its run, then sends its result, then signs off. */
  datatype Worker = Working | Sending(result: WaitResult) | Sent(result: WaitResult) | Exited(result: WaitResult)

  datatype Message = Message(from: nat, result: WaitResult)

  datatype Answer = AllTimedOut | Failure | Winner(run: nat, out: WaitOutput)

  datatype Main = Receiving | Joining(answer: Answer) | Returned(answer: Answer)

  /** The channel holds sent[received..]. */
  datatype State = State(workers: seq<Worker>, sent: seq<Message>, received: nat, main: Main)

  datatype Action = Finish(i: nat, result: WaitResult) | Send(i: nat) | Exit(i: nat) | Receive | Return

  predicate TimedOutResult(r: WaitResult) { r.Output? && r.out.state == TimedOut }

  /** What RunWait.WaitOneRun promises of its result. */
  predicate Possible(r: WaitResult) { r.Output? ==> r.out.state != StillRunning && StateFits(r.out) }

  /** A worker's wait ends whatever the world does, with a result the step system allows for, and
      times out only past the deadline. */
  method WaitWorker(world: nat -> Round, start: int, deadline: int, ignore: set<RequestId>)
    returns (r: WaitResult, now: int)
    ensures Possible(r) && (TimedOutResult(r) ==> now >= deadline)
    ensures r.Output? ==> exists k: nat :: world(k).poll.PollOk? && r.out.status == world(k).poll.logs.status
  {
    var polls;
    r, polls, now := WaitOneRun(world, start, deadline, ignore);
    if r.Output? { WaitsOnlyWhenNothingIsPending(world(polls - 1).poll.logs, ignore, now >= deadline); }
  }

  function Start(n: nat): State {
    State(seq(n, _ => Working), [], 0, if n == 0 then Joining(AllTimedOut) else Receiving)
  }

  predicate AllExited(ws: seq<Worker>) { forall i :: 0 <= i < |ws| ==> ws[i].Exited? }

  predicate Enabled(s: State, a: Action) {
    match a
    case Finish(i, r) => i < |s.workers| && s.workers[i].Working? && Possible(r)
    case Send(i) => i < |s.workers| && s.workers[i].Sending? && |s.sent| - s.received < |s.workers|
    case Exit(i) => i < |s.workers| && s.workers[i].Sent?
    case Receive => s.main.Receiving? && s.received < |s.sent|
    case Return => s.main.Joining? && AllExited(s.workers)
  }

  /** What the main loop does with its k-th message of n. */
  function AfterReceive(m: Message, k: nat, n: nat): Main {
    match m.result
    case Failed => Joining(Failure)
    case Output(out) =>
      if out.state != TimedOut then Joining(Winner(m.from, out))
      else if k == n then Joining(AllTimedOut)
      else Receiving
  }

  function Step(s: State, a: Action): State
    requires Enabled(s, a)
  {
    match a
    case Finish(i, r) => s.(workers := s.workers[i := Sending(r)])
    case Send(i) =>
      var r := s.workers[i].result;
      s.(workers := s.workers[i := Sent(r)], sent := s.sent + [Message(i, r)])
    case Exit(i) => s.(workers := s.workers[i := Exited(s.workers[i].result)])
    case Receive =>
      s.(received := s.received + 1, main := AfterReceive(s.sent[s.received], s.received + 1, |s.workers|))
    case Return => s.(main := Returned(s.main.answer))
  }

  /** `s` is reached from the start with n runs by `acts`. */
  ghost predicate Reaches(n: nat, acts: seq<Action>, s: State)
    decreases |acts|
  {
    if acts == [] then s == Start(n)
    else
      var k := |acts| - 1;
      exists b :: Reaches(n, acts[..k], b) && Enabled(b, acts[k]) && s == Step(b, acts[k])
  }

  // ---------------------------------------------------------------- the simple form

  /** The first result, in the order they were sent, that is not a timeout. */
  function FirstDecisive(ms: seq<Message>): Answer {
    if ms == [] then AllTimedOut
    else if ms[0].result.Failed? then Failure
    else if ms[0].result.out.state != TimedOut then Winner(ms[0].from, ms[0].result.out)
    else FirstDecisive(ms[1..])
  }

  lemma {:induction false} DecisiveTimeout(ms: seq<Message>)
    ensures FirstDecisive(ms).AllTimedOut? <==> forall k :: 0 <= k < |ms| ==> TimedOutResult(ms[k].result)
  {
    if ms != [] && TimedOutResult(ms[0].result) {
      DecisiveTimeout(ms[1..]);
      assert forall k :: 0 <= k < |ms| - 1 ==> ms[k + 1] == ms[1..][k];
      assert forall k :: 1 <= k < |ms| ==> ms[k] == ms[1..][k - 1];
    }
  }

  /** The decision is the message before which everything was a timeout. */
  lemma {:induction false} DecisiveOrigin(ms: seq<Message>) returns (k: nat)
    requires !FirstDecisive(ms).AllTimedOut?
    ensures k < |ms| && !TimedOutResult(ms[k].result)
    ensures FirstDecisive(ms) == if ms[k].result.Failed? then Failure else Winner(ms[k].from, ms[k].result.out)
    ensures forall j :: 0 <= j < k ==> TimedOutResult(ms[j].result)
  {
    if TimedOutResult(ms[0].result) {
      k := DecisiveOrigin(ms[1..]);
      assert forall j :: 1 <= j <= k ==> ms[j] == ms[1..][j - 1];
      k := k + 1;
    } else {
      k := 0;
    }
  }

  /** A decision stands whatever is sent after it. */
  lemma {:induction false} DecisionStands(ms: seq<Message>, m: Message)
    ensures FirstDecisive(ms + [m]) == if FirstDecisive(ms).AllTimedOut? then FirstDecisive([m]) else FirstDecisive(ms)
  {
    if ms == [] {
      assert ms + [m] == [m];
    } else if TimedOutResult(ms[0].result) {
      DecisionStands(ms[1..], m);
      assert (ms + [m])[1..] == ms[1..] + [m];
    }
  }

  // ---------------------------------------------------------------- the invariant

  predicate HasSent(w: Worker) { w.Sent? || w.Exited? }

  function SentCount(ws: seq<Worker>): nat {
    if ws == [] then 0
    else if HasSent(ws[|ws| - 1]) then SentCount(ws[..|ws| - 1]) + 1
    else SentCount(ws[..|ws| - 1])
  }

  lemma {:induction false} SentCountBound(ws: seq<Worker>)
    ensures SentCount(ws) <= |ws|
    ensures SentCount(ws) == |ws| <==> forall i :: 0 <= i < |ws| ==> HasSent(ws[i])
  {
    if ws != [] {
      var n := |ws| - 1;
      SentCountBound(ws[..n]);
      assert forall i :: 0 <= i < n ==> ws[..n][i] == ws[i];
    }
  }

  lemma {:induction false} SentCountUpdate(ws: seq<Worker>, i: nat, w: Worker)
    requires i < |ws|
    ensures SentCount(ws[i := w]) == SentCount(ws) - (if HasSent(ws[i]) then 1 else 0) + if HasSent(w) then 1 else 0
  {
    var n := |ws| - 1;
    if i < n {
      SentCountUpdate(ws[..n], i, w);
      assert ws[i := w][..n] == ws[..n][i := w];
    } else {
      assert ws[i := w][..n] == ws[..n];
    }
  }

  /** Every message is the result of a worker that has sent, and no worker sent twice. */
  ghost predicate Recorded(ws: seq<Worker>, sent: seq<Message>) {
    && (forall k :: 0 <= k < |sent| ==>
          sent[k].from < |ws| && HasSent(ws[sent[k].from]) && ws[sent[k].from].result == sent[k].result)
    && (forall j, k :: 0 <= j < k < |sent| ==> sent[j].from != sent[k].from)
    && (forall i :: 0 <= i < |ws| && HasSent(ws[i]) ==> SentBy(sent, i))
  }

  ghost predicate SentBy(sent: seq<Message>, i: nat) { exists k :: 0 <= k < |sent| && sent[k].from == i }

  predicate Sensible(ws: seq<Worker>) { forall i :: 0 <= i < |ws| && !ws[i].Working? ==> Possible(ws[i].result) }

  /** The main loop knows the decision on what it has received. */
  predicate MainOk(s: State, n: nat) {
    && s.received <= |s.sent|
    && (s.main.Receiving? ==> s.received < n && FirstDecisive(s.sent[..s.received]) == AllTimedOut)
    && (!s.main.Receiving? ==> s.main.answer == FirstDecisive(s.sent[..s.received]))
    && (!s.main.Receiving? && s.main.answer.AllTimedOut? ==> s.received == n)
    && (s.main.Returned? ==> AllExited(s.workers))
  }

  ghost predicate Inv(s: State, n: nat) {
    && |s.workers| == n
    && Recorded(s.workers, s.sent)
    && Sensible(s.workers)
    && |s.sent| == SentCount(s.workers)
    && MainOk(s, n)
  }

  lemma {:induction false} StartInv(n: nat)
    ensures Inv(Start(n), n)
  {
    NoneSent(seq(n, _ => Working));
  }

  lemma {:induction false} NoneSent(ws: seq<Worker>)
    requires forall i :: 0 <= i < |ws| ==> ws[i].Working?
    ensures SentCount(ws) == 0
  {
    if ws != [] { NoneSent(ws[..|ws| - 1]); }
  }

  lemma SendRecorded(ws: seq<Worker>, sent: seq<Message>, i: nat, w: Worker)
    requires Recorded(ws, sent) && i < |ws| && !HasSent(ws[i]) && w.Sent?
    ensures Recorded(ws[i := w], sent + [Message(i, w.result)])
  {
    var ws', sent' := ws[i := w], sent + [Message(i, w.result)];
    assert forall k :: 0 <= k < |sent| ==> sent'[k] == sent[k] && sent[k].from != i;
    forall j | 0 <= j < |ws| && HasSent(ws'[j]) ensures SentBy(sent', j) {
      if j == i {
        assert sent'[|sent|].from == i;
      } else {
        var k :| 0 <= k < |sent| && sent[k].from == j;
        assert sent'[k].from == j;
      }
    }
  }

  lemma SendInv(s: State, n: nat, i: nat)
    requires Inv(s, n) && Enabled(s, Send(i))
    ensures Inv(Step(s, Send(i)), n)
  {
    var s' := Step(s, Send(i));
    SentCountUpdate(s.workers, i, s'.workers[i]);
    SendRecorded(s.workers, s.sent, i, s'.workers[i]);
    assert s'.sent[..s.received] == s.sent[..s.received];
  }

  lemma ReceiveMain(s: State, n: nat)
    requires |s.workers| == n && MainOk(s, n) && Enabled(s, Receive)
    ensures MainOk(Step(s, Receive), n)
  {
    var m := s.sent[s.received];
    assert s.sent[..s.received + 1] == s.sent[..s.received] + [m];
    DecisionStands(s.sent[..s.received], m);
  }

  lemma ReceiveInv(s: State, n: nat)
    requires Inv(s, n) && Enabled(s, Receive)
    ensures Inv(Step(s, Receive), n)
  {
    ReceiveMain(s, n);
  }

  lemma StepInv(s: State, n: nat, a: Action)
    requires Inv(s, n) && Enabled(s, a)
    ensures Inv(Step(s, a), n)
  {
    match a
    case Finish(i, r) => SentCountUpdate(s.workers, i, Sending(r));
    case Send(i) => SendInv(s, n, i);
    case Exit(i) => SentCountUpdate(s.workers, i, Exited(s.workers[i].result));
    case Receive => ReceiveInv(s, n);
    case Return =>
  }

  lemma {:induction false} ReachesInv(n: nat, acts: seq<Action>, s: State)
    requires Reaches(n, acts, s)
    ensures Inv(s, n)
    decreases |acts|
  {
    if acts == [] {
      StartInv(n);
    } else {
      var k := |acts| - 1;
      var b :| Reaches(n, acts[..k], b) && Enabled(b, acts[k]) && s == Step(b, acts[k]);
      ReachesInv(n, acts[..k], b);
      StepInv(b, n, acts[k]);
    }
  }

  // ---------------------------------------------------------------- theorems

  /** No worker can block on the results channel. */
  lemma NoWorkerBlocks(n: nat, acts: seq<Action>, s: State, i: nat)
    requires Reaches(n, acts, s) && i < |s.workers| && s.workers[i].Sending?
    ensures Enabled(s, Send(i))
  {
    ReachesInv(n, acts, s);
    SentCountBound(s.workers);
  }

  function StepsLeft(w: Worker): nat {
    match w case Working => 3 case Sending(_) => 2 case Sent(_) => 1 case Exited(_) => 0
  }

  function Remaining(ws: seq<Worker>): nat {
    if ws == [] then 0
    else Remaining(ws[..|ws| - 1]) + StepsLeft(ws[|ws| - 1])
  }

  lemma {:induction false} RemainingUpdate(ws: seq<Worker>, i: nat, w: Worker)
    requires i < |ws|
    ensures Remaining(ws[i := w]) == Remaining(ws) - StepsLeft(ws[i]) + StepsLeft(w)
  {
    var n := |ws| - 1;
    if i < n {
      RemainingUpdate(ws[..n], i, w);
      assert ws[i := w][..n] == ws[..n][i := w];
    } else {
      assert ws[i := w][..n] == ws[..n];
    }
  }

  lemma {:induction false} RemainingStart(n: nat)
    ensures Remaining(seq(n, _ => Working)) == 3 * n
  {
    if n > 0 {
      RemainingStart(n - 1);
      assert seq(n, _ => Working)[..n - 1] == seq(n - 1, _ => Working);
    }
  }

  function Budget(s: State): int {
    Remaining(s.workers) + |s.workers| - s.received + if s.main.Returned? then 0 else 1
  }

  lemma StepSpends(s: State, n: nat, a: Action)
    requires Inv(s, n) && Enabled(s, a)
    ensures Budget(Step(s, a)) == Budget(s) - 1
  {
    match a
    case Finish(i, r) => RemainingUpdate(s.workers, i, Sending(r));
    case Send(i) => RemainingUpdate(s.workers, i, Sent(s.workers[i].result));
    case Exit(i) => RemainingUpdate(s.workers, i, Exited(s.workers[i].result));
    case Receive =>
    case Return =>
  }

  /** Every run is finite: with n workers it takes at most 4n + 1 steps. */
  lemma {:induction false} RunsAreBounded(n: nat, acts: seq<Action>, s: State)
    requires Reaches(n, acts, s)
    ensures |acts| + Budget(s) == 4 * n + 1 && Budget(s) >= 0
    decreases |acts|
  {
    ReachesInv(n, acts, s);
    SentCountBound(s.workers);
    if acts == [] {
      RemainingStart(n);
    } else {
      var k := |acts| - 1;
      var b :| Reaches(n, acts[..k], b) && Enabled(b, acts[k]) && s == Step(b, acts[k]);
      ReachesInv(n, acts[..k], b);
      RunsAreBounded(n, acts[..k], b);
      StepSpends(b, n, acts[k]);
    }
  }

  /** The call is never stuck: until it has returned some step is possible, so together with
      RunsAreBounded every run that goes on ends in a return. */
  lemma NeverStuck(n: nat, acts: seq<Action>, s: State)
    requires Reaches(n, acts, s) && !s.main.Returned?
    ensures exists a :: Enabled(s, a)
  {
    ReachesInv(n, acts, s);
    SentCountBound(s.workers);
    if i :| 0 <= i < n && s.workers[i].Working? {
      assert Enabled(s, Finish(i, Failed));
    } else if i :| 0 <= i < n && s.workers[i].Sending? {
      assert Enabled(s, Send(i));
    } else if i :| 0 <= i < n && s.workers[i].Sent? {
      assert Enabled(s, Exit(i));
    } else if s.main.Joining? {
      assert Enabled(s, Return);
    } else {
      assert Enabled(s, Receive);
    }
  }

  /** A worker's result is the one its wait ended with. */
  lemma {:induction false} ResultsAsFinished(n: nat, acts: seq<Action>, s: State, i: nat)
    requires Reaches(n, acts, s) && i < |s.workers| && !s.workers[i].Working?
    ensures exists k :: 0 <= k < |acts| && acts[k] == Finish(i, s.workers[i].result)
    decreases |acts|
  {
    if acts != [] {
      var m := |acts| - 1;
      var b :| Reaches(n, acts[..m], b) && Enabled(b, acts[m]) && s == Step(b, acts[m]);
      if b.workers[i].Working? {
        assert acts[m] == Finish(i, s.workers[i].result);
      } else {
        ResultsAsFinished(n, acts[..m], b, i);
        var k :| 0 <= k < m && acts[..m][k] == Finish(i, b.workers[i].result);
        assert acts[k] == Finish(i, s.workers[i].result);
      }
    }
  }

  /** What the call returns: every worker has finished and sent once, the answer is the first
      result in the order of sending that is no timeout, it is never "running", and it is a
      timeout exactly when every run timed out. */
  lemma AnswerIsFirstDecisive(n: nat, acts: seq<Action>, s: State)
    requires Reaches(n, acts, s) && s.main.Returned?
    ensures AllExited(s.workers) && |s.sent| == |s.workers| == n
    ensures s.main.answer == FirstDecisive(s.sent)
    ensures s.main.answer.AllTimedOut? <==> forall i :: 0 <= i < n ==> TimedOutResult(s.workers[i].result)
    ensures s.main.answer.Failure? ==> exists i :: 0 <= i < n && s.workers[i].result.Failed?
    ensures s.main.answer.Winner? ==>
      s.main.answer.run < n && s.workers[s.main.answer.run].result == Output(s.main.answer.out)
      && s.main.answer.out.state != TimedOut && s.main.answer.out.state != StillRunning && StateFits(s.main.answer.out)
  {
    ReachesInv(n, acts, s);
    SentCountBound(s.workers);
    var a := s.main.answer;
    DecisionPrefix(s.sent, s.received);
    assert s.sent[..n] == s.sent;
    DecisiveTimeout(s.sent);
    if a.AllTimedOut? {
      forall i | 0 <= i < n ensures TimedOutResult(s.workers[i].result) {
        assert SentBy(s.sent, i);
      }
    } else {
      var k := DecisiveOrigin(s.sent);
      assert !TimedOutResult(s.workers[s.sent[k].from].result);
    }
  }

  lemma {:induction false} DecisionPrefix(ms: seq<Message>, k: nat)
    requires k <= |ms|
    ensures !FirstDecisive(ms[..k]).AllTimedOut? ==> FirstDecisive(ms) == FirstDecisive(ms[..k])
    decreases |ms| - k
  {
    if k < |ms| {
      assert ms[..k + 1] == ms[..k] + [ms[k]];
      DecisionStands(ms[..k], ms[k]);
      DecisionPrefix(ms, k + 1);
    } else {
      assert ms[..k] == ms;
    }
  }
}
