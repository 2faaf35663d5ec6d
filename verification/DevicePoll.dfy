/** The device-code poll loop (loginDevice and pollDevice in internal/accounts/device_login.go),
    polling as in section 3.5 of RFC 8628. Time is an integer; the vendor, the clock and the
    caller's context are a world that answers each round as it likes. */
module DevicePoll {
  import opened Common

  const MAX_RETRIES := 3

  type Grant = int

  /** How the select ends: the context, the expiry timer, or the wait timer, maybe late. */
  datatype Nap = NapCancelled | NapExpired | NapOver(late: nat)

  datatype Reply = Approved(grant: Grant) | Pending | Transient | PollDeadline | Refused

  /** The k-th round: its nap, then the poll's reply, how long it took, and whether the caller's
      context was done by then. */
  datatype Round = Round(nap: Nap, reply: Reply, elapsed: nat, cancelled: bool)

  datatype Outcome = Granted(grant: Grant) | Cancelled | Expired | Failed

  predicate IsTransient(r: Round) { r.reply.Transient? || r.reply.PollDeadline? }

  /** Rounds k-4 .. k-1 all failed transiently. */
  predicate FourInARow(world: nat -> Round, k: nat) {
    && k >= 4
    && IsTransient(world(k - 1)) && IsTransient(world(k - 2)) && IsTransient(world(k - 3)) && IsTransient(world(k - 4))
  }

  /** The poll of a round that has the loop go on. */
  predicate GoesOn(r: Round) { !r.cancelled && (r.reply.Pending? || IsTransient(r)) }

  /** How many of the first k rounds failed transiently in a row at the end. */
  function Streak(world: nat -> Round, k: nat): nat {
    if k > 0 && IsTransient(world(k - 1)) then Streak(world, k - 1) + 1 else 0
  }

  lemma StreakStep(world: nat -> Round, k: nat, n: nat)
    requires k > 0
    ensures Streak(world, k) >= n + 1 <==> IsTransient(world(k - 1)) && Streak(world, k - 1) >= n
  {
  }

  lemma StreakMeaning(world: nat -> Round, k: nat)
    ensures Streak(world, k) >= 4 <==> FourInARow(world, k)
  {
    StreakBound(world, k);
    if k >= 4 {
      StreakStep(world, k, 3);
      StreakStep(world, k - 1, 2);
      StreakStep(world, k - 2, 1);
      StreakStep(world, k - 3, 0);
    }
  }

  lemma {:induction false} StreakBound(world: nat -> Round, k: nat)
    ensures Streak(world, k) <= k
  {
    if k > 0 { StreakBound(world, k - 1); }
  }

  /** The poll of round k had the loop go on: it met a pending answer or a transient failure that
      was not the fourth in a row. */
  predicate OneMore(world: nat -> Round, k: nat) { GoesOn(world(k)) && !FourInARow(world, k + 1) }

  predicate Undecided(world: nat -> Round, n: int) { forall k :: 0 <= k < n ==> OneMore(world, k) }

  /** The n-th poll, which ended at `end`, was the loop's last, rather than the wait after it. */
  predicate PollEnds(world: nat -> Round, n: nat, end: int, expiresAt: int) {
    n > 0 && (!OneMore(world, n - 1) || end >= expiresAt)
  }

  /** Why the loop stopped after n polls, the last of which ended at `end`: approved; or the caller
      cancelled, during the poll or in the wait; or neither, and refused or failing for the fourth time
      in a row before the expiry; or else expired. */
  predicate Explains(r: Outcome, world: nat -> Round, n: nat, end: int, expiresAt: int) {
    var byPoll := PollEnds(world, n, end, expiresAt);
    && (r.Granted? <==> n > 0 && world(n - 1).reply.Approved?)
    && (r.Granted? ==> world(n - 1).reply.grant == r.grant)
    && (r.Cancelled? <==>
          if byPoll then !world(n - 1).reply.Approved? && world(n - 1).cancelled else world(n).nap.NapCancelled?)
    && (r.Failed? <==> && n > 0 && !world(n - 1).cancelled && end < expiresAt
                       && (world(n - 1).reply.Refused? || FourInARow(world, n)))
  }

  /** Ending in the wait after n polls that all had the loop go on. */
  lemma EndsInWait(r: Outcome, world: nat -> Round, n: nat, end: int, expiresAt: int)
    requires Undecided(world, n) && (n > 0 ==> end < expiresAt)
    requires if world(n).nap.NapCancelled? then r.Cancelled? else r.Expired?
    ensures Explains(r, world, n, end, expiresAt)
  {
    assert n > 0 ==> OneMore(world, n - 1);
  }

  /** How late the k-th wait was. */
  function Late(round: Round): nat { if round.nap.NapOver? then round.nap.late else 0 }

  /** When the latest poll ended, `start` before the first. */
  function EndOf(world: nat -> Round, starts: seq<int>, start: int): int {
    if starts == [] then start else starts[|starts| - 1] + world(|starts| - 1).elapsed
  }

  /** The k-th poll began one interval, and however late its timer was, after the one before ended. */
  predicate SpacedAt(world: nat -> Round, starts: seq<int>, start: int, interval: int, k: nat)
    requires k < |starts|
  {
    var before := if k == 0 then start else starts[k - 1] + world(k - 1).elapsed;
    starts[k] == before + interval + Late(world(k))
  }

  predicate Spaced(world: nat -> Round, starts: seq<int>, start: int, interval: int) {
    forall k :: 0 <= k < |starts| ==> SpacedAt(world, starts, start, interval, k)
  }

  predicate AllBefore(starts: seq<int>, t: int) { forall k :: 0 <= k < |starts| ==> starts[k] < t }

  lemma SpacedPrefix(world: nat -> Round, starts: seq<int>, start: int, interval: int)
    requires Spaced(world, starts, start, interval) && starts != []
    ensures var n := |starts| - 1;
      && Spaced(world, starts[..n], start, interval)
      && starts[n] >= EndOf(world, starts[..n], start) + interval
  {
    var n := |starts| - 1;
    assert SpacedAt(world, starts, start, interval, n);
    forall k | 0 <= k < n ensures SpacedAt(world, starts[..n], start, interval, k) {
      assert SpacedAt(world, starts, start, interval, k);
    }
  }

  lemma {:induction false} SpacedGrows(world: nat -> Round, starts: seq<int>, start: int, interval: int)
    requires Spaced(world, starts, start, interval)
    ensures EndOf(world, starts, start) >= start + |starts| * interval
    ensures starts != [] ==> starts[|starts| - 1] >= start + |starts| * interval
  {
    if starts != [] {
      var n := |starts| - 1;
      SpacedPrefix(world, starts, start, interval);
      SpacedGrows(world, starts[..n], start, interval);
      assert |starts| * interval == n * interval + interval;
    }
  }

  lemma SpacedNext(world: nat -> Round, starts: seq<int>, start: int, interval: int, t: int)
    requires Spaced(world, starts, start, interval)
    requires t == EndOf(world, starts, start) + interval + Late(world(|starts|))
    ensures Spaced(world, starts + [t], start, interval)
  {
    forall k | 0 <= k < |starts + [t]| ensures SpacedAt(world, starts + [t], start, interval, k) {
      assert k < |starts| ==> SpacedAt(world, starts, start, interval, k);
    }
  }

  function Min(a: int, b: int): int { if a < b then a else b }

  function Max(a: int, b: int): int { if a < b then b else a }

  /** Each poll is given the per-poll timeout, or what is left of the login if that is less. */
  predicate Limited(limits: seq<int>, starts: seq<int>, pollTimeout: int, expiresAt: int) {
    |limits| == |starts| && forall k :: 0 <= k < |starts| ==> limits[k] == Min(pollTimeout, expiresAt - starts[k])
  }

  /** Every poll kept to its limit. */
  predicate KeptLimits(world: nat -> Round, limits: seq<int>) {
    forall k :: 0 <= k < |limits| ==> world(k).elapsed <= limits[k]
  }

  /** The polls so far: spaced out, begun before the expiry, each with its limit. */
  predicate Timeline(
    world: nat -> Round, starts: seq<int>, limits: seq<int>, start: int, interval: int, expiresAt: int,
    pollTimeout: int)
  {
    && Spaced(world, starts, start, interval) && AllBefore(starts, expiresAt)
    && Limited(limits, starts, pollTimeout, expiresAt)
  }

  lemma TimelineNext(
    world: nat -> Round, starts: seq<int>, limits: seq<int>, start: int, interval: int, expiresAt: int,
    pollTimeout: int, t: int)
    requires Timeline(world, starts, limits, start, interval, expiresAt, pollTimeout) && t < expiresAt
    requires t == EndOf(world, starts, start) + interval + Late(world(|starts|))
    ensures var limit := Min(pollTimeout, expiresAt - t);
      Timeline(world, starts + [t], limits + [limit], start, interval, expiresAt, pollTimeout)
    ensures EndOf(world, starts + [t], start) == t + world(|starts|).elapsed
  {
    SpacedNext(world, starts, start, interval, t);
  }

  lemma KeptNext(world: nat -> Round, limits: seq<int>, limit: int)
    requires KeptLimits(world, limits + [limit])
    ensures KeptLimits(world, limits) && world(|limits|).elapsed <= limit
  {
    assert (limits + [limit])[|limits|] == limit;
    assert forall k :: 0 <= k < |limits| ==> (limits + [limit])[k] == limits[k];
  }

  /** A poll within its limit is over by the expiry. */
  lemma OverByExpiry(world: nat -> Round, limits: seq<int>, t: int, expiresAt: int, pollTimeout: int)
    ensures KeptLimits(world, limits + [Min(pollTimeout, expiresAt - t)]) ==> t + world(|limits|).elapsed <= expiresAt
  {
    var limit := Min(pollTimeout, expiresAt - t);
    if KeptLimits(world, limits + [limit]) { KeptNext(world, limits, limit); }
  }

  predicate OnTime(nap: Nap) { nap.NapOver? ==> nap.late == 0 }

  /** pollDevice's switch after its n-th poll: the outcome that ends the loop, or the new count of
      transient failures in a row. */
  method Judge(world: nat -> Round, n: nat, now: int, expiresAt: int, transients: nat)
    returns (end: Option<Outcome>, count: nat)
    requires n > 0 && transients == Streak(world, n - 1)
    ensures end.Some? <==> PollEnds(world, n, now, expiresAt)
    ensures end.Some? ==> Explains(end.value, world, n, now, expiresAt)
    ensures end.None? ==> OneMore(world, n - 1) && count == Streak(world, n) && now < expiresAt
  {
    var round := world(n - 1);
    count := 0;
    if round.reply.Approved? { return Some(Granted(round.reply.grant)), count; }
    if round.cancelled { return Some(Cancelled), count; }
    if now >= expiresAt { return Some(Expired), count; }
    if round.reply.Refused? { return Some(Failed), count; }
    StreakMeaning(world, n);
    if !round.reply.Pending? {
      count := transients + 1;
      if count > MAX_RETRIES { return Some(Failed), count; }
    }
    return None, count;
  }

  /** When a wait that began at `end` was over. */
  function WaitOver(nap: Nap, end: int, interval: int, expiresAt: int): int {
    match nap
    case NapCancelled => end
    case NapExpired => Max(end, expiresAt)
    case NapOver(late) => end + interval + late
  }

  /** pollDevice. `starts` are the times the polls began and `limits` the time each was given, the
      k-th poll belonging to round k. */
  method PollDevice(world: nat -> Round, start: int, interval: int, expiresAt: int, pollTimeout: int)
    returns (r: Outcome, starts: seq<int>, limits: seq<int>, now: int)
    requires interval > 0
    // every poll starts before the expiry, one interval after the one before ended
    ensures Timeline(world, starts, limits, start, interval, expiresAt, pollTimeout)
    // it goes on only past pending answers and runs of at most three transient failures
    ensures Undecided(world, |starts| - 1)
    // and it stops for the reason it reports
    ensures Explains(r, world, |starts|, EndOf(world, starts, start), expiresAt)
    // it returns when its last poll ends, or from the wait after it, and expired only past the expiry
    ensures var (n, end) := (|starts|, EndOf(world, starts, start));
      now == if PollEnds(world, n, end, expiresAt) then end else WaitOver(world(n).nap, end, interval, expiresAt)
    ensures r.Expired? ==> now >= expiresAt
    // if the polls keep to their limits and the last nap is on time, it is over one interval after the expiry
    ensures KeptLimits(world, limits) && OnTime(world(|starts|).nap) ==> now <= Max(start, expiresAt) + interval
  {
    starts, limits, now := [], [], start;
    var transients := 0;
    while true
      invariant now == EndOf(world, starts, start) && |limits| == |starts|
      invariant Timeline(world, starts, limits, start, interval, expiresAt, pollTimeout)
      invariant KeptLimits(world, limits) ==> now <= Max(start, expiresAt)
      invariant Undecided(world, |starts|)
      invariant transients == Streak(world, |starts|)
      invariant starts != [] ==> now < expiresAt
      decreases expiresAt - now
    {
      var round := world(|starts|);
      match round.nap {
        case NapCancelled =>
          EndsInWait(Cancelled, world, |starts|, now, expiresAt);
          return Cancelled, starts, limits, now;
        case NapExpired =>
          EndsInWait(Expired, world, |starts|, now, expiresAt);
          if now < expiresAt { now := expiresAt; }
          return Expired, starts, limits, now;
        case NapOver(late) => now := now + interval + late;
      }
      var remaining := expiresAt - now;
      if remaining <= 0 {
        EndsInWait(Expired, world, |starts|, EndOf(world, starts, start), expiresAt);
        return Expired, starts, limits, now;
      }
      TimelineNext(world, starts, limits, start, interval, expiresAt, pollTimeout, now);
      OverByExpiry(world, limits, now, expiresAt, pollTimeout);
      starts, limits := starts + [now], limits + [Min(pollTimeout, remaining)];
      now := now + round.elapsed;
      var end;
      end, transients := Judge(world, |starts|, now, expiresAt, transients);
      if end.Some? { return end.value, starts, limits, now; }
    }
  }

  /** loginDevice's choice of interval and expiry, and its polling: never more often than the
      coordinator's minimum, so fewer than timeout / interval polls. */
  method LoginDevice(
    world: nat -> Round, now0: int, eventTime: nat, vendorInterval: int, minPoll: int, timeout: int, pollTimeout: int)
    returns (r: Outcome, starts: seq<int>, interval: int, now: int)
    requires minPoll > 0
    ensures interval == Max(vendorInterval, minPoll)
    ensures starts != [] ==> |starts| * interval < timeout
    ensures AllBefore(starts, now0 + timeout)
    ensures Explains(r, world, |starts|, EndOf(world, starts, now0 + eventTime), now0 + timeout)
  {
    var expiresAt := now0 + timeout;
    interval := Max(vendorInterval, minPoll);
    var limits;
    r, starts, limits, now := PollDevice(world, now0 + eventTime, interval, expiresAt, pollTimeout);
    if starts != [] { SpacedGrows(world, starts, now0 + eventTime, interval); }
  }
}
