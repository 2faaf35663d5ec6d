/** The live viewer against the one-shot listing (printRunLogs in cmd/smind/task.go): what the two
    print for the same events, whatever the hold timers do. */
module RunListing {
  import opened RunViewer

  // ---------------------------------------------------------------- other output

  /** Without permission lines the two print the same, in the same order: for every log, every
      index and every interleaving of timers and flush. */
  lemma PlainMatches(o: Options, o': Options, idx: map<RequestId, int>, acts: seq<Act>)
    requires o.verbose == o'.verbose
    ensures Plain(Run(o, acts).out) == Plain(Listing(o', idx, Events(acts)).out)
    ensures Run(o, acts).names == Listing(o', idx, Events(acts)).names
  {
    PlainUpTo(o, o', idx, acts, |acts|);
    assert acts[..|acts|] == acts;
  }

  ghost predicate PlainAgrees(o: Options, o': Options, idx: map<RequestId, int>, acts: seq<Act>) {
    var (live, list) := (Run(o, acts), Listing(o', idx, Events(acts)));
    Plain(live.out) == Plain(list.out) && live.names == list.names
  }

  lemma {:induction false} PlainUpTo(o: Options, o': Options, idx: map<RequestId, int>, acts: seq<Act>, k: nat)
    requires o.verbose == o'.verbose && k <= |acts|
    ensures PlainAgrees(o, o', idx, acts[..k])
  {
    if k == 0 {
      PlainNothing(o, o', idx, acts[..k]);
    } else {
      PlainUpTo(o, o', idx, acts, k - 1);
      PlainStep(o, o', idx, acts[..k - 1], acts[k - 1]);
      assert acts[..k] == acts[..k - 1] + [acts[k - 1]];
    }
  }

  lemma PlainNothing(o: Options, o': Options, idx: map<RequestId, int>, before: seq<Act>)
    requires before == []
    ensures PlainAgrees(o, o', idx, before)
  {}

  lemma PlainStep(o: Options, o': Options, idx: map<RequestId, int>, before: seq<Act>, a: Act)
    requires o.verbose == o'.verbose && PlainAgrees(o, o', idx, before)
    ensures PlainAgrees(o, o', idx, before + [a])
  {
    var live, list := Run(o, before), Listing(o', idx, Events(before));
    RunSnoc(o, before, a);
    if a.Stream? {
      ListingSnoc(o', idx, Events(before), a.event);
      PlainEvent(o, o', idx, live, list, a.event);
    } else {
      PlainRelease(live, a.id);
    }
  }

  lemma PlainEvent(o: Options, o': Options, idx: map<RequestId, int>, live: View, list: View, e: Event)
    requires o.verbose == o'.verbose && Plain(live.out) == Plain(list.out) && live.names == list.names
    ensures Plain(OnEvent(o, live, e).out) == Plain(ListEvent(o', idx, list, e).out)
    ensures OnEvent(o, live, e).names == ListEvent(o', idx, list, e).names
  {
    PlainOnEvent(o, live, e);
    PlainListEvent(o', idx, list, e);
    NamesEvent(o, o', idx, live, list, e);
  }

  lemma PlainRelease(v: View, id: RequestId)
    ensures Plain(Release(v, id).out) == Plain(v.out)
  {
    if id in v.held { PlainSnoc(v.out, Block(v.held[id])); }
  }

  lemma NamesEvent(o: Options, o': Options, idx: map<RequestId, int>, live: View, list: View, e: Event)
    requires live.names == list.names
    ensures OnEvent(o, live, e).names == ListEvent(o', idx, list, e).names
  {}

  /** The line that is no permission line which an event prints, if any. */
  function PlainLine(verbose: bool, names: map<string, string>, e: Event): seq<Line> {
    match e
    case Text(s) => [TextLine(s)]
    case Tool(c) => [ToolLine(ShownName(names, c), c.status, c.data)]
    case Raw(d) => if verbose then [RawLine(d)] else []
    case _ => []
  }

  lemma PlainTwo(out: seq<Line>, l: Line, l': Line)
    requires PermissionLine(l) && PermissionLine(l')
    ensures Plain(out + [l, l']) == Plain(out)
  {
    PlainSnoc(out, l);
    PlainSnoc(out + [l], l');
    assert out + [l, l'] == out + [l] + [l'];
  }

  lemma PlainOnEvent(o: Options, v: View, e: Event)
    ensures Plain(OnEvent(o, v, e).out) == Plain(v.out) + PlainLine(o.verbose, v.names, e)
  {
    var out := OnEvent(o, v, e).out;
    if |out| == |v.out| + 1 {
      PlainSnoc(v.out, out[|v.out|]);
    } else if |out| == |v.out| + 2 {
      PlainTwo(v.out, out[|v.out|], out[|v.out| + 1]);
    }
  }

  lemma PlainListEvent(o: Options, idx: map<RequestId, int>, v: View, e: Event)
    ensures Plain(ListEvent(o, idx, v, e).out) == Plain(v.out) + PlainLine(o.verbose, v.names, e)
  {
    var out := ListEvent(o, idx, v, e).out;
    if |out| == |v.out| + 1 { PlainSnoc(v.out, out[|v.out|]); }
  }

  // ---------------------------------------------------------------- where things happen

  predicate RequestsAt(acts: seq<Act>, i: int, id: RequestId) {
    0 <= i < |acts| && acts[i].Stream? && acts[i].event.Requested? && acts[i].event.request.id == id
  }

  predicate ResolvesAt(acts: seq<Act>, i: int, id: RequestId) {
    0 <= i < |acts| && acts[i].Stream? && acts[i].event.Resolved? && acts[i].event.id == id
  }

  /** A hold timer fires for `id`, or flush releases it. */
  predicate ReleasesAt(acts: seq<Act>, i: int, id: RequestId) {
    0 <= i < |acts| && !acts[i].Stream? && acts[i].id == id
  }

  predicate AcceptsAt(acts: seq<Act>, i: int, id: RequestId) {
    ResolvesAt(acts, i, id) && acts[i].event.reason.AutoAccept?
  }

  /** The request was made, and neither resolved nor released since. */
  ghost predicate OpenSince(acts: seq<Act>, i: int, id: RequestId) {
    RequestsAt(acts, i, id) && forall k :: i < k ==> !ReleasesAt(acts, k, id) && !ResolvesAt(acts, k, id)
  }

  /** What is held, on any interleaving. */
  lemma {:induction false} HeldMeaning(o: Options, acts: seq<Act>, id: RequestId)
    ensures id in Run(o, acts).held <==> o.autoAccept && exists i :: OpenSince(acts, i, id)
  {
    if acts != [] {
      var n := |acts| - 1;
      var before := acts[..n];
      HeldMeaning(o, before, id);
      assert forall i :: 0 <= i < n ==> before[i] == acts[i];
      if RequestsAt(acts, n, id) {
        assert OpenSince(acts, n, id);
      } else if ReleasesAt(acts, n, id) || ResolvesAt(acts, n, id) {
        assert forall i :: OpenSince(acts, i, id) ==> i < n;
      } else {
        assert forall k :: ReleasesAt(before, k, id) <==> ReleasesAt(acts, k, id);
        assert forall k :: ResolvesAt(before, k, id) <==> ResolvesAt(acts, k, id);
        assert forall i :: RequestsAt(before, i, id) <==> RequestsAt(acts, i, id);
        if i :| OpenSince(before, i, id) {
          assert OpenSince(acts, i, id);
        } else if i :| OpenSince(acts, i, id) {
          assert OpenSince(before, i, id);
        }
      }
    }
  }

  /** Well-formedness, of the interleaving. */
  ghost predicate ActsOk(acts: seq<Act>) {
    && (forall i, j, id :: RequestsAt(acts, i, id) && RequestsAt(acts, j, id) ==> i == j)
    && (forall i, j, id :: ResolvesAt(acts, i, id) && ResolvesAt(acts, j, id) ==> i == j)
    && (forall j, id :: ResolvesAt(acts, j, id) ==> exists i :: i < j && RequestsAt(acts, i, id))
  }

  lemma {:induction false} SameEvents(acts: seq<Act>, id: RequestId)
    ensures RequestedIn(Events(acts), id) <==> exists i :: RequestsAt(acts, i, id)
    ensures ResolvedIn(Events(acts), id) <==> exists i :: ResolvesAt(acts, i, id)
  {
    if acts != [] {
      var n := |acts| - 1;
      SameEvents(acts[..n], id);
      if i :| RequestsAt(acts, i, id) {
        assert i < n ==> RequestsAt(acts[..n], i, id);
      }
      if i :| RequestsAt(acts[..n], i, id) {
        assert RequestsAt(acts, i, id);
      }
      if i :| ResolvesAt(acts, i, id) {
        assert i < n ==> ResolvesAt(acts[..n], i, id);
      }
      if i :| ResolvesAt(acts[..n], i, id) {
        assert ResolvesAt(acts, i, id);
      }
      if acts[n].Stream? {
        RequestedNext(Events(acts[..n]), acts[n].event, id);
        ResolvedNext(Events(acts[..n]), acts[n].event, id);
        assert RequestsAt(acts, n, id) <==> acts[n].event.Requested? && acts[n].event.request.id == id;
        assert ResolvesAt(acts, n, id) <==> acts[n].event.Resolved? && acts[n].event.id == id;
      } else {
        assert Events(acts) == Events(acts[..n]);
      }
    }
  }

  lemma WellFormedBefore(acts: seq<Act>)
    requires acts != [] && WellFormed(Events(acts))
    ensures WellFormed(Events(acts[..|acts| - 1]))
  {
    var n := |acts| - 1;
    if acts[n].Stream? {
      WellFormedPrefix(Events(acts[..n]), acts[n].event);
    } else {
      assert Events(acts) == Events(acts[..n]);
    }
  }

  lemma {:induction false} WellFormedUpTo(acts: seq<Act>, k: nat)
    requires WellFormed(Events(acts)) && k <= |acts|
    ensures WellFormed(Events(acts[..k]))
  {
    if k < |acts| {
      WellFormedBefore(acts);
      WellFormedUpTo(acts[..|acts| - 1], k);
      assert acts[..|acts| - 1][..k] == acts[..k];
    } else {
      assert acts[..k] == acts;
    }
  }

  /** A new event of a well-formed interleaving requests something new, or resolves something
      requested and not yet resolved. */
  lemma NewEvent(acts: seq<Act>, id: RequestId)
    requires acts != [] && WellFormed(Events(acts))
    ensures var n := |acts| - 1;
      && (RequestsAt(acts, n, id) ==> forall i :: !RequestsAt(acts[..n], i, id))
      && (ResolvesAt(acts, n, id) ==> forall i :: !ResolvesAt(acts[..n], i, id))
      && (ResolvesAt(acts, n, id) ==> exists i :: RequestsAt(acts[..n], i, id))
  {
    var n := |acts| - 1;
    if acts[n].Stream? {
      NextEvent(Events(acts[..n]), acts[n].event);
      SameEvents(acts[..n], id);
    }
  }

  lemma {:induction false} WellFormedActs(acts: seq<Act>)
    requires WellFormed(Events(acts))
    ensures ActsOk(acts)
  {
    if acts != [] {
      var n := |acts| - 1;
      WellFormedBefore(acts);
      WellFormedActs(acts[..n]);
      if acts[n].Stream? && acts[n].event.Requested? { NewEvent(acts, acts[n].event.request.id); }
      if acts[n].Stream? && acts[n].event.Resolved? { NewEvent(acts, acts[n].event.id); }
      assert forall i, id :: i < n && RequestsAt(acts, i, id) ==> RequestsAt(acts[..n], i, id);
      assert forall i, id :: i < n && ResolvesAt(acts, i, id) ==> ResolvesAt(acts[..n], i, id);
      assert forall i, id :: RequestsAt(acts[..n], i, id) ==> i < n && RequestsAt(acts, i, id);
      forall j, id | ResolvesAt(acts, j, id) ensures exists i :: i < j && RequestsAt(acts, i, id) {
        if j < n {
          assert ResolvesAt(acts[..n], j, id);
        }
      }
    }
  }

  lemma AcceptsNext(acts: seq<Act>, j: int, id: RequestId)
    requires acts != []
    ensures var n := |acts| - 1;
      AcceptsAt(acts, j, id) <==> AcceptsAt(acts[..n], j, id) || (j == n && AcceptsAt(acts, n, id))
  {}

  /** What the last act does to the index. */
  lemma IndexNext(acts: seq<Act>, id: RequestId)
    requires acts != []
    ensures var n := |acts| - 1;
      id in AutoIndex(Events(acts)) <==> id in AutoIndex(Events(acts[..n])) || AcceptsAt(acts, n, id)
  {
    var before, a := acts[..|acts| - 1], acts[|acts| - 1];
    if a.Stream? {
      ListingSnoc(Options(false, false), map[], Events(before), a.event);
      assert Events(acts) == Events(before) + [a.event];
    } else {
      assert Events(acts) == Events(before);
    }
  }

  /** The listing's index holds the requests that are auto-accepted somewhere. */
  lemma {:induction false} IndexedIff(acts: seq<Act>, id: RequestId)
    ensures id in AutoIndex(Events(acts)) <==> exists j :: AcceptsAt(acts, j, id)
  {
    if acts != [] {
      var n := |acts| - 1;
      IndexedIff(acts[..n], id);
      IndexNext(acts, id);
      if j :| AcceptsAt(acts, j, id) { AcceptsNext(acts, j, id); }
      if j :| AcceptsAt(acts[..n], j, id) { AcceptsNext(acts, j, id); }
    }
  }

  /** With one resolution per request, the index holds that resolution's option. */
  lemma {:induction false} IndexedOption(acts: seq<Act>, j: nat, id: RequestId)
    requires ResolvesAt(acts, j, id) && forall k :: ResolvesAt(acts, k, id) ==> k == j
    ensures id in AutoIndex(Events(acts)) <==> acts[j].event.reason.AutoAccept?
    ensures id in AutoIndex(Events(acts)) ==> AutoIndex(Events(acts))[id] == acts[j].event.option
  {
    var n := |acts| - 1;
    IndexedIff(acts, id);
    if j < n {
      assert forall k :: ResolvesAt(acts[..n], k, id) ==> ResolvesAt(acts, k, id);
      assert !ResolvesAt(acts, n, id);
      IndexedOption(acts[..n], j, id);
    }
    if acts[n].Stream? {
      assert Events(acts)[..|Events(acts[..n])|] == Events(acts[..n]);
    } else {
      assert Events(acts) == Events(acts[..n]);
    }
    assert acts[j].event.reason.AutoAccept? ==> AcceptsAt(acts, j, id);
  }

  // ---------------------------------------------------------------- permission lines

  /** What the listing printed for a request that the live viewer still holds. */
  function PendingLine(r: Request, idx: map<RequestId, int>): Line {
    if r.id in idx then AutoLine(r, idx[r.id]) else Block(r)
  }

  function PendingLines(held: map<RequestId, Request>, idx: map<RequestId, int>): set<Line> {
    set id | id in held :: PendingLine(held[id], idx)
  }

  ghost predicate HeldById(held: map<RequestId, Request>) { forall id :: id in held ==> held[id].id == id }

  /** The live viewer and the listing after the same events: what the live viewer lacks is what
      it holds. */
  ghost predicate InStep(live: View, list: View, idx: map<RequestId, int>) {
    multiset(live.out) + multiset(PendingLines(live.held, idx)) == multiset(list.out)
  }

  lemma HoldLine(held: map<RequestId, Request>, idx: map<RequestId, int>, r: Request)
    requires r.id !in held && HeldById(held)
    ensures multiset(PendingLines(held[r.id := r], idx)) ==
      multiset(PendingLines(held, idx)) + multiset{PendingLine(r, idx)}
  {
    var before, l := PendingLines(held, idx), PendingLine(r, idx);
    assert forall id :: id in held ==> PendingLine(held[id], idx) != l;
    assert l !in before;
    assert PendingLines(held[r.id := r], idx) == before + {l} by {
      forall id | id in held ensures held[r.id := r][id] == held[id] {}
      assert held[r.id := r][r.id] == r;
    }
  }

  lemma UnholdLine(held: map<RequestId, Request>, idx: map<RequestId, int>, id: RequestId)
    requires id in held && HeldById(held)
    ensures multiset(PendingLines(held, idx)) ==
      multiset(PendingLines(held - {id}, idx)) + multiset{PendingLine(held[id], idx)}
  {
    HoldLine(held - {id}, idx, held[id]);
    assert (held - {id})[id := held[id]] == held;
  }

  /** Both print the same line. */
  lemma InStepPrint(idx: map<RequestId, int>, live: View, list: View, l: Line)
    requires InStep(live, list, idx)
    ensures InStep(Print(live, l), Print(list, l), idx)
  {}

  /** The listing prints a request the live viewer begins to hold, or prints in the same form. */
  lemma InStepRequest(o: Options, idx: map<RequestId, int>, live: View, list: View, r: Request)
    requires InStep(live, list, idx) && r.id !in live.held && HeldById(live.held)
    requires o.autoAccept || r.id !in idx
    ensures InStep(OnRequest(o, live, r), Print(list, PendingLine(r, idx)), idx)
  {
    if o.autoAccept {
      HoldLine(live.held, idx, r);
    } else {
      InStepPrint(idx, live, list, Block(r));
    }
  }

  /** The live viewer prints a held request the way the listing had printed it. */
  lemma InStepUnhold(idx: map<RequestId, int>, live: View, list: View, id: RequestId)
    requires InStep(live, list, idx) && id in live.held && HeldById(live.held)
    ensures InStep(View(live.out + [PendingLine(live.held[id], idx)], live.names, live.held - {id}), list, idx)
  {
    UnholdLine(live.held, idx, id);
  }

  lemma InStepResolve(
    idx: map<RequestId, int>, live: View, list: View, id: RequestId, option: int, reason: Reason)
    requires InStep(live, list, idx) && HeldById(live.held) && (reason.AutoAccept? ==> id in live.held)
    requires (id in idx <==> reason.AutoAccept?) && (id in idx ==> idx[id] == option)
    ensures InStep(OnResolved(live, id, option, reason),
                   if id in idx then list else Print(list, ResolvedLine(id, option, reason)), idx)
  {
    var line := ResolvedLine(id, option, reason);
    if id !in live.held {
      InStepPrint(idx, live, list, line);
    } else {
      InStepUnhold(idx, live, list, id);
      if !reason.AutoAccept? {
        var mid := Release(live, id);
        InStepPrint(idx, mid, list, line);
        assert live.out + [Block(live.held[id]), line] == mid.out + [line];
      }
    }
  }

  lemma InStepEvent(o: Options, o': Options, idx: map<RequestId, int>, live: View, list: View, e: Event)
    requires o.verbose == o'.verbose && InStep(live, list, idx) && live.names == list.names && HeldById(live.held)
    requires e.Requested? ==> e.request.id !in live.held && (o.autoAccept || e.request.id !in idx)
    requires e.Resolved? ==> (e.reason.AutoAccept? ==> e.id in live.held)
    requires e.Resolved? ==> (e.id in idx <==> e.reason.AutoAccept?) && (e.id in idx ==> idx[e.id] == e.option)
    ensures InStep(OnEvent(o, live, e), ListEvent(o', idx, list, e), idx)
  {
    match e
    case Text(s) => InStepPrint(idx, live, list, TextLine(s));
    case Tool(c) => InStepPrint(idx, live, list, ToolLine(ShownName(live.names, c), c.status, c.data));
    case Raw(d) => InStepPrint(idx, live, list, RawLine(d));
    case Requested(r) => InStepRequest(o, idx, live, list, r);
    case Resolved(id, option, reason) => InStepResolve(idx, live, list, id, option, reason);
    case Unknown =>
  }

  // ---------------------------------------------------------------- when they agree

  /** An auto-accepted request whose block was printed before its resolution came: the viewer does
      not hold requests at all, or the hold ended in between. */
  ghost predicate CutShort(o: Options, acts: seq<Act>, j: int, id: RequestId) {
    AcceptsAt(acts, j, id) && (o.autoAccept ==> exists k :: ReleasedBetween(acts, k, j, id))
  }

  ghost predicate ReleasedBetween(acts: seq<Act>, k: int, j: int, id: RequestId) {
    k < j && ReleasesAt(acts, k, id) && exists i :: i < k && RequestsAt(acts, i, id)
  }

  /** Which requests are still held when they are auto-accepted. */
  lemma HeldUnlessCutShort(o: Options, acts: seq<Act>, j: nat, id: RequestId)
    requires ActsOk(acts) && AcceptsAt(acts, j, id)
    ensures id in Run(o, acts[..j]).held <==> !CutShort(o, acts, j, id)
  {
    var before := acts[..j];
    HeldMeaning(o, before, id);
    assert ResolvesAt(acts, j, id);
    var i :| i < j && RequestsAt(acts, i, id);
    assert RequestsAt(before, i, id);
    assert forall x :: RequestsAt(before, x, id) ==> RequestsAt(acts, x, id);
    assert forall x :: OpenSince(before, x, id) ==> x == i;
    assert forall k :: ResolvesAt(before, k, id) ==> ResolvesAt(acts, k, id);
    assert forall k :: ReleasesAt(before, k, id) <==> ReleasesAt(acts, k, id) && k < j;
    if k :| ReleasedBetween(acts, k, j, id) {
      assert ReleasesAt(before, k, id);
    } else {
      forall k | i < k ensures !ReleasesAt(before, k, id) && !ResolvesAt(before, k, id) {
        assert ReleasesAt(before, k, id) ==> ReleasedBetween(acts, k, j, id);
        assert ResolvesAt(before, k, id) ==> k < j && ResolvesAt(acts, k, id);
      }
      assert OpenSince(before, i, id);
    }
  }

  /** A request that is released while it is held, and is auto-accepted somewhere, is cut short. */
  lemma ReleasedThenAccepted(o: Options, acts: seq<Act>, k: nat, j: int, id: RequestId)
    requires ActsOk(acts) && ReleasesAt(acts, k, id) && AcceptsAt(acts, j, id) && id in Run(o, acts[..k]).held
    ensures CutShort(o, acts, j, id)
  {
    HeldMeaning(o, acts[..k], id);
    var i :| OpenSince(acts[..k], i, id);
    assert RequestsAt(acts, i, id);
    assert ResolvesAt(acts, j, id);
    var i' :| i' < j && RequestsAt(acts, i', id);
    if j < k { assert ResolvesAt(acts[..k], j, id); }
    assert ReleasedBetween(acts, k, j, id);
  }

  /** Live viewer and listing are in step after `acts`. */
  ghost predicate Matched(o: Options, o': Options, idx: map<RequestId, int>, acts: seq<Act>) {
    InStep(Run(o, acts), Listing(o', idx, Events(acts)), idx)
  }

  /** A well-formed interleaving in which no request is cut short, with the listing's index. */
  ghost predicate Uncut(o: Options, idx: map<RequestId, int>, acts: seq<Act>) {
    && WellFormed(Events(acts)) && ActsOk(acts) && idx == AutoIndex(Events(acts))
    && forall j, id :: !CutShort(o, acts, j, id)
  }

  /** A request as it comes: not held yet, and in a viewer that holds nothing not in the index. */
  lemma RequestFits(o: Options, idx: map<RequestId, int>, acts: seq<Act>, k: nat, id: RequestId)
    requires Uncut(o, idx, acts) && RequestsAt(acts, k, id)
    ensures id !in Run(o, acts[..k]).held && (o.autoAccept || id !in idx)
  {
    HeldMeaning(o, acts[..k], id);
    assert forall i :: OpenSince(acts[..k], i, id) ==> RequestsAt(acts, i, id) && i < k;
    IndexedIff(acts, id);
    assert forall j :: AcceptsAt(acts, j, id) ==> CutShort(o, acts, j, id) || o.autoAccept;
  }

  /** A resolution as it comes: the index knows it, and an auto-accepted request is held. */
  lemma ResolutionFits(o: Options, idx: map<RequestId, int>, acts: seq<Act>, k: nat, id: RequestId)
    requires Uncut(o, idx, acts) && ResolvesAt(acts, k, id)
    ensures var e := acts[k].event;
      && (e.reason.AutoAccept? ==> id in Run(o, acts[..k]).held)
      && (id in idx <==> e.reason.AutoAccept?) && (id in idx ==> idx[id] == e.option)
  {
    IndexedOption(acts, k, id);
    if acts[k].event.reason.AutoAccept? { HeldUnlessCutShort(o, acts, k, id); }
  }

  lemma HeldByIdUpTo(o: Options, acts: seq<Act>, k: nat)
    requires WellFormed(Events(acts)) && k <= |acts|
    ensures HeldById(Run(o, acts[..k]).held)
  {
    WellFormedUpTo(acts, k);
    RunOnce(o, acts[..k]);
  }

  /** A release while held: the listing printed the block too. */
  lemma ReleaseFits(o: Options, idx: map<RequestId, int>, acts: seq<Act>, k: nat, id: RequestId)
    requires Uncut(o, idx, acts) && ReleasesAt(acts, k, id) && id in Run(o, acts[..k]).held
    ensures id !in idx
  {
    IndexedIff(acts, id);
    if j :| AcceptsAt(acts, j, id) {
      ReleasedThenAccepted(o, acts, k, j, id);
    }
  }

  lemma MatchedStream(o: Options, o': Options, idx: map<RequestId, int>, before: seq<Act>, e: Event)
    requires Matched(o, o', idx, before) && o.verbose == o'.verbose && HeldById(Run(o, before).held)
    requires e.Requested? ==> e.request.id !in Run(o, before).held && (o.autoAccept || e.request.id !in idx)
    requires e.Resolved? ==> (e.reason.AutoAccept? ==> e.id in Run(o, before).held)
    requires e.Resolved? ==> (e.id in idx <==> e.reason.AutoAccept?) && (e.id in idx ==> idx[e.id] == e.option)
    ensures Matched(o, o', idx, before + [Stream(e)])
  {
    PlainMatches(o, o', idx, before);
    InStepEvent(o, o', idx, Run(o, before), Listing(o', idx, Events(before)), e);
    RunSnoc(o, before, Stream(e));
    ListingSnoc(o', idx, Events(before), e);
  }

  lemma MatchedRelease(o: Options, o': Options, idx: map<RequestId, int>, before: seq<Act>, a: Act)
    requires Matched(o, o', idx, before) && HeldById(Run(o, before).held)
    requires !a.Stream? && (a.id in Run(o, before).held ==> a.id !in idx)
    ensures Matched(o, o', idx, before + [a])
  {
    var v := Run(o, before);
    if a.id in v.held { InStepUnhold(idx, v, Listing(o', idx, Events(before)), a.id); }
    RunSnoc(o, before, a);
  }

  lemma StepMatches(o: Options, o': Options, idx: map<RequestId, int>, acts: seq<Act>, k: nat, before: seq<Act>)
    requires Uncut(o, idx, acts) && o.verbose == o'.verbose && k < |acts| && before == acts[..k]
    requires Matched(o, o', idx, before)
    ensures Matched(o, o', idx, before + [acts[k]])
  {
    var a := acts[k];
    HeldByIdUpTo(o, acts, k);
    if !a.Stream? {
      if a.id in Run(o, before).held { ReleaseFits(o, idx, acts, k, a.id); }
      MatchedRelease(o, o', idx, before, a);
    } else {
      if a.event.Requested? { RequestFits(o, idx, acts, k, a.event.request.id); }
      if a.event.Resolved? { ResolutionFits(o, idx, acts, k, a.event.id); }
      MatchedStream(o, o', idx, before, a.event);
    }
  }

  lemma NothingMatches(o: Options, o': Options, idx: map<RequestId, int>, before: seq<Act>)
    requires before == []
    ensures Matched(o, o', idx, before)
  {
    assert PendingLines(map[], idx) == {};
  }

  /** The step at `k` keeps the two in step. */
  ghost predicate KeepsMatching(o: Options, o': Options, idx: map<RequestId, int>, acts: seq<Act>, k: int)
    requires 0 <= k < |acts|
  {
    Matched(o, o', idx, acts[..k]) ==> Matched(o, o', idx, acts[..k] + [acts[k]])
  }

  lemma {:induction false} KeptUpTo(o: Options, o': Options, idx: map<RequestId, int>, acts: seq<Act>, k: nat)
    requires k <= |acts| && forall i :: 0 <= i < |acts| ==> KeepsMatching(o, o', idx, acts, i)
    ensures Matched(o, o', idx, acts[..k])
  {
    if k == 0 {
      NothingMatches(o, o', idx, acts[..k]);
    } else {
      KeptUpTo(o, o', idx, acts, k - 1);
      assert KeepsMatching(o, o', idx, acts, k - 1);
      assert acts[..k] == acts[..k - 1] + [acts[k - 1]];
    }
  }

  lemma UncutMatches(o: Options, o': Options, idx: map<RequestId, int>, acts: seq<Act>)
    requires Uncut(o, idx, acts) && o.verbose == o'.verbose
    ensures Matched(o, o', idx, acts)
  {
    forall k | 0 <= k < |acts| ensures KeepsMatching(o, o', idx, acts, k) {
      if Matched(o, o', idx, acts[..k]) { StepMatches(o, o', idx, acts, k, acts[..k]); }
    }
    KeptUpTo(o, o', idx, acts, |acts|);
    assert acts[..|acts|] == acts;
  }

  /** The listing prints no block for a request of its index. */
  lemma {:induction false} ListingBlocks(o: Options, idx: map<RequestId, int>, log: seq<Event>, l: Line)
    requires l in Listing(o, idx, log).out && l.Block?
    ensures l.request.id !in idx
  {
    var n := |log| - 1;
    if l in Listing(o, idx, log[..n]).out {
      ListingBlocks(o, idx, log[..n], l);
    }
  }

  lemma {:induction false} OutputGrows(o: Options, acts: seq<Act>, j: nat)
    requires j <= |acts|
    ensures Run(o, acts[..j]).out <= Run(o, acts).out
  {
    if j < |acts| {
      var n := |acts| - 1;
      OutputGrows(o, acts[..n], j);
      assert acts[..n][..j] == acts[..j];
      StepGrows(o, Run(o, acts[..n]), acts[n]);
    } else {
      assert acts[..j] == acts;
    }
  }

  lemma StepGrows(o: Options, v: View, a: Act)
    ensures v.out <= Do(o, v, a).out
  {}

  /** A request cut short has its block printed, which the listing does not print. */
  lemma CutShortDiffers(o: Options, o': Options, acts: seq<Act>, j: int, id: RequestId)
    requires WellFormed(Events(acts)) && ActsOk(acts) && CutShort(o, acts, j, id)
    ensures multiset(Run(o, acts).out) != multiset(Listing(o', AutoIndex(Events(acts)), Events(acts)).out)
  {
    var before, e := acts[..j], acts[j].event;
    HeldUnlessCutShort(o, acts, j, id);
    WellFormedUpTo(acts, j);
    WellFormedUpTo(acts, j + 1);
    assert acts[..j + 1][..j] == before;
    RunOnce(o, before);
    RunAuto(o, before);
    assert e == Resolved(id, e.option, e.reason);
    var k := BlockPrinted(Run(o, before), Events(before), id, e.option, e.reason);
    OutputGrows(o, acts, j);
    var l := Run(o, before).out[k];
    assert l == Run(o, acts).out[k];
    assert l in multiset(Run(o, acts).out);
    IndexedIff(acts, id);
    if l in Listing(o', AutoIndex(Events(acts)), Events(acts)).out {
      ListingBlocks(o', AutoIndex(Events(acts)), Events(acts), l);
    }
  }

  /** Exactly when the two print the same lines. On a well-formed log, with stream events, hold
      timers and flush interleaved in any way: the flushed live viewer prints the same multiset of
      lines as the listing iff no request that came to be auto-accepted had been printed in full
      before, because nothing is held in this run or because its hold had ended. */
  lemma MatchesListingIff(o: Options, o': Options, acts: seq<Act>, from: nat)
    requires WellFormed(Events(acts)) && o.verbose == o'.verbose && Flushing(o, acts, from)
    ensures multiset(Run(o, acts).out) == multiset(Listing(o', AutoIndex(Events(acts)), Events(acts)).out) <==>
      forall j, id :: !CutShort(o, acts, j, id)
  {
    var idx := AutoIndex(Events(acts));
    WellFormedActs(acts);
    if j, id :| CutShort(o, acts, j, id) {
      CutShortDiffers(o, o', acts, j, id);
    } else {
      UncutMatches(o, o', idx, acts);
      EachRequestPrintedOnce(o, acts, from);
      assert PendingLines(map[], idx) == {};
    }
  }

  lemma RunSnoc(o: Options, acts: seq<Act>, a: Act)
    ensures Run(o, acts + [a]) == Do(o, Run(o, acts), a)
    ensures Events(acts + [a]) == if a.Stream? then Events(acts) + [a.event] else Events(acts)
  {
    assert (acts + [a])[..|acts|] == acts;
  }

  lemma ListingSnoc(o: Options, idx: map<RequestId, int>, log: seq<Event>, e: Event)
    ensures Listing(o, idx, log + [e]) == ListEvent(o, idx, Listing(o, idx, log), e)
    ensures AutoIndex(log + [e]) ==
      if e.Resolved? && e.reason.AutoAccept? then AutoIndex(log)[e.id := e.option] else AutoIndex(log)
  {
    assert (log + [e])[..|log|] == log;
  }

  lemma RequestThenResolution(r: Request, option: int, reason: Reason)
    ensures WellFormed([Requested(r)] + [Resolved(r.id, option, reason)])
  {
    assert Requests([Requested(r)] + [Resolved(r.id, option, reason)], 0, r.id);
  }

  /** One expired hold, for any request: the live viewer prints the block and the resolution, the
      listing the one line. */
  lemma ExpiredHoldDiffers(o: Options, o': Options, r: Request, option: int) returns (acts: seq<Act>)
    requires o.autoAccept
    ensures WellFormed(Events(acts)) && Flushing(o, acts, |acts|)
    ensures Run(o, acts).out == [Block(r), ResolvedLine(r.id, option, AutoAccept)]
    ensures Listing(o', AutoIndex(Events(acts)), Events(acts)).out == [AutoLine(r, option)]
  {
    var e, none: seq<Event> := Resolved(r.id, option, AutoAccept), [];
    acts := [];
    RunSnoc(o, acts, Stream(Requested(r)));
    acts := acts + [Stream(Requested(r))];
    RunSnoc(o, acts, Fire(r.id));
    acts := acts + [Fire(r.id)];
    RunSnoc(o, acts, Stream(e));
    acts := acts + [Stream(e)];
    assert acts[..|acts|] == acts;
    var log, idx := none + [Requested(r)], map[r.id := option];
    assert Events(acts) == log + [e];
    assert log == [Requested(r)];
    RequestThenResolution(r, option, AutoAccept);
    ListingSnoc(o', idx, none, Requested(r));
    ListingSnoc(o', idx, log, e);
    assert AutoIndex(log + [e]) == idx;
  }

  // ---------------------------------------------------------------- no hold expiring

  function Streams(log: seq<Event>): seq<Act> { seq(|log|, i requires 0 <= i < |log| => Stream(log[i])) }

  function Flushes(order: seq<RequestId>): seq<Act> {
    seq(|order|, i requires 0 <= i < |order| => FlushOne(order[i]))
  }

  lemma {:induction false} StreamsRun(o: Options, log: seq<Event>)
    ensures Run(o, Streams(log)) == Live(o, log) && Events(Streams(log)) == log
  {
    if log != [] {
      var n := |log| - 1;
      StreamsRun(o, log[..n]);
      assert Streams(log)[..n] == Streams(log[..n]);
    }
  }

  lemma FlushesCons(order: seq<RequestId>)
    requires order != []
    ensures Flushes(order) == [FlushOne(order[0])] + Flushes(order[1..])
  {}

  lemma {:induction false} FlushesRun(o: Options, acts: seq<Act>, order: seq<RequestId>)
    ensures Run(o, acts + Flushes(order)) == Flush(Run(o, acts), order)
    ensures Events(acts + Flushes(order)) == Events(acts)
    decreases |order|
  {
    if order == [] {
      assert acts + Flushes(order) == acts;
    } else {
      var first := FlushOne(order[0]);
      RunSnoc(o, acts, first);
      FlushesRun(o, acts + [first], order[1..]);
      FlushesCons(order);
      assert acts + ([first] + Flushes(order[1..])) == acts + [first] + Flushes(order[1..]);
    }
  }

  /** A log streamed and then flushed. */
  function StreamedAndFlushed(log: seq<Event>, order: seq<RequestId>): seq<Act> { Streams(log) + Flushes(order) }

  lemma StreamedRun(o: Options, log: seq<Event>, order: seq<RequestId>)
    ensures Run(o, StreamedAndFlushed(log, order)) == Flush(Live(o, log), order)
    ensures Events(StreamedAndFlushed(log, order)) == log
  {
    StreamsRun(o, log);
    FlushesRun(o, Streams(log), order);
  }

  lemma StreamedFlushing(o: Options, log: seq<Event>, order: seq<RequestId>)
    requires forall id :: id in Live(o, log).held ==> id in order
    ensures Flushing(o, StreamedAndFlushed(log, order), |log|)
  {
    var n, acts := |log|, StreamedAndFlushed(log, order);
    StreamsRun(o, log);
    assert acts[..n] == Streams(log);
    forall id | id in Live(o, log).held ensures exists k :: n <= k < |acts| && acts[k] == FlushOne(id) {
      var k :| 0 <= k < |order| && order[k] == id;
      assert acts[n + k] == FlushOne(id);
    }
  }

  lemma StreamedUncut(o: Options, log: seq<Event>, order: seq<RequestId>, j: int, id: RequestId)
    requires o.autoAccept
    ensures !CutShort(o, StreamedAndFlushed(log, order), j, id)
  {
    var acts := StreamedAndFlushed(log, order);
    assert forall k :: ReleasesAt(acts, k, id) ==> |log| <= k;
    assert ResolvesAt(acts, j, id) ==> j < |log|;
  }

  /** So a live auto-accept viewer whose holds do not expire prints what the listing prints. */
  lemma LiveMatchesListing(o: Options, o': Options, log: seq<Event>, order: seq<RequestId>)
    requires WellFormed(log) && o.autoAccept && o.verbose == o'.verbose
    requires forall id :: id in Live(o, log).held ==> id in order
    ensures multiset(Flush(Live(o, log), order).out) == multiset(Listing(o', AutoIndex(log), log).out)
    ensures Plain(Flush(Live(o, log), order).out) == Plain(Listing(o', AutoIndex(log), log).out)
  {
    var acts := StreamedAndFlushed(log, order);
    StreamedRun(o, log, order);
    StreamedFlushing(o, log, order);
    PlainMatches(o, o', AutoIndex(log), acts);
    MatchesListingIff(o, o', acts, |log|);
    forall j, id ensures !CutShort(o, acts, j, id) {
      StreamedUncut(o, log, order, j, id);
    }
  }

  // ---------------------------------------------------------------- the listing on any log

  /** The last resolution of `id` as auto_accept, which chose that option. */
  ghost predicate LastAccept(log: seq<Event>, j: int, id: RequestId, option: int) {
    && Resolves(log, j, id) && log[j].reason.AutoAccept? && log[j].option == option
    && forall k :: j < k && Resolves(log, k, id) ==> !log[k].reason.AutoAccept?
  }

  ghost predicate AutoAccepted(log: seq<Event>, id: RequestId) {
    exists j :: Resolves(log, j, id) && log[j].reason.AutoAccept?
  }

  lemma {:induction false} IndexMeaning(log: seq<Event>, id: RequestId)
    ensures id in AutoIndex(log) <==> AutoAccepted(log, id)
    ensures id in AutoIndex(log) ==> exists j :: LastAccept(log, j, id, AutoIndex(log)[id])
  {
    if log != [] {
      var n := |log| - 1;
      IndexMeaning(log[..n], id);
      assert forall j :: 0 <= j < n ==> log[..n][j] == log[j];
      assert forall j :: Resolves(log, j, id) <==> Resolves(log[..n], j, id) || (j == n && Resolves(log, n, id));
      if Resolves(log, n, id) && log[n].reason.AutoAccept? {
        assert LastAccept(log, n, id, log[n].option);
      } else if id in AutoIndex(log) {
        var j :| LastAccept(log[..n], j, id, AutoIndex(log)[id]);
        assert LastAccept(log, j, id, AutoIndex(log)[id]);
      }
    }
  }

  /** Does the listing print that permission line, with the index given? */
  predicate Lists(l: Line, idx: map<RequestId, int>, log: seq<Event>)
    requires PermissionLine(l)
  {
    match l
    case Block(r) => Requested(r) in log && r.id !in idx
    case AutoLine(r, option) => Requested(r) in log && r.id in idx && idx[r.id] == option
    case ResolvedLine(id, option, reason) => Resolved(id, option, reason) in log && id !in idx
  }

  lemma ListedNext(o: Options, idx: map<RequestId, int>, v: View, log: seq<Event>, e: Event, l: Line)
    requires PermissionLine(l) && (l in v.out <==> Lists(l, idx, log))
    ensures l in ListEvent(o, idx, v, e).out <==> Lists(l, idx, log + [e])
  {}

  lemma {:induction false} ListedLine(o: Options, idx: map<RequestId, int>, log: seq<Event>, l: Line)
    requires PermissionLine(l)
    ensures l in Listing(o, idx, log).out <==> Lists(l, idx, log)
  {
    if log != [] {
      var n := |log| - 1;
      ListedLine(o, idx, log[..n], l);
      ListedNext(o, idx, Listing(o, idx, log[..n]), log[..n], log[n], l);
      assert log == log[..n] + [log[n]];
    }
  }

  /** On any log: a request is listed in one line, with the option of its last resolution as
      auto_accept, iff it has such a resolution, else in full; and a resolution is listed iff its
      request has none. */
  lemma ListingMeaning(o: Options, log: seq<Event>, l: Line)
    requires PermissionLine(l)
    ensures l in Listing(o, AutoIndex(log), log).out <==>
      match l
      case Block(r) => Requested(r) in log && !AutoAccepted(log, r.id)
      case AutoLine(r, option) => Requested(r) in log && exists j :: LastAccept(log, j, r.id, option)
      case ResolvedLine(id, option, reason) => Resolved(id, option, reason) in log && !AutoAccepted(log, id)
  {
    ListedLine(o, AutoIndex(log), log, l);
    IndexMeaning(log, if l.ResolvedLine? then l.id else l.request.id);
  }
}
