/** The run viewers (cmd/smind/run_viewer.go, and printRunLogs, streamRun and toolCallNames in
    cmd/smind/task.go). Output is a sequence of abstract lines. */
module RunViewer {

  type RequestId = int

  /** A permission request; `body` stands for its summary, options and detail. */
  datatype Request = Request(id: RequestId, body: int)

  datatype Reason = AutoAccept | Other(text: int)

  datatype ToolCall = ToolCall(callId: string, toolName: string, title: string, status: int, data: int)

  /** Run events; Unknown is any type the viewers do not print. */
  datatype Event =
    | Text(text: int)
    | Tool(call: ToolCall)
    | Raw(data: int)
    | Requested(request: Request)
    | Resolved(id: RequestId, option: int, reason: Reason)
    | Unknown

  /** What is printed. A line keeps the request it was rendered from. */
  datatype Line =
    | TextLine(text: int)
    | ToolLine(name: string, status: int, data: int)
    | RawLine(data: int)
    | Block(request: Request)                      // the full approve/deny block
    | AutoLine(request: Request, option: int)      // the single auto-accepted line
    | ResolvedLine(id: RequestId, option: int, reason: Reason)

  datatype Options = Options(verbose: bool, autoAccept: bool)

  /** The viewer's fields: what it wrote, the remembered tool names, the held requests. */
  datatype View = View(out: seq<Line>, names: map<string, string>, held: map<RequestId, Request>)

  const EMPTY := View([], map[], map[])

  // ---------------------------------------------------------------- rendering tool calls

  function OwnName(c: ToolCall): string { if c.title != "" then c.title else c.toolName }

  function RememberName(names: map<string, string>, c: ToolCall): map<string, string> {
    if OwnName(c) != "" && c.callId != "" then names[c.callId := OwnName(c)] else names
  }

  function ShownName(names: map<string, string>, c: ToolCall): string {
    if OwnName(c) != "" then OwnName(c)
    else if c.callId in names && names[c.callId] != "" then names[c.callId]
    else c.callId
  }

  // ---------------------------------------------------------------- one event

  function Print(v: View, line: Line): View { v.(out := v.out + [line]) }

  function OnTool(v: View, c: ToolCall): View {
    View(v.out + [ToolLine(ShownName(v.names, c), c.status, c.data)], RememberName(v.names, c), v.held)
  }

  function OnRaw(o: Options, v: View, data: int): View { if o.verbose then Print(v, RawLine(data)) else v }

  function OnRequest(o: Options, v: View, r: Request): View {
    if !o.autoAccept then Print(v, Block(r)) else v.(held := v.held[r.id := r])
  }

  /** The hold expired, or the stream ended. */
  function Release(v: View, id: RequestId): View {
    if id in v.held then View(v.out + [Block(v.held[id])], v.names, v.held - {id}) else v
  }

  function OnResolved(v: View, id: RequestId, option: int, reason: Reason): View {
    if id !in v.held then Print(v, ResolvedLine(id, option, reason))
    else if reason.AutoAccept? then View(v.out + [AutoLine(v.held[id], option)], v.names, v.held - {id})
    else View(v.out + [Block(v.held[id]), ResolvedLine(id, option, reason)], v.names, v.held - {id})
  }

  /** streamRun's dispatch of one event. */
  function OnEvent(o: Options, v: View, e: Event): View {
    match e
    case Text(s) => Print(v, TextLine(s))
    case Tool(c) => OnTool(v, c)
    case Raw(d) => OnRaw(o, v, d)
    case Requested(r) => OnRequest(o, v, r)
    case Resolved(id, option, reason) => OnResolved(v, id, option, reason)
    case Unknown => v
  }

  // ---------------------------------------------------------------- event logs

  predicate Requests(log: seq<Event>, i: int, id: RequestId) {
    0 <= i < |log| && log[i].Requested? && log[i].request.id == id
  }

  predicate Resolves(log: seq<Event>, i: int, id: RequestId) {
    0 <= i < |log| && log[i].Resolved? && log[i].id == id
  }

  ghost predicate DistinctRequests(log: seq<Event>) {
    forall i, j, id :: Requests(log, i, id) && Requests(log, j, id) ==> i == j
  }

  /** At most one resolution per request, after its request. */
  ghost predicate ResolvedOnceAfter(log: seq<Event>) {
    && (forall i, j, id :: Resolves(log, i, id) && Resolves(log, j, id) ==> i == j)
    && (forall j, id :: Resolves(log, j, id) ==> exists i :: i < j && Requests(log, i, id))
  }

  ghost predicate WellFormed(log: seq<Event>) { DistinctRequests(log) && ResolvedOnceAfter(log) }

  // ---------------------------------------------------------------- every interleaving

  /** A stream event, a hold timer firing (early, late or after Stop: any time), or flush
      releasing one request. */
  datatype Act = Stream(event: Event) | Fire(id: RequestId) | FlushOne(id: RequestId)

  function Do(o: Options, v: View, a: Act): View {
    match a
    case Stream(e) => OnEvent(o, v, e)
    case Fire(id) => Release(v, id)
    case FlushOne(id) => Release(v, id)
  }

  function Run(o: Options, acts: seq<Act>): View {
    if acts == [] then EMPTY else Do(o, Run(o, acts[..|acts| - 1]), acts[|acts| - 1])
  }

  /** The events of an interleaving, in order. */
  function Events(acts: seq<Act>): seq<Event> {
    if acts == [] then []
    else
      var n := |acts| - 1;
      Events(acts[..n]) + if acts[n].Stream? then [acts[n].event] else []
  }

  /** How many times request `id` was printed, as a block or as the one line. */
  function Printed(out: seq<Line>, id: RequestId): nat {
    if out == [] then 0
    else
      var n := |out| - 1;
      Printed(out[..n], id) + if ShowsRequest(out[n], id) then 1 else 0
  }

  predicate ShowsRequest(l: Line, id: RequestId) { (l.Block? || l.AutoLine?) && l.request.id == id }

  ghost predicate RequestedIn(log: seq<Event>, id: RequestId) { exists i :: Requests(log, i, id) }

  /** A request is printed once or still held, and never both. */
  ghost predicate OnceInv(v: View, log: seq<Event>) {
    && (forall id :: id in v.held ==> v.held[id].id == id)
    && (forall id :: Printed(v.out, id) + (if id in v.held then 1 else 0) == if RequestedIn(log, id) then 1 else 0)
  }

  /** The one-line form is printed only for a request resolved as auto_accept. */
  ghost predicate AutoInv(v: View, log: seq<Event>) {
    forall k :: 0 <= k < |v.out| && v.out[k].AutoLine? ==>
      exists i :: Resolves(log, i, v.out[k].request.id) && log[i].reason.AutoAccept? && log[i].option == v.out[k].option
  }

  lemma PrintedSnoc(out: seq<Line>, l: Line, id: RequestId)
    ensures Printed(out + [l], id) == Printed(out, id) + if ShowsRequest(l, id) then 1 else 0
  {
    assert (out + [l])[..|out|] == out;
  }

  lemma RequestedNext(log: seq<Event>, e: Event, id: RequestId)
    ensures RequestedIn(log + [e], id) <==> RequestedIn(log, id) || (e.Requested? && e.request.id == id)
  {
    var log' := log + [e];
    if RequestedIn(log, id) {
      var i :| Requests(log, i, id);
      assert Requests(log', i, id);
    }
    if e.Requested? && e.request.id == id {
      assert Requests(log', |log|, id);
    }
    if RequestedIn(log', id) {
      var i :| Requests(log', i, id);
      assert i < |log| ==> Requests(log, i, id);
    }
  }

  lemma ReleaseOnce(v: View, log: seq<Event>, id: RequestId)
    requires OnceInv(v, log)
    ensures OnceInv(Release(v, id), log)
  {
    if id in v.held {
      forall x { PrintedSnoc(v.out, Block(v.held[id]), x); }
    }
  }

  /** A line that shows no request, and an event that is no request, keep the account. */
  lemma PrintOther(v: View, log: seq<Event>, l: Line, e: Event)
    requires OnceInv(v, log) && !e.Requested? && !l.Block? && !l.AutoLine?
    ensures OnceInv(Print(v, l), log + [e])
  {
    forall x { PrintedSnoc(v.out, l, x); }
    forall x { RequestedNext(log, e, x); }
  }

  lemma RequestOnce(o: Options, v: View, log: seq<Event>, r: Request)
    requires OnceInv(v, log) && !RequestedIn(log, r.id)
    ensures OnceInv(OnRequest(o, v, r), log + [Requested(r)])
  {
    forall x { PrintedSnoc(v.out, Block(r), x); }
    forall x { RequestedNext(log, Requested(r), x); }
  }

  lemma AutoOnce(v: View, log: seq<Event>, id: RequestId, option: int)
    requires OnceInv(v, log) && id in v.held
    ensures OnceInv(OnResolved(v, id, option, AutoAccept), log + [Resolved(id, option, AutoAccept)])
  {
    forall x { PrintedSnoc(v.out, AutoLine(v.held[id], option), x); }
    forall x { RequestedNext(log, Resolved(id, option, AutoAccept), x); }
  }

  /** Another resolution of a held request is its release and then the line. */
  lemma OtherIsReleaseThenLine(v: View, id: RequestId, option: int, reason: Reason)
    requires id in v.held && !reason.AutoAccept?
    ensures OnResolved(v, id, option, reason) == Print(Release(v, id), ResolvedLine(id, option, reason))
  {
    var block, line := Block(v.held[id]), ResolvedLine(id, option, reason);
    assert v.out + [block, line] == v.out + [block] + [line];
  }

  lemma ResolveOnce(v: View, log: seq<Event>, id: RequestId, option: int, reason: Reason)
    requires OnceInv(v, log)
    ensures OnceInv(OnResolved(v, id, option, reason), log + [Resolved(id, option, reason)])
  {
    var e, line := Resolved(id, option, reason), ResolvedLine(id, option, reason);
    if id !in v.held {
      PrintOther(v, log, line, e);
    } else if reason.AutoAccept? {
      AutoOnce(v, log, id, option);
    } else {
      OtherIsReleaseThenLine(v, id, option, reason);
      ReleaseOnce(v, log, id);
      PrintOther(Release(v, id), log, line, e);
    }
  }

  lemma NewRequest(log: seq<Event>, r: Request)
    requires DistinctRequests(log + [Requested(r)])
    ensures !RequestedIn(log, r.id)
  {
    if RequestedIn(log, r.id) {
      var i :| Requests(log, i, r.id);
      assert Requests(log + [Requested(r)], i, r.id) && Requests(log + [Requested(r)], |log|, r.id);
    }
  }

  lemma EventOnce(o: Options, v: View, log: seq<Event>, e: Event)
    requires OnceInv(v, log) && DistinctRequests(log + [e])
    ensures OnceInv(OnEvent(o, v, e), log + [e])
  {
    match e
    case Text(s) => PrintOther(v, log, TextLine(s), e);
    case Tool(c) => PrintOther(v, log, ToolLine(ShownName(v.names, c), c.status, c.data), e);
    case Raw(d) =>
      PrintOther(v, log, RawLine(d), e);
      forall x { RequestedNext(log, e, x); }
    case Requested(r) =>
      NewRequest(log, r);
      RequestOnce(o, v, log, r);
    case Resolved(id, option, reason) => ResolveOnce(v, log, id, option, reason);
    case Unknown => forall x { RequestedNext(log, e, x); }
  }

  lemma {:induction false} RunOnce(o: Options, acts: seq<Act>)
    requires DistinctRequests(Events(acts))
    ensures OnceInv(Run(o, acts), Events(acts))
  {
    if acts != [] {
      var n := |acts| - 1;
      DistinctPrefix(acts);
      RunOnce(o, acts[..n]);
      if acts[n].Stream? {
        EventOnce(o, Run(o, acts[..n]), Events(acts[..n]), acts[n].event);
      } else {
        ReleaseOnce(Run(o, acts[..n]), Events(acts[..n]), acts[n].id);
        assert Events(acts) == Events(acts[..n]);
      }
    }
  }

  lemma DistinctPrefix(acts: seq<Act>)
    requires acts != [] && DistinctRequests(Events(acts))
    ensures DistinctRequests(Events(acts[..|acts| - 1]))
  {
    var before, after := Events(acts[..|acts| - 1]), Events(acts);
    assert before <= after;
    forall i, j, id | Requests(before, i, id) && Requests(before, j, id) ensures i == j {
      assert Requests(after, i, id) && Requests(after, j, id);
    }
  }

  // ---------------------------------------------------------------- resolutions

  /** Only a resolution as auto_accept adds a one-line form, and it adds its own. */
  lemma NewAutoLine(o: Options, v: View, e: Event, k: nat)
    requires forall id :: id in v.held ==> v.held[id].id == id
    ensures v.out <= OnEvent(o, v, e).out
    ensures var out' := OnEvent(o, v, e).out;
      |v.out| <= k < |out'| && out'[k].AutoLine? ==>
        e.Resolved? && e.id == out'[k].request.id && e.reason.AutoAccept? && e.option == out'[k].option
  {}

  lemma AutoStep(o: Options, v: View, log: seq<Event>, e: Event)
    requires AutoInv(v, log) && forall id :: id in v.held ==> v.held[id].id == id
    ensures AutoInv(OnEvent(o, v, e), log + [e])
  {
    var v', log' := OnEvent(o, v, e), log + [e];
    forall k | 0 <= k < |v'.out| && v'.out[k].AutoLine?
      ensures exists i :: Resolves(log', i, v'.out[k].request.id)
                          && log'[i].reason.AutoAccept? && log'[i].option == v'.out[k].option
    {
      NewAutoLine(o, v, e, k);
      if k < |v.out| {
        var i :| Resolves(log, i, v.out[k].request.id) && log[i].reason.AutoAccept? && log[i].option == v.out[k].option;
        assert Resolves(log', i, v.out[k].request.id) && log'[i] == log[i];
      } else {
        assert Resolves(log', |log|, v'.out[k].request.id) && log'[|log|] == e;
      }
    }
  }

  lemma {:induction false} RunAuto(o: Options, acts: seq<Act>)
    requires DistinctRequests(Events(acts))
    ensures AutoInv(Run(o, acts), Events(acts))
  {
    if acts != [] {
      var n := |acts| - 1;
      DistinctPrefix(acts);
      RunAuto(o, acts[..n]);
      RunOnce(o, acts[..n]);
      if acts[n].Stream? {
        AutoStep(o, Run(o, acts[..n]), Events(acts[..n]), acts[n].event);
      } else {
        assert Events(acts) == Events(acts[..n]);
      }
    }
  }

  /** A resolution line stands after the block of the request it resolves. */
  ghost predicate BlockFirst(out: seq<Line>) {
    forall k :: 0 <= k < |out| && out[k].ResolvedLine? ==>
      exists j :: 0 <= j < k && out[j].Block? && out[j].request.id == out[k].id
  }

  lemma {:induction false} PrintedSomewhere(out: seq<Line>, id: RequestId) returns (k: nat)
    requires Printed(out, id) >= 1
    ensures k < |out| && ShowsRequest(out[k], id)
  {
    var n := |out| - 1;
    if ShowsRequest(out[n], id) {
      k := n;
    } else {
      k := PrintedSomewhere(out[..n], id);
    }
  }

  lemma BlockFirstSnoc(out: seq<Line>, l: Line)
    requires BlockFirst(out)
    requires l.ResolvedLine? ==> exists j :: 0 <= j < |out| && out[j].Block? && out[j].request.id == l.id
    ensures BlockFirst(out + [l])
  {
    var out' := out + [l];
    forall k | 0 <= k < |out'| && out'[k].ResolvedLine?
      ensures exists j :: 0 <= j < k && out'[j].Block? && out'[j].request.id == out'[k].id
    {
      if k < |out| {
        var j :| 0 <= j < k && out[j].Block? && out[j].request.id == out[k].id;
        assert out'[j] == out[j] && out'[k] == out[k];
      } else {
        var j :| 0 <= j < |out| && out[j].Block? && out[j].request.id == l.id;
        assert out'[j] == out[j];
      }
    }
  }

  /** A request that was resolved for the first time and is not held has its block printed. */
  lemma BlockPrinted(v: View, log: seq<Event>, id: RequestId, option: int, reason: Reason) returns (k: nat)
    requires OnceInv(v, log) && AutoInv(v, log) && id !in v.held
    requires ResolvedOnceAfter(log + [Resolved(id, option, reason)])
    ensures k < |v.out| && v.out[k].Block? && v.out[k].request.id == id
  {
    var log' := log + [Resolved(id, option, reason)];
    assert Resolves(log', |log|, id);
    var i :| i < |log| && Requests(log', i, id);
    assert Requests(log, i, id);
    k := PrintedSomewhere(v.out, id);
    if v.out[k].AutoLine? {
      var m :| Resolves(log, m, id) && log[m].reason.AutoAccept? && log[m].option == v.out[k].option;
      assert Resolves(log', m, id);
      assert false;
    }
  }

  lemma StepBlockFirst(o: Options, v: View, log: seq<Event>, e: Event)
    requires OnceInv(v, log) && AutoInv(v, log) && BlockFirst(v.out) && WellFormed(log + [e])
    ensures BlockFirst(OnEvent(o, v, e).out)
  {
    if e.Resolved? {
      var line := ResolvedLine(e.id, e.option, e.reason);
      if e.id !in v.held {
        var k := BlockPrinted(v, log, e.id, e.option, e.reason);
        BlockFirstSnoc(v.out, line);
      } else if e.reason.AutoAccept? {
        BlockFirstSnoc(v.out, AutoLine(v.held[e.id], e.option));
      } else {
        var mid := v.out + [Block(v.held[e.id])];
        BlockFirstSnoc(v.out, Block(v.held[e.id]));
        assert mid[|v.out|].Block?;
        BlockFirstSnoc(mid, line);
        assert v.out + [Block(v.held[e.id]), line] == mid + [line];
      }
    } else if OnEvent(o, v, e).out != v.out {
      var out' := OnEvent(o, v, e).out;
      BlockFirstSnoc(v.out, out'[|v.out|]);
    }
  }

  lemma WellFormedPrefix(log: seq<Event>, e: Event)
    requires WellFormed(log + [e])
    ensures WellFormed(log)
  {
    var log' := log + [e];
    assert forall i, id :: Requests(log, i, id) ==> Requests(log', i, id);
    assert forall i, id :: Resolves(log, i, id) ==> Resolves(log', i, id);
    forall j, id | Resolves(log, j, id) ensures exists i :: i < j && Requests(log, i, id) {
      var i :| i < j && Requests(log', i, id);
      assert Requests(log, i, id);
    }
  }

  lemma {:induction false} RunBlockFirst(o: Options, acts: seq<Act>)
    requires WellFormed(Events(acts))
    ensures BlockFirst(Run(o, acts).out)
  {
    if acts != [] {
      var n := |acts| - 1;
      var v, log := Run(o, acts[..n]), Events(acts[..n]);
      if acts[n].Stream? {
        WellFormedPrefix(log, acts[n].event);
        RunBlockFirst(o, acts[..n]);
        RunOnce(o, acts[..n]);
        RunAuto(o, acts[..n]);
        StepBlockFirst(o, v, log, acts[n].event);
      } else {
        assert Events(acts) == log;
        RunBlockFirst(o, acts[..n]);
        if acts[n].id in v.held {
          BlockFirstSnoc(v.out, Block(v.held[acts[n].id]));
        }
      }
    }
  }

  /** With distinct request ids only, whatever else the log repeats: when a request already made
      is resolved, one that is held is printed right there, in full before its resolution line
      unless it was auto-accepted; one no longer held had been printed before that line. */
  lemma ResolutionAfterRequest(o: Options, acts: seq<Act>, id: RequestId, option: int, reason: Reason)
    requires DistinctRequests(Events(acts)) && RequestedIn(Events(acts), id)
    ensures var v := Run(o, acts);
      var out := Run(o, acts + [Stream(Resolved(id, option, reason))]).out;
      if id in v.held then
        && v.held[id].id == id && Printed(v.out, id) == 0
        && out == v.out + if reason.AutoAccept? then [AutoLine(v.held[id], option)]
                          else [Block(v.held[id]), ResolvedLine(id, option, reason)]
      else
        && out == v.out + [ResolvedLine(id, option, reason)]
        && exists k :: 0 <= k < |v.out| && ShowsRequest(v.out[k], id)
  {
    RunOnce(o, acts);
    assert (acts + [Stream(Resolved(id, option, reason))])[..|acts|] == acts;
    if id !in Run(o, acts).held {
      var k := PrintedSomewhere(Run(o, acts).out, id);
    }
  }

  predicate LineFromLog(l: Line, log: seq<Event>) {
    match l
    case Block(r) => Requested(r) in log
    case AutoLine(r, _) => Requested(r) in log
    case ResolvedLine(id, option, reason) => Resolved(id, option, reason) in log
    case TextLine(s) => Text(s) in log
    case RawLine(d) => Raw(d) in log
    case ToolLine(_, status, data) =>
      exists i :: 0 <= i < |log| && log[i].Tool? && log[i].call.status == status && log[i].call.data == data
  }

  ghost predicate FromLog(v: View, log: seq<Event>) {
    && (forall id :: id in v.held ==> Requested(v.held[id]) in log)
    && (forall k :: 0 <= k < |v.out| ==> LineFromLog(v.out[k], log))
  }

  lemma LineStaysFromLog(l: Line, log: seq<Event>, e: Event)
    requires LineFromLog(l, log)
    ensures LineFromLog(l, log + [e])
  {
    if l.ToolLine? {
      var i :| 0 <= i < |log| && log[i].Tool? && log[i].call.status == l.status && log[i].call.data == l.data;
      assert (log + [e])[i] == log[i];
    }
  }

  lemma EventFromLog(o: Options, v: View, log: seq<Event>, e: Event)
    requires FromLog(v, log)
    ensures FromLog(OnEvent(o, v, e), log + [e])
  {
    var v', log' := OnEvent(o, v, e), log + [e];
    assert log'[|log|] == e;
    forall k | 0 <= k < |v'.out| ensures LineFromLog(v'.out[k], log') {
      if k < |v.out| {
        assert v'.out[k] == v.out[k];
        LineStaysFromLog(v.out[k], log, e);
      }
    }
  }

  /** Every line printed, and every request held, is one of the log's, with its own content. */
  lemma {:induction false} PrintedFromLog(o: Options, acts: seq<Act>)
    ensures FromLog(Run(o, acts), Events(acts))
  {
    if acts != [] {
      var n := |acts| - 1;
      PrintedFromLog(o, acts[..n]);
      if acts[n].Stream? {
        EventFromLog(o, Run(o, acts[..n]), Events(acts[..n]), acts[n].event);
      } else {
        assert Events(acts) == Events(acts[..n]);
      }
    }
  }

  // ---------------------------------------------------------------- flush

  /** flush takes the held ids, then releases them one by one; timers may fire in between, but
      no stream event comes any more. */
  ghost predicate Flushing(o: Options, acts: seq<Act>, from: nat) {
    && from <= |acts|
    && (forall k :: from <= k < |acts| ==> !acts[k].Stream?)
    && (forall id :: id in Run(o, acts[..from]).held ==> exists k :: from <= k < |acts| && acts[k] == FlushOne(id))
  }

  lemma {:induction false} FlushEmpties(o: Options, acts: seq<Act>, from: nat, upto: nat)
    requires from <= upto <= |acts| && forall k :: from <= k < |acts| ==> !acts[k].Stream?
    ensures forall id :: id in Run(o, acts[..upto]).held ==>
      id in Run(o, acts[..from]).held && forall k :: from <= k < upto ==> acts[k] != FlushOne(id)
    decreases upto - from
  {
    if from < upto {
      FlushEmpties(o, acts, from, upto - 1);
      assert acts[..upto][..upto - 1] == acts[..upto - 1];
    }
  }

  /** Under every interleaving of stream events, hold timers and flush, with distinct request
      ids: when flush returns, each request was printed exactly once; the one-line form only if
      it was resolved as auto_accept, with that resolution's option. */
  lemma EachRequestPrintedOnce(o: Options, acts: seq<Act>, from: nat)
    requires DistinctRequests(Events(acts)) && Flushing(o, acts, from)
    ensures Run(o, acts).held == map[]
    ensures forall id :: Printed(Run(o, acts).out, id) == if RequestedIn(Events(acts), id) then 1 else 0
    ensures AutoInv(Run(o, acts), Events(acts))
  {
    FlushEmpties(o, acts, from, |acts|);
    assert acts[..|acts|] == acts;
    RunOnce(o, acts);
    RunAuto(o, acts);
    forall id ensures id !in Run(o, acts).held {
      if id in Run(o, acts[..from]).held {
        var k :| from <= k < |acts| && acts[k] == FlushOne(id);
      }
    }
    assert Run(o, acts).held.Keys == {};
  }

  // ---------------------------------------------------------------- the one-shot listing

  /** The live viewer with no hold expiring. */
  function Live(o: Options, log: seq<Event>): View {
    if log == [] then EMPTY else (var n := |log| - 1; OnEvent(o, Live(o, log[..n]), log[n]))
  }

  /** printRunLogs' index: the option of each request resolved as auto_accept. */
  function AutoIndex(log: seq<Event>): map<RequestId, int> {
    if log == [] then map[]
    else
      var n := |log| - 1;
      var idx := AutoIndex(log[..n]);
      if log[n].Resolved? && log[n].reason.AutoAccept? then idx[log[n].id := log[n].option] else idx
  }

  function ListEvent(o: Options, idx: map<RequestId, int>, v: View, e: Event): View {
    match e
    case Text(s) => Print(v, TextLine(s))
    case Tool(c) => OnTool(v, c)
    case Raw(d) => OnRaw(o, v, d)
    case Requested(r) => if r.id in idx then Print(v, AutoLine(r, idx[r.id])) else Print(v, Block(r))
    case Resolved(id, option, reason) => if id in idx then v else Print(v, ResolvedLine(id, option, reason))
    case Unknown => v
  }

  function Listing(o: Options, idx: map<RequestId, int>, log: seq<Event>): View {
    if log == [] then EMPTY else (var n := |log| - 1; ListEvent(o, idx, Listing(o, idx, log[..n]), log[n]))
  }

  function Flush(v: View, order: seq<RequestId>): View
    decreases |order|
  {
    if order == [] then v else Flush(Release(v, order[0]), order[1..])
  }

  predicate PermissionLine(l: Line) { l.Block? || l.AutoLine? || l.ResolvedLine? }

  /** The output without permission lines. */
  function Plain(out: seq<Line>): seq<Line> {
    if out == [] then []
    else
      var n := |out| - 1;
      Plain(out[..n]) + if PermissionLine(out[n]) then [] else [out[n]]
  }

  lemma PlainSnoc(out: seq<Line>, l: Line)
    ensures Plain(out + [l]) == Plain(out) + if PermissionLine(l) then [] else [l]
  {
    assert (out + [l])[..|out|] == out;
  }

  ghost predicate ResolvedIn(log: seq<Event>, id: RequestId) { exists i :: Resolves(log, i, id) }

  lemma ResolvedNext(log: seq<Event>, e: Event, id: RequestId)
    ensures ResolvedIn(log + [e], id) <==> ResolvedIn(log, id) || (e.Resolved? && e.id == id)
  {
    var log' := log + [e];
    if ResolvedIn(log, id) {
      var i :| Resolves(log, i, id);
      assert Resolves(log', i, id);
    }
    if e.Resolved? && e.id == id {
      assert Resolves(log', |log|, id);
    }
    if ResolvedIn(log', id) {
      var i :| Resolves(log', i, id);
      assert i < |log| ==> Resolves(log, i, id);
    }
  }

  /** In a well-formed log the next event requests something new, or resolves something held. */
  lemma NextEvent(log: seq<Event>, e: Event)
    requires WellFormed(log + [e])
    ensures e.Requested? ==> !RequestedIn(log, e.request.id) && !ResolvedIn(log, e.request.id)
    ensures e.Resolved? ==> RequestedIn(log, e.id) && !ResolvedIn(log, e.id)
  {
    var log' := log + [e];
    assert forall i, id :: Requests(log, i, id) ==> Requests(log', i, id);
    assert forall i, id :: Resolves(log, i, id) ==> Resolves(log', i, id);
    if e.Requested? {
      NewRequest(log, e.request);
      assert forall i, id :: i < |log| && Requests(log', i, id) ==> Requests(log, i, id);
      assert forall j, id :: Resolves(log, j, id) ==> RequestedIn(log, id);
    }
    if e.Resolved? {
      assert Resolves(log', |log|, e.id);
      var i :| i < |log| && Requests(log', i, e.id);
      assert Requests(log, i, e.id);
    }
  }

  // ---------------------------------------------------------------- tool names

  /** The reference: the name the latest earlier event of this call id carried, "" if none. */
  function LastName(log: seq<Event>, callId: string): string {
    if log == [] || callId == "" then ""
    else
      var n := |log| - 1;
      if log[n].Tool? && log[n].call.callId == callId && OwnName(log[n].call) != "" then OwnName(log[n].call)
      else LastName(log[..n], callId)
  }

  lemma {:induction false} NamesMeaning(o: Options, log: seq<Event>, callId: string)
    ensures var names := Live(o, log).names;
      (if callId in names then names[callId] else "") == LastName(log, callId)
  {
    if log != [] {
      NamesMeaning(o, log[..|log| - 1], callId);
    }
  }

  /** A tool call is shown under its own name, else under the latest name its id had, else under
      its id; so never under an empty name while it has an id. */
  lemma ToolNameShown(o: Options, log: seq<Event>, c: ToolCall)
    ensures ShownName(Live(o, log).names, c) ==
      if OwnName(c) != "" then OwnName(c)
      else if LastName(log, c.callId) != "" then LastName(log, c.callId)
      else c.callId
    ensures c.title != "" ==> ShownName(Live(o, log).names, c) == c.title
    ensures c.title == "" && c.toolName != "" ==> ShownName(Live(o, log).names, c) == c.toolName
    ensures c.callId != "" ==> ShownName(Live(o, log).names, c) != ""
  {
    NamesMeaning(o, log, c.callId);
  }

  /** The event at `i` names the call. */
  predicate NamesCall(log: seq<Event>, i: int, callId: string) {
    0 <= i < |log| && log[i].Tool? && log[i].call.callId == callId && OwnName(log[i].call) != ""
  }

  lemma {:induction false} LastNameIs(log: seq<Event>, callId: string, j: nat)
    requires callId != "" && NamesCall(log, j, callId) && forall k :: j < k ==> !NamesCall(log, k, callId)
    ensures LastName(log, callId) == OwnName(log[j].call)
  {
    var n := |log| - 1;
    if j < n {
      assert !NamesCall(log, n, callId);
      assert forall k :: NamesCall(log[..n], k, callId) ==> NamesCall(log, k, callId);
      LastNameIs(log[..n], callId, j);
    }
  }

  /** A nameless call is shown under the name of the latest event that named its id, and so under
      the first name its id had iff the latest naming event carried that name. */
  lemma ShownUnderFirstNameIff(o: Options, log: seq<Event>, c: ToolCall, first: nat, latest: nat)
    requires OwnName(c) == "" && c.callId != ""
    requires NamesCall(log, first, c.callId) && forall k :: k < first ==> !NamesCall(log, k, c.callId)
    requires NamesCall(log, latest, c.callId) && forall k :: latest < k ==> !NamesCall(log, k, c.callId)
    ensures ShownName(Live(o, log).names, c) == OwnName(log[latest].call)
    ensures ShownName(Live(o, log).names, c) == OwnName(log[first].call) <==>
      OwnName(log[latest].call) == OwnName(log[first].call)
  {
    LastNameIs(log, c.callId, latest);
    ToolNameShown(o, log, c);
  }

  /** A log on which the first name is not shown, for any id and two names. */
  lemma FirstNameForgotten(o: Options, c1: ToolCall, c2: ToolCall, c: ToolCall)
    requires c.callId == c1.callId == c2.callId != "" && OwnName(c) == ""
    requires OwnName(c1) != "" && OwnName(c2) != "" && OwnName(c1) != OwnName(c2)
    ensures ShownName(Live(o, [Tool(c1), Tool(c2)]).names, c) == OwnName(c2) != OwnName(c1)
  {
    var log := [Tool(c1), Tool(c2)];
    assert log[0] == Tool(c1) && log[1] == Tool(c2);
    assert NamesCall(log, 0, c.callId) && NamesCall(log, 1, c.callId);
    ShownUnderFirstNameIff(o, log, c, 0, 1);
  }

  // ---------------------------------------------------------------- the object

  /** runViewer; every method body is one critical section of its mutex. */
  class Viewer {
    const opts: Options
    var out: seq<Line>
    var names: map<string, string>
    var held: map<RequestId, Request>

    ghost function State(): View reads this { View(out, names, held) }

    constructor (opts: Options)
      ensures this.opts == opts && State() == EMPTY
    {
      this.opts := opts;
      out, names, held := [], map[], map[];
    }

    method PrintLine(l: Line)
      modifies this
      ensures State() == Print(old(State()), l)
    {
      out := out + [l];
    }

    method ShowTool(c: ToolCall)
      modifies this
      ensures State() == OnTool(old(State()), c)
    {
      var name := if c.title != "" then c.title else c.toolName;
      if name != "" && c.callId != "" {
        names := names[c.callId := name];
      } else if name == "" {
        name := if c.callId in names then names[c.callId] else "";
      }
      if name == "" { name := c.callId; }
      out := out + [ToolLine(name, c.status, c.data)];
    }

    method ShowRaw(data: int)
      modifies this
      ensures State() == OnRaw(opts, old(State()), data)
    {
      if !opts.verbose { return; }
      out := out + [RawLine(data)];
    }

    method PermissionRequest(r: Request)
      modifies this
      ensures State() == OnRequest(opts, old(State()), r)
    {
      if !opts.autoAccept {
        out := out + [Block(r)];
        return;
      }
      held := held[r.id := r];
    }

    method ReleaseHeld(id: RequestId)
      modifies this
      ensures State() == Release(old(State()), id)
    {
      if id !in held { return; }
      var r := held[id];
      held := held - {id};
      out := out + [Block(r)];
    }

    method PermissionResolved(id: RequestId, option: int, reason: Reason)
      modifies this
      ensures State() == OnResolved(old(State()), id, option, reason)
    {
      if id in held {
        var r := held[id];
        held := held - {id};
        if reason.AutoAccept? {
          out := out + [AutoLine(r, option)];
        } else {
          out := out + [Block(r)];
          out := out + [ResolvedLine(id, option, reason)];
          assert out == old(out) + [Block(r), ResolvedLine(id, option, reason)];
        }
      } else {
        out := out + [ResolvedLine(id, option, reason)];
      }
    }

    /** flush with no timer firing meanwhile: the held ids in some order, each released. */
    method FlushHeld() returns (order: seq<RequestId>)
      modifies this
      ensures State() == Flush(old(State()), order)
      ensures forall id :: id in old(held) ==> id in order
      ensures held == map[]
    {
      order := [];
      var left := held.Keys;
      while left != {}
        invariant left <= held.Keys
        invariant State() == old(State())
        invariant forall id :: id in held ==> id in left || id in order
        decreases |left|
      {
        assert exists id :: id in left by {
          if forall id :: id !in left { assert false; }
        }
        var id :| id in left;
        order := order + [id];
        left := left - {id};
      }
      var i := 0;
      while i < |order|
        invariant 0 <= i <= |order|
        invariant Flush(old(State()), order) == Flush(State(), order[i..])
        invariant forall id :: id in held ==> id in order[i..]
      {
        ReleaseHeld(order[i]);
        i := i + 1;
      }
      assert forall id :: id !in held;
      assert held == map[];
    }
  }

  /** streamRun over a whole log, the hold never expiring. */
  method StreamRun(o: Options, log: seq<Event>) returns (out: seq<Line>)
    ensures exists order ::
      (forall id :: id in Live(o, log).held ==> id in order) && out == Flush(Live(o, log), order).out
  {
    var v := new Viewer(o);
    var i := 0;
    while i < |log|
      invariant 0 <= i <= |log| && v.opts == o
      invariant v.State() == Live(o, log[..i])
    {
      assert log[..i + 1][..i] == log[..i];
      match log[i] {
        case Text(s) => v.PrintLine(TextLine(s));
        case Tool(c) => v.ShowTool(c);
        case Raw(d) => v.ShowRaw(d);
        case Requested(r) => v.PermissionRequest(r);
        case Resolved(id, option, reason) => v.PermissionResolved(id, option, reason);
        case Unknown =>
      }
      i := i + 1;
    }
    assert log[..i] == log;
    var order := v.FlushHeld();
    out := v.out;
  }

  /** printRunLogs: index the auto-accepted requests, then print in one pass. */
  method PrintRunLogs(o: Options, log: seq<Event>) returns (out: seq<Line>)
    ensures out == Listing(o, AutoIndex(log), log).out
  {
    var v := new Viewer(o);
    var autoAccepted: map<RequestId, int> := map[];
    var i := 0;
    while i < |log|
      invariant 0 <= i <= |log| && v.opts == o && v.State() == EMPTY
      invariant autoAccepted == AutoIndex(log[..i])
    {
      assert log[..i + 1][..i] == log[..i];
      if log[i].Resolved? && log[i].reason.AutoAccept? {
        autoAccepted := autoAccepted[log[i].id := log[i].option];
      }
      i := i + 1;
    }
    assert log[..i] == log;
    i := 0;
    while i < |log|
      invariant 0 <= i <= |log| && v.opts == o
      invariant v.State() == Listing(o, autoAccepted, log[..i])
    {
      assert log[..i + 1][..i] == log[..i];
      match log[i] {
        case Text(s) => v.PrintLine(TextLine(s));
        case Tool(c) => v.ShowTool(c);
        case Raw(d) => v.ShowRaw(d);
        case Requested(r) =>
          if r.id in autoAccepted {
            v.PrintLine(AutoLine(r, autoAccepted[r.id]));
          } else {
            v.PrintLine(Block(r));
          }
        case Resolved(id, option, reason) =>
          if id !in autoAccepted {
            v.PrintLine(ResolvedLine(id, option, reason));
          }
        case Unknown =>
      }
      i := i + 1;
    }
    assert log[..i] == log;
    out := v.out;
  }
}
