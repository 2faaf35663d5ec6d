/** ACP prompt streaming (internal/acp/client.go): the subscription table, the wait group of
    each subscription, and the channel Prompt closes when it returns. */
module PromptStream {
  import opened Common

  type Session = int
  type PromptId = int
  type HandlerId = int
  type ChannelId = int
  type Update = int

  // ---------------------------------------------------------------- the shared part

  /** What the client's mutex guards, and the wait-group counters. A Prompt call makes one
      updateSub; the prompt's id names it. */
  datatype Hub = Hub(table: map<Session, PromptId>, inFlight: map<PromptId, int>)

  function Subscribe(h: Hub, s: Session, p: PromptId): Hub {
    Hub(h.table[s := p], h.inFlight[p := 0])
  }

  /** Prompt's cleanup deletes whatever the session's entry is by then. */
  function Unsubscribe(h: Hub, s: Session): Hub { h.(table := h.table - {s}) }

  /** handleSessionUpdate's critical section: look the subscription up and join its group. */
  function Join(h: Hub, s: Session): (Hub, Option<PromptId>)
    requires forall s :: s in h.table ==> h.table[s] in h.inFlight
  {
    if s in h.table then
      var p := h.table[s];
      (h.(inFlight := h.inFlight[p := h.inFlight[p] + 1]), Some(p))
    else (h, None)
  }

  function Leave(h: Hub, p: PromptId): Hub
    requires p in h.inFlight
  {
    h.(inFlight := h.inFlight[p := h.inFlight[p] - 1])
  }

  class Client {
    var table: map<Session, PromptId>
    var inFlight: map<PromptId, int>

    ghost predicate Valid() reads this { forall s :: s in table ==> table[s] in inFlight }

    ghost function State(): Hub reads this { Hub(table, inFlight) }

    constructor ()
      ensures Valid() && State() == Hub(map[], map[])
    {
      table, inFlight := map[], map[];
    }

    method StartPrompt(s: Session, p: PromptId)
      requires Valid() && p !in inFlight
      modifies this
      ensures Valid() && State() == Subscribe(old(State()), s, p)
    {
      inFlight := inFlight[p := 0];
      table := table[s := p];
    }

    method EndPrompt(s: Session)
      requires Valid()
      modifies this
      ensures Valid() && State() == Unsubscribe(old(State()), s)
    {
      table := table - {s};
    }

    method JoinSubscriber(s: Session) returns (sub: Option<PromptId>)
      requires Valid()
      modifies this
      ensures Valid() && (State(), sub) == Join(old(State()), s)
    {
      if s !in table { return None; }
      var p := table[s];
      inFlight := inFlight[p := inFlight[p] + 1];
      return Some(p);
    }

    method LeaveSubscriber(p: PromptId)
      requires Valid() && p in inFlight
      modifies this
      ensures Valid() && State() == Leave(old(State()), p)
    {
      inFlight := inFlight[p := inFlight[p] - 1];
    }
  }

  // ---------------------------------------------------------------- the step system

  /** Where a Prompt call is: waiting for the agent, unsubscribed, past wg.Wait, returned. */
  datatype PromptPc = Subscribed | Unsubscribed | Drained | Returned

  datatype Prompt = Prompt(session: Session, channel: ChannelId, pc: PromptPc)

  /** Where a handleSessionUpdate call is. */
  datatype HandlerPc = Arrived | Sending(sub: PromptId) | Sent(sub: PromptId) | Finished

  datatype Handler = Handler(session: Session, update: Update, pc: HandlerPc)

  /** A channel: every value sent on it, in order, and whether it was closed. */
  datatype Channel = Channel(sent: seq<Update>, closed: bool)

  datatype World = World(
    hub: Hub, prompts: map<PromptId, Prompt>, handlers: map<HandlerId, Handler>, channels: map<ChannelId, Channel>)

  const INITIAL := World(Hub(map[], map[]), map[], map[], map[])

  datatype Action =
    | StartPrompt(p: PromptId, session: Session, channel: ChannelId)
    | EndPrompt(p: PromptId)
    | WaitGroup(p: PromptId)
    | CloseChannel(p: PromptId)
    | Arrive(h: HandlerId, session: Session, update: Update)
    | Lookup(h: HandlerId)
    | Send(h: HandlerId)
    | Finish(h: HandlerId)

  predicate HubOk(w: World) { forall s :: s in w.hub.table ==> w.hub.table[s] in w.hub.inFlight }

  predicate CanSend(w: World, h: HandlerId) {
    && h in w.handlers && w.handlers[h].pc.Sending?
    && w.handlers[h].pc.sub in w.prompts && w.prompts[w.handlers[h].pc.sub].channel in w.channels
  }

  predicate CanClose(w: World, p: PromptId) {
    p in w.prompts && w.prompts[p].pc == Drained && w.prompts[p].channel in w.channels
  }

  /** Sending on a closed channel and closing one twice panic: no step is defined for them. */
  predicate Panics(w: World, a: Action) {
    || (a.Send? && CanSend(w, a.h) && w.channels[w.prompts[w.handlers[a.h].pc.sub].channel].closed)
    || (a.CloseChannel? && CanClose(w, a.p) && w.channels[w.prompts[a.p].channel].closed)
  }

  predicate Enabled(w: World, a: Action) {
    && HubOk(w)
    && !Panics(w, a)
    && match a
       case StartPrompt(p, s, ch) => p !in w.prompts && p !in w.hub.inFlight && ch !in w.channels
       case EndPrompt(p) => p in w.prompts && w.prompts[p].pc == Subscribed
       case WaitGroup(p) =>
         p in w.prompts && w.prompts[p].pc == Unsubscribed && p in w.hub.inFlight && w.hub.inFlight[p] == 0
       case CloseChannel(p) => CanClose(w, p)
       case Arrive(h, s, u) => h !in w.handlers
       case Lookup(h) => h in w.handlers && w.handlers[h].pc.Arrived?
       case Send(h) => CanSend(w, h)
       case Finish(h) => h in w.handlers && w.handlers[h].pc.Sent? && w.handlers[h].pc.sub in w.hub.inFlight
  }

  function PromptTo(w: World, p: PromptId, pc: PromptPc): World
    requires p in w.prompts
  {
    w.(prompts := w.prompts[p := w.prompts[p].(pc := pc)])
  }

  function HandlerTo(w: World, h: HandlerId, pc: HandlerPc): World
    requires h in w.handlers
  {
    w.(handlers := w.handlers[h := w.handlers[h].(pc := pc)])
  }

  function LookupStep(w: World, h: HandlerId): World
    requires HubOk(w) && h in w.handlers
  {
    var (hub, sub) := Join(w.hub, w.handlers[h].session);
    HandlerTo(w.(hub := hub), h, if sub.Some? then Sending(sub.value) else Finished)
  }

  function SendStep(w: World, h: HandlerId): World
    requires CanSend(w, h)
  {
    var ch := w.prompts[w.handlers[h].pc.sub].channel;
    HandlerTo(w.(channels := w.channels[ch := w.channels[ch].(sent := w.channels[ch].sent + [w.handlers[h].update])]),
              h, Sent(w.handlers[h].pc.sub))
  }

  function CloseStep(w: World, p: PromptId): World
    requires CanClose(w, p)
  {
    var ch := w.prompts[p].channel;
    PromptTo(w.(channels := w.channels[ch := w.channels[ch].(closed := true)]), p, Returned)
  }

  function Step(w: World, a: Action): World
    requires Enabled(w, a)
  {
    match a
    case StartPrompt(p, s, ch) =>
      World(Subscribe(w.hub, s, p), w.prompts[p := Prompt(s, ch, Subscribed)],
            w.handlers, w.channels[ch := Channel([], false)])
    case EndPrompt(p) => PromptTo(w.(hub := Unsubscribe(w.hub, w.prompts[p].session)), p, Unsubscribed)
    case WaitGroup(p) => PromptTo(w, p, Drained)
    case CloseChannel(p) => CloseStep(w, p)
    case Arrive(h, s, u) => w.(handlers := w.handlers[h := Handler(s, u, Arrived)])
    case Lookup(h) => LookupStep(w, h)
    case Send(h) => SendStep(w, h)
    case Finish(h) => HandlerTo(w.(hub := Leave(w.hub, w.handlers[h].pc.sub)), h, Finished)
  }

  predicate Legal(run: seq<Action>)
    decreases |run|, 0
  {
    run == [] || (var n := |run| - 1; Legal(run[..n]) && Enabled(After(run[..n]), run[n]))
  }

  function After(run: seq<Action>): World
    requires Legal(run)
    decreases |run|, 1
  {
    if run == [] then INITIAL else (var n := |run| - 1; Step(After(run[..n]), run[n]))
  }

  /** The k-th step of a schedule. */
  lemma {:induction false} EnabledAt(run: seq<Action>, k: nat)
    requires Legal(run) && k < |run|
    ensures Legal(run[..k]) && Enabled(After(run[..k]), run[k])
    ensures Legal(run[..k + 1]) && After(run[..k + 1]) == Step(After(run[..k]), run[k])
  {
    var n := |run| - 1;
    if k < n {
      EnabledAt(run[..n], k);
      assert run[..n][..k] == run[..k] && run[..n][..k + 1] == run[..k + 1];
    } else {
      assert run[..k + 1] == run;
    }
  }

  /** The client object, driven through any schedule, is in the state the step system reaches. */
  method Drive(run: seq<Action>) returns (c: Client)
    requires Legal(run)
    ensures c.Valid() && c.State() == After(run).hub
  {
    c := new Client();
    var w, i := INITIAL, 0;
    while i < |run|
      invariant 0 <= i <= |run| && Legal(run[..i]) && w == After(run[..i])
      invariant c.Valid() && c.State() == w.hub
    {
      EnabledAt(run, i);
      match run[i] {
        case StartPrompt(p, s, _) => c.StartPrompt(s, p);
        case EndPrompt(p) => c.EndPrompt(w.prompts[p].session);
        case Lookup(h) => var _ := c.JoinSubscriber(w.handlers[h].session);
        case Finish(h) => c.LeaveSubscriber(w.handlers[h].pc.sub);
        case _ =>
      }
      w := Step(w, run[i]);
      i := i + 1;
    }
    assert run[..i] == run;
  }

  // ---------------------------------------------------------------- safety

  predicate Holds(x: Handler, p: PromptId) { (x.pc.Sending? || x.pc.Sent?) && x.pc.sub == p }

  function Holders(w: World, p: PromptId): set<HandlerId> {
    set h | h in w.handlers && Holds(w.handlers[h], p)
  }

  /** The wait-group counter counts the handlers inside the group. */
  ghost predicate CountsInv(w: World) {
    && w.hub.inFlight.Keys == w.prompts.Keys
    && (forall p :: p in w.prompts ==> w.hub.inFlight[p] == |Holders(w, p)|)
    && (forall h :: h in w.handlers && (w.handlers[h].pc.Sending? || w.handlers[h].pc.Sent?) ==>
          w.handlers[h].pc.sub in w.prompts)
  }

  /** Only a subscribed prompt is in the table; past wg.Wait nobody is in the group; a channel
      belongs to one prompt and is closed by it. */
  ghost predicate PromptsInv(w: World) { TableInv(w) && ChannelsInv(w) && DrainedInv(w) }

  ghost predicate TableInv(w: World) {
    forall s :: s in w.hub.table ==>
      && w.hub.table[s] in w.prompts
      && w.prompts[w.hub.table[s]].pc == Subscribed && w.prompts[w.hub.table[s]].session == s
  }

  ghost predicate ChannelsInv(w: World) {
    && (forall p :: p in w.prompts ==>
          && w.prompts[p].channel in w.channels
          && (w.channels[w.prompts[p].channel].closed <==> w.prompts[p].pc == Returned))
    && (forall p, q :: p in w.prompts && q in w.prompts && p != q ==> w.prompts[p].channel != w.prompts[q].channel)
  }

  ghost predicate DrainedInv(w: World) {
    forall p :: p in w.prompts && (w.prompts[p].pc == Drained || w.prompts[p].pc == Returned) ==> Holders(w, p) == {}
  }

  ghost predicate Inv(w: World) { CountsInv(w) && PromptsInv(w) }

  /** How a step changes the members of a group. */
  lemma HoldersStep(w: World, a: Action, p: PromptId)
    requires CountsInv(w) && Enabled(w, a)
    ensures var w' := Step(w, a);
      Holders(w', p) ==
        if a.Lookup? && w'.handlers[a.h].pc == Sending(p) then Holders(w, p) + {a.h}
        else if a.Finish? && w.handlers[a.h].pc == Sent(p) then Holders(w, p) - {a.h}
        else Holders(w, p)
  {}

  /** A group nobody has joined yet is empty. */
  lemma NoHolders(w: World, p: PromptId)
    requires CountsInv(w) && p !in w.prompts
    ensures Holders(w, p) == {}
  {
    assert forall h :: h in w.handlers ==> !Holds(w.handlers[h], p);
  }

  /** How a step changes the counter of a group. */
  lemma InFlightStep(w: World, a: Action, p: PromptId)
    requires CountsInv(w) && Enabled(w, a) && p in Step(w, a).prompts
    ensures var w' := Step(w, a);
      p in w'.hub.inFlight && w'.hub.inFlight[p] ==
        if p !in w.prompts then 0
        else if a.Lookup? && w'.handlers[a.h].pc == Sending(p) then w.hub.inFlight[p] + 1
        else if a.Finish? && w.handlers[a.h].pc == Sent(p) then w.hub.inFlight[p] - 1
        else w.hub.inFlight[p]
  {}

  lemma CountStep(w: World, a: Action, p: PromptId)
    requires Inv(w) && Enabled(w, a) && p in Step(w, a).prompts
    ensures p in Step(w, a).hub.inFlight && Step(w, a).hub.inFlight[p] == |Holders(Step(w, a), p)|
  {
    InFlightStep(w, a, p);
    HoldersStep(w, a, p);
    if p !in w.prompts { NoHolders(w, p); }
  }

  lemma CountsStep(w: World, a: Action)
    requires Inv(w) && Enabled(w, a)
    ensures CountsInv(Step(w, a))
  {
    var w' := Step(w, a);
    forall p | p in w'.prompts ensures p in w'.hub.inFlight && w'.hub.inFlight[p] == |Holders(w', p)| {
      CountStep(w, a, p);
    }
  }

  lemma TableStep(w: World, a: Action)
    requires TableInv(w) && Enabled(w, a)
    ensures TableInv(Step(w, a))
  {}

  lemma ChannelsStep(w: World, a: Action)
    requires ChannelsInv(w) && Enabled(w, a)
    ensures ChannelsInv(Step(w, a))
  {}

  lemma DrainedStep(w: World, a: Action, p: PromptId)
    requires Inv(w) && Enabled(w, a) && p in Step(w, a).prompts
    requires Step(w, a).prompts[p].pc == Drained || Step(w, a).prompts[p].pc == Returned
    ensures Holders(Step(w, a), p) == {}
  {
    HoldersStep(w, a, p);
    assert p in w.prompts && Holders(w, p) == {};
  }

  lemma PromptsStep(w: World, a: Action)
    requires Inv(w) && Enabled(w, a)
    ensures PromptsInv(Step(w, a))
  {
    TableStep(w, a);
    ChannelsStep(w, a);
    forall p | p in Step(w, a).prompts && (Step(w, a).prompts[p].pc == Drained || Step(w, a).prompts[p].pc == Returned)
      ensures Holders(Step(w, a), p) == {}
    {
      DrainedStep(w, a, p);
    }
  }

  lemma {:induction false} InvAfter(run: seq<Action>)
    requires Legal(run)
    ensures Inv(After(run))
  {
    if run != [] {
      var n := |run| - 1;
      InvAfter(run[..n]);
      CountsStep(After(run[..n]), run[n]);
      PromptsStep(After(run[..n]), run[n]);
    }
  }

  /** In every interleaving of prompts, overlapping ones included, and update handlers, no send
      meets a closed channel and no channel is closed twice. */
  lemma NoPanic(run: seq<Action>, a: Action)
    requires Legal(run)
    ensures HubOk(After(run)) && !Panics(After(run), a)
  {
    InvAfter(run);
    var w := After(run);
    if a.Send? && CanSend(w, a.h) {
      assert a.h in Holders(w, w.handlers[a.h].pc.sub);
    }
  }

  /** No handler is ever stuck: it looks its subscription up, sends, and leaves. */
  lemma HandlerMoves(run: seq<Action>, h: HandlerId)
    requires Legal(run) && h in After(run).handlers && !After(run).handlers[h].pc.Finished?
    ensures Enabled(After(run), Lookup(h)) || Enabled(After(run), Send(h)) || Enabled(After(run), Finish(h))
  {
    InvAfter(run);
    var w := After(run);
    if w.handlers[h].pc.Sending? { NoPanic(run, Send(h)); }
  }

  lemma SomeHolder(w: World, p: PromptId) returns (h: HandlerId)
    requires |Holders(w, p)| != 0
    ensures h in Holders(w, p)
  {
    assert exists h :: h in Holders(w, p) by {
      if forall h :: h !in Holders(w, p) { assert false; }
    }
    h :| h in Holders(w, p);
  }

  /** No prompt is ever stuck: it ends, closes its channel, or waits for a handler that moves. */
  lemma PromptMoves(run: seq<Action>, p: PromptId)
    requires Legal(run) && p in After(run).prompts
    ensures match After(run).prompts[p].pc
      case Subscribed => Enabled(After(run), EndPrompt(p))
      case Unsubscribed =>
        || Enabled(After(run), WaitGroup(p))
        || exists h :: h in Holders(After(run), p) && (Enabled(After(run), Send(h)) || Enabled(After(run), Finish(h)))
      case Drained => Enabled(After(run), CloseChannel(p))
      case Returned => true
  {
    InvAfter(run);
    var w := After(run);
    NoPanic(run, CloseChannel(p));
    if w.prompts[p].pc == Unsubscribed && w.hub.inFlight[p] != 0 {
      var h := SomeHolder(w, p);
      HandlerMoves(run, h);
    }
  }

  lemma GivenFixed(w: World, a: Action, p: PromptId, h: HandlerId)
    requires Enabled(w, a)
    ensures var w' := Step(w, a);
      && (p in w.prompts ==>
            && p in w'.prompts
            && w'.prompts[p].session == w.prompts[p].session
            && w'.prompts[p].channel == w.prompts[p].channel)
      && (h in w.handlers ==>
            && h in w'.handlers
            && w'.handlers[h].session == w.handlers[h].session
            && w'.handlers[h].update == w.handlers[h].update)
  {}

  /** A prompt keeps the session and the channel, an update the session and the content, it came with. */
  lemma {:induction false} StartedAs(run: seq<Action>, k: nat)
    requires Legal(run) && k < |run|
    ensures var (w, a) := (After(run), run[k]);
      && (a.StartPrompt? ==>
            a.p in w.prompts && w.prompts[a.p].session == a.session && w.prompts[a.p].channel == a.channel)
      && (a.Arrive? ==>
            a.h in w.handlers && w.handlers[a.h].session == a.session && w.handlers[a.h].update == a.update)
  {
    var n := |run| - 1;
    if k < n {
      StartedAs(run[..n], k);
      if run[k].StartPrompt? { GivenFixed(After(run[..n]), run[n], run[k].p, 0); }
      if run[k].Arrive? { GivenFixed(After(run[..n]), run[n], 0, run[k].h); }
    }
  }

  // ---------------------------------------------------------------- delivery

  /** One read loop: an update is handled after the previous one. */
  ghost predicate OneLoop(w: World, a: Action) {
    a.Arrive? ==> forall h :: h in w.handlers ==> w.handlers[h].pc.Finished?
  }

  ghost predicate LoopRun(run: seq<Action>)
    requires Legal(run)
  {
    forall k :: 0 <= k < |run| ==> Legal(run[..k]) && OneLoop(After(run[..k]), run[k])
  }

  /** Is this step the handling of an update of p's session while p waits for the agent? */
  predicate Handles(w: World, a: Action, p: PromptId) {
    && a.Lookup? && a.h in w.handlers
    && p in w.prompts && w.prompts[p].pc == Subscribed
    && w.handlers[a.h].session == w.prompts[p].session
  }

  /** The table's entry for p's session is p's own. */
  predicate Owns(w: World, p: PromptId) {
    p in w.prompts && w.prompts[p].session in w.hub.table && w.hub.table[w.prompts[p].session] == p
  }

  /** Does this step start or end another prompt on p's session while p waits for the agent? */
  predicate Disturbs(w: World, a: Action, p: PromptId) {
    && p in w.prompts && w.prompts[p].pc == Subscribed
    && (|| (a.StartPrompt? && a.session == w.prompts[p].session)
        || (a.EndPrompt? && a.p != p && a.p in w.prompts && w.prompts[a.p].session == w.prompts[p].session))
  }

  ghost predicate HandledAt(run: seq<Action>, k: int, p: PromptId) {
    0 <= k < |run| && Legal(run[..k]) && Handles(After(run[..k]), run[k], p)
  }

  ghost predicate MissedAt(run: seq<Action>, k: int, p: PromptId) {
    HandledAt(run, k, p) && !Owns(After(run[..k]), p)
  }

  ghost predicate DisturbedAt(run: seq<Action>, k: int, p: PromptId) {
    0 <= k < |run| && Legal(run[..k]) && Disturbs(After(run[..k]), run[k], p)
  }

  /** The reference: the updates of p's session handled while p waits for the agent, in order. */
  function Handled(run: seq<Action>, p: PromptId): seq<Update>
    requires Legal(run)
  {
    if run == [] then []
    else
      var n := |run| - 1;
      Handled(run[..n], p) + Contribution(After(run[..n]), run[n], p)
  }

  /** What a step adds to that. */
  function Contribution(w: World, a: Action, p: PromptId): seq<Update> {
    if Handles(w, a, p) then [w.handlers[a.h].update] else []
  }

  /** The updates among them whose lookup found p. */
  function Taken(run: seq<Action>, p: PromptId): seq<Update>
    requires Legal(run)
  {
    if run == [] then []
    else
      var n := |run| - 1;
      Taken(run[..n], p) + Share(After(run[..n]), run[n], p)
  }

  function Share(w: World, a: Action, p: PromptId): seq<Update> {
    if Owns(w, p) then Contribution(w, a, p) else []
  }

  ghost predicate OneHandler(w: World) {
    forall h, k | h in w.handlers && k in w.handlers ::
      !w.handlers[h].pc.Finished? && !w.handlers[k].pc.Finished? ==> h == k
  }

  lemma OneHandlerStep(w: World, a: Action)
    requires OneHandler(w) && Enabled(w, a) && OneLoop(w, a)
    ensures OneHandler(Step(w, a))
  {}

  /** What was sent is what was taken, but for the one update being sent right now. */
  ghost predicate Delivered(w: World, p: PromptId, taken: seq<Update>)
    requires p in w.prompts && w.prompts[p].channel in w.channels
  {
    var sent := w.channels[w.prompts[p].channel].sent;
    if exists h :: h in w.handlers && w.handlers[h].pc == Sending(p)
    then exists h :: h in w.handlers && w.handlers[h].pc == Sending(p) && taken == sent + [w.handlers[h].update]
    else taken == sent
  }

  lemma {:induction false} DeliveredAfter(run: seq<Action>, p: PromptId)
    requires Legal(run) && LoopRun(run)
    ensures Inv(After(run)) && OneHandler(After(run))
    ensures p in After(run).prompts ==> Delivered(After(run), p, Taken(run, p))
    ensures p !in After(run).prompts ==> Taken(run, p) == []
  {
    InvAfter(run);
    if run != [] {
      var n := |run| - 1;
      var prefix, a := run[..n], run[n];
      assert forall k :: 0 <= k < n ==> prefix[..k] == run[..k] && prefix[k] == run[k];
      DeliveredAfter(prefix, p);
      OneHandlerStep(After(prefix), a);
      if p in After(run).prompts {
        DeliveredStep(After(prefix), a, p, Taken(prefix, p));
      }
    }
  }

  lemma DeliveredStep(w: World, a: Action, p: PromptId, taken: seq<Update>)
    requires Inv(w) && OneHandler(w) && Enabled(w, a) && OneLoop(w, a) && p in Step(w, a).prompts
    requires if p in w.prompts then Delivered(w, p, taken) else taken == []
    ensures Step(w, a).prompts[p].channel in Step(w, a).channels
    ensures Delivered(Step(w, a), p, taken + Share(w, a, p))
  {
    var w' := Step(w, a);
    PromptsStep(w, a);
    assert taken + [] == taken;
    if a.StartPrompt? && a.p == p {
      assert forall h :: h in w.handlers ==> w.handlers[h].pc != Sending(p);
    } else if a.Lookup? {
      assert !w.handlers[a.h].pc.Finished?;
      assert forall h :: h in w.handlers ==> w.handlers[h].pc != Sending(p);
      if w'.handlers[a.h].pc == Sending(p) {
        assert Share(w, a, p) == [w'.handlers[a.h].update];
      }
    } else if a.Send? {
      if w.handlers[a.h].pc == Sending(p) {
        assert forall h :: h in w'.handlers ==> w'.handlers[h].pc != Sending(p);
      } else {
        assert w.handlers[a.h].pc.Sending?;
        assert w.prompts[w.handlers[a.h].pc.sub].channel != w.prompts[p].channel;
      }
    } else {
      assert forall h :: h in w'.handlers && w'.handlers[h].pc == Sending(p) ==>
        h in w.handlers && w.handlers[h] == w'.handlers[h];
      assert forall h :: h in w.handlers && w.handlers[h].pc == Sending(p) ==>
        h in w'.handlers && w.handlers[h] == w'.handlers[h];
    }
  }

  /** With one read loop and any overlap of prompts: the channel of a prompt that returned was
      closed after exactly the updates whose lookup found it, in order. */
  lemma ChannelGetsWhatWasTaken(run: seq<Action>, p: PromptId)
    requires Legal(run) && LoopRun(run)
    requires p in After(run).prompts && After(run).prompts[p].pc == Returned
    ensures After(run).prompts[p].channel in After(run).channels
    ensures After(run).channels[After(run).prompts[p].channel] == Channel(Taken(run, p), true)
  {
    DeliveredAfter(run, p);
    var w := After(run);
    forall h | h in w.handlers ensures w.handlers[h].pc != Sending(p) {
      assert h !in Holders(w, p);
    }
  }

  lemma MissedNext(run: seq<Action>, k: int, p: PromptId)
    requires Legal(run) && run != []
    ensures MissedAt(run, k, p) <==> MissedAt(run[..|run| - 1], k, p) || (k == |run| - 1 && MissedAt(run, k, p))
  {
    var n := |run| - 1;
    if 0 <= k < n {
      assert run[..n][..k] == run[..k] && run[..n][k] == run[k];
    }
  }

  /** Nothing is missing iff no update was handled while the table's entry was not p's. */
  lemma {:induction false} TakenIsHandledIff(run: seq<Action>, p: PromptId)
    requires Legal(run)
    ensures if exists k :: MissedAt(run, k, p) then |Taken(run, p)| < |Handled(run, p)|
            else Taken(run, p) == Handled(run, p)
  {
    if run != [] {
      TakenIsHandledIff(run[..|run| - 1], p);
      var n := |run| - 1;
      forall k { MissedNext(run, k, p); }
      if k :| MissedAt(run[..n], k, p) {
        MissedNext(run, k, p);
      }
      if MissedAt(run, n, p) {
        assert Share(After(run[..n]), run[n], p) == [] && |Contribution(After(run[..n]), run[n], p)| == 1;
      } else {
        assert Share(After(run[..n]), run[n], p) == Contribution(After(run[..n]), run[n], p);
      }
    }
  }

  lemma OwnsStep(w: World, a: Action, p: PromptId)
    requires Inv(w) && Enabled(w, a) && p in Step(w, a).prompts && Step(w, a).prompts[p].pc == Subscribed
    ensures if p in w.prompts then Owns(Step(w, a), p) <==> Owns(w, p) && !Disturbs(w, a, p)
            else Owns(Step(w, a), p) && !Disturbs(w, a, p)
    ensures p in w.prompts ==> w.prompts[p].pc == Subscribed
  {}

  lemma {:induction false} NotYetDisturbed(run: seq<Action>, p: PromptId)
    requires Legal(run) && p !in After(run).prompts
    ensures forall k :: !DisturbedAt(run, k, p)
  {
    if run != [] {
      var n := |run| - 1;
      NotYetDisturbed(run[..n], p);
      forall k | 0 <= k < n ensures DisturbedAt(run[..n], k, p) <==> DisturbedAt(run, k, p) {
        assert run[..n][..k] == run[..k];
      }
    }
  }

  /** A prompt waiting for the agent still has its table entry iff no other prompt on its session
      started or ended since it subscribed. */
  lemma {:induction false} OwnsIffUndisturbed(run: seq<Action>, p: PromptId)
    requires Legal(run) && p in After(run).prompts && After(run).prompts[p].pc == Subscribed
    ensures Owns(After(run), p) <==> forall k :: !DisturbedAt(run, k, p)
  {
    var n := |run| - 1;
    var prefix := run[..n];
    InvAfter(prefix);
    OwnsStep(After(prefix), run[n], p);
    forall k | 0 <= k < n ensures DisturbedAt(prefix, k, p) <==> DisturbedAt(run, k, p) {
      assert prefix[..k] == run[..k];
    }
    assert DisturbedAt(run, n, p) <==> Disturbs(After(prefix), run[n], p);
    if p in After(prefix).prompts {
      OwnsIffUndisturbed(prefix, p);
    } else {
      NotYetDisturbed(prefix, p);
    }
    assert forall k :: DisturbedAt(run, k, p) ==> 0 <= k <= n;
    assert forall k :: DisturbedAt(prefix, k, p) ==> 0 <= k < n;
  }

  /** An update is missed at a step iff another prompt on the session started or ended before. */
  lemma MissedIff(run: seq<Action>, k: int, p: PromptId)
    requires Legal(run)
    ensures MissedAt(run, k, p) <==> HandledAt(run, k, p) && exists j :: j < k && DisturbedAt(run, j, p)
  {
    if HandledAt(run, k, p) {
      OwnsIffUndisturbed(run[..k], p);
      forall j | 0 <= j < k ensures DisturbedAt(run[..k], j, p) <==> DisturbedAt(run, j, p) {
        assert run[..k][..j] == run[..j];
      }
      assert forall j :: DisturbedAt(run[..k], j, p) ==> j < k;
      assert forall j :: j < k && DisturbedAt(run, j, p) ==> DisturbedAt(run[..k], j, p);
    }
  }

  /** Exactly when a prompt's promise is kept. With one read loop, the channel of a prompt that
      returned got the session's updates handled while it waited, all of them and in order, iff
      no such update was handled after another prompt on the session had started or ended. */
  lemma ChannelCompleteIff(run: seq<Action>, p: PromptId)
    requires Legal(run) && LoopRun(run)
    requires p in After(run).prompts && After(run).prompts[p].pc == Returned
    ensures After(run).prompts[p].channel in After(run).channels
    ensures After(run).channels[After(run).prompts[p].channel].sent == Handled(run, p) <==>
      forall j, k :: DisturbedAt(run, j, p) && j < k ==> !HandledAt(run, k, p)
  {
    ChannelGetsWhatWasTaken(run, p);
    TakenIsHandledIff(run, p);
    forall k { MissedIff(run, k, p); }
    if k :| MissedAt(run, k, p) {
      var j :| j < k && DisturbedAt(run, j, p);
      assert HandledAt(run, k, p);
    } else {
      forall j, k | DisturbedAt(run, j, p) && j < k ensures !HandledAt(run, k, p) {
        assert !MissedAt(run, k, p);
      }
    }
  }

  // ---------------------------------------------------------------- one prompt per session

  predicate Active(w: World, p: PromptId) { p in w.prompts && w.prompts[p].pc != Returned }

  /** One read loop and one prompt per session. */
  ghost predicate Disciplined(w: World, a: Action) {
    OneLoop(w, a) && (a.StartPrompt? ==> forall p :: Active(w, p) ==> w.prompts[p].session != a.session)
  }

  ghost predicate DisciplinedRun(run: seq<Action>)
    requires Legal(run)
  {
    forall k :: 0 <= k < |run| ==> Legal(run[..k]) && Disciplined(After(run[..k]), run[k])
  }

  ghost predicate OnePerSession(w: World) {
    forall p, q :: Active(w, p) && Active(w, q) && p != q ==> w.prompts[p].session != w.prompts[q].session
  }

  lemma OnePerSessionStep(w: World, a: Action)
    requires OnePerSession(w) && Enabled(w, a) && Disciplined(w, a)
    ensures OnePerSession(Step(w, a))
  {
    assert forall p :: Active(Step(w, a), p) ==> Active(w, p) || (a.StartPrompt? && a.p == p);
  }

  lemma {:induction false} OnePerSessionAfter(run: seq<Action>)
    requires Legal(run) && DisciplinedRun(run)
    ensures OnePerSession(After(run))
  {
    if run != [] {
      var n := |run| - 1;
      assert forall k :: 0 <= k < n ==> run[..n][..k] == run[..k] && run[..n][k] == run[k];
      OnePerSessionAfter(run[..n]);
      OnePerSessionStep(After(run[..n]), run[n]);
    }
  }

  lemma DisciplinedPrefix(run: seq<Action>, j: nat)
    requires Legal(run) && DisciplinedRun(run) && j <= |run| && Legal(run[..j])
    ensures DisciplinedRun(run[..j])
  {
    assert forall k :: 0 <= k < j ==> run[..j][..k] == run[..k] && run[..j][k] == run[k];
  }

  lemma NeverDisturbed(run: seq<Action>, j: int, p: PromptId)
    requires Legal(run) && DisciplinedRun(run)
    ensures !DisturbedAt(run, j, p)
  {
    if 0 <= j < |run| {
      EnabledAt(run, j);
      DisciplinedPrefix(run, j);
      OnePerSessionAfter(run[..j]);
      NoDisturbance(After(run[..j]), run[j], p);
    }
  }

  /** So with one prompt per session the promise is kept. */
  lemma ChannelGetsExactlyTheUpdates(run: seq<Action>, p: PromptId)
    requires Legal(run) && DisciplinedRun(run)
    requires p in After(run).prompts && After(run).prompts[p].pc == Returned
    ensures After(run).prompts[p].channel in After(run).channels
    ensures After(run).channels[After(run).prompts[p].channel] == Channel(Handled(run, p), true)
  {
    assert LoopRun(run);
    forall j { NeverDisturbed(run, j, p); }
    ChannelCompleteIff(run, p);
    ChannelGetsWhatWasTaken(run, p);
  }

  lemma NoDisturbance(w: World, a: Action, p: PromptId)
    requires OnePerSession(w) && Enabled(w, a) && Disciplined(w, a)
    ensures !Disturbs(w, a, p)
  {
    assert a.EndPrompt? ==> Active(w, a.p);
    assert p in w.prompts && w.prompts[p].pc == Subscribed ==> Active(w, p);
  }

  /** `w` is reached by a run over which `handled` is what p was promised. */
  ghost predicate Reached(w: World, p: PromptId, handled: seq<Update>) {
    exists run :: Legal(run) && After(run) == w && Handled(run, p) == handled
  }

  lemma Next(w: World, a: Action, p: PromptId, handled: seq<Update>)
    requires Reached(w, p, handled) && Enabled(w, a)
    ensures Reached(Step(w, a), p, handled + Contribution(w, a, p))
  {
    var run :| Legal(run) && After(run) == w && Handled(run, p) == handled;
    var run' := run + [a];
    assert run'[..|run|] == run;
    assert Legal(run') && After(run') == Step(w, a) && Handled(run', p) == handled + Contribution(w, a, p);
  }

  // The steps of the run below, each from any world.

  lemma ReachStart(w: World, q: PromptId, s: Session, ch: ChannelId, p: PromptId, handled: seq<Update>)
    requires Reached(w, p, handled) && HubOk(w) && q !in w.prompts && q !in w.hub.inFlight && ch !in w.channels
    ensures var w' := World(Subscribe(w.hub, s, q), w.prompts[q := Prompt(s, ch, Subscribed)],
                            w.handlers, w.channels[ch := Channel([], false)]);
      Reached(w', p, handled) && HubOk(w')
  {
    Next(w, StartPrompt(q, s, ch), p, handled);
    assert handled + [] == handled;
  }

  lemma ReachEnd(w: World, q: PromptId, p: PromptId, handled: seq<Update>)
    requires Reached(w, p, handled) && HubOk(w) && q in w.prompts && w.prompts[q].pc == Subscribed
    ensures var w' := PromptTo(w.(hub := Unsubscribe(w.hub, w.prompts[q].session)), q, Unsubscribed);
      Reached(w', p, handled) && HubOk(w')
  {
    Next(w, EndPrompt(q), p, handled);
    assert handled + [] == handled;
  }

  /** An update of p's session that no subscription takes. */
  lemma ReachUnclaimed(w: World, h: HandlerId, u: Update, p: PromptId, handled: seq<Update>)
    requires Reached(w, p, handled) && HubOk(w) && h !in w.handlers
    requires p in w.prompts && w.prompts[p].pc == Subscribed && w.prompts[p].session !in w.hub.table
    ensures var w' := w.(handlers := w.handlers[h := Handler(w.prompts[p].session, u, Finished)]);
      Reached(w', p, handled + [u]) && HubOk(w')
  {
    var s := w.prompts[p].session;
    var mid := w.(handlers := w.handlers[h := Handler(s, u, Arrived)]);
    var w' := w.(handlers := w.handlers[h := Handler(s, u, Finished)]);
    assert Reached(mid, p, handled) by {
      Next(w, Arrive(h, s, u), p, handled);
      assert handled + [] == handled;
    }
    assert Enabled(mid, Lookup(h)) && Step(mid, Lookup(h)) == w' by {
      assert mid.handlers[h := Handler(s, u, Finished)] == w'.handlers;
    }
    assert Contribution(mid, Lookup(h), p) == [u];
    Next(mid, Lookup(h), p, handled);
  }

  lemma ReachClose(w: World, p: PromptId, handled: seq<Update>)
    requires Reached(w, p, handled) && HubOk(w) && p in w.prompts && w.prompts[p].pc == Unsubscribed
    requires p in w.hub.inFlight && w.hub.inFlight[p] == 0
    requires w.prompts[p].channel in w.channels && !w.channels[w.prompts[p].channel].closed
    ensures Reached(CloseStep(PromptTo(w, p, Drained), p), p, handled)
  {
    Next(w, WaitGroup(p), p, handled);
    assert handled + [] == handled;
    Next(PromptTo(w, p, Drained), CloseChannel(p), p, handled);
  }

  /** A run that fails, for any two prompts p and q, session and update: q overlaps p, the end of q
      drops p's subscription, and p's channel is closed without the update handled meanwhile. */
  lemma OverlapLosesUpdates(
    p: PromptId, q: PromptId, s: Session, ch: ChannelId, ch': ChannelId, h: HandlerId, u: Update) returns (w: World)
    requires p != q && ch != ch'
    ensures Reached(w, p, [u])
    ensures p in w.prompts && w.prompts[p] == Prompt(s, ch, Returned)
    ensures ch in w.channels && w.channels[ch] == Channel([], true)
  {
    w := INITIAL;
    var run: seq<Action> := [];
    assert Legal(run) && After(run) == w && Handled(run, p) == [];
    ReachStart(w, p, s, ch, p, []);
    w := World(Subscribe(w.hub, s, p), w.prompts[p := Prompt(s, ch, Subscribed)],
               w.handlers, w.channels[ch := Channel([], false)]);
    ReachStart(w, q, s, ch', p, []);
    w := World(Subscribe(w.hub, s, q), w.prompts[q := Prompt(s, ch', Subscribed)],
               w.handlers, w.channels[ch' := Channel([], false)]);
    ReachEnd(w, q, p, []);
    w := PromptTo(w.(hub := Unsubscribe(w.hub, s)), q, Unsubscribed);
    ReachUnclaimed(w, h, u, p, []);
    w := w.(handlers := w.handlers[h := Handler(s, u, Finished)]);
    assert [] + [u] == [u];
    ReachEnd(w, p, p, [u]);
    w := PromptTo(w.(hub := Unsubscribe(w.hub, s)), p, Unsubscribed);
    ReachClose(w, p, [u]);
    w := CloseStep(PromptTo(w, p, Drained), p);
  }
}
