/**
 Reading provider events keeps the invariant of a provider session: text is accounted for,
 events are handled in the order they arrived, and a turn resolves only as it may.
 */
module AgySessionReading {

  import opened Options
  import opened AgySession
  import opened AgySessionMonitor
  import opened AgySessionInvariant
  import opened AgySessionLifecycle

  // ---- Texts and sequences ----

  lemma {:induction false} ByteLengthAdds(a: Text, b: Text)
    ensures ByteLength(a + b) <= ByteLength(a) + ByteLength(b)
    decreases |a|
  {
    if a == [] {
      assert a + b == b;
    } else if |a| >= 2 && HighHalf(a[0]) && LowHalf(a[1]) {
      assert (a + b)[2..] == a[2..] + b;
      ByteLengthAdds(a[2..], b);
    } else if |a| == 1 && b != [] && HighHalf(a[0]) && LowHalf(b[0]) {
      assert (a + b)[2..] == b[1..];
      assert a[1..] == [];
    } else {
      assert (a + b)[1..] == a[1..] + b;
      ByteLengthAdds(a[1..], b);
    }
  }

  lemma FlattenAppended(segments: seq<Text>, text: Text)
    requires segments != []
    ensures var n := |segments|; Flatten(segments[n - 1 := segments[n - 1] + text]) == Flatten(segments) + text
  {
    var n := |segments|;
    assert segments[n - 1 := segments[n - 1] + text][..n - 1] == segments[..n - 1];
  }

  lemma FlattenPushed(segments: seq<Text>)
    ensures Flatten(segments + [[]]) == Flatten(segments)
  {
    assert (segments + [[]])[..|segments|] == segments;
  }

  lemma {:induction false} OrderedAdds(a: seq<Line>, b: seq<Line>)
    ensures OrderedAll(a + b) == OrderedAll(a) + OrderedAll(b)
    decreases |a|
  {
    if a == [] {
      assert a + b == b;
    } else {
      assert (a + b)[1..] == a[1..] + b;
      OrderedAdds(a[1..], b);
    }
  }

  // ---- What reading may change ----

  /** A live turn still has its child. */
  predicate Steady(s: Session, s': Session) {
    Live(s') ==> s'.provider.child == s.provider.child
  }

  lemma AppendKeeps(s: Session, text: Text)
    requires Core(s) && s.active
    ensures Core(Append(s, text)) && Undisturbed(s, Append(s, text)) && Steady(s, Append(s, text))
  {
    if Overflows(s, text) { OverflowKeeps(s); } else { SayKeeps(s, text); }
  }

  lemma OverflowKeeps(s: Session)
    requires Core(s)
    ensures Core(FailProvider(Spent(s))) && !Live(FailProvider(Spent(s)))
  {
    SpentKeeps(s);
    FailProviderKeeps(Spent(s));
  }

  lemma SpentKeeps(s: Session)
    requires Core(s)
    ensures Core(Spent(s))
  {
  }

  lemma SayKeeps(s: Session, text: Text)
    requires Core(s) && s.active && !Overflows(s, text)
    ensures Core(Say(s, text)) && Undisturbed(s, Say(s, text)) && Say(s, text).binding == s.binding
        && Say(s, text).provider == s.provider
  {
    ByteLengthAdds(s.turn.reply.emitted, text);
    FlattenAppended(s.turn.reply.segments, text);
  }

  lemma TrackKeeps(s: Session, conv: Option<Conv>)
    requires Core(s)
    ensures Core(Track(s, conv)) && Undisturbed(s, Track(s, conv)) && Steady(s, Track(s, conv))
  {
  }

  // ---- Finishing ----

  lemma AllSettled(s: Session, coming: seq<Line>)
    requires Core(s) && LiveOk(s, coming) && Live(s) && s.turn.queue.operations == {} && s.turn.queue.ids == {}
    ensures AllInjected(s.seen.steers)
  {
    var q := s.turn.queue;
    forall k | 0 <= k < s.seen.steers.accepted ensures k in s.seen.steers.injected {
      if k !in s.seen.steers.injected {
        assert HasKey(q, k);
        var key :| key in q.waiters && q.waiters[key] == k;
        assert false;
      }
    }
  }

  lemma ResolveKeeps(s: Session, own: Option<Text>)
    requires Core(s) && Live(s) && Quiescent(s) && AllInjected(s.seen.steers)
    requires var answer := Answer(s.turn, own);
             ByteLength(answer) <= s.config.maxResponse && (s.turn.queue.injected > 0 ==> answer != [])
    ensures Core(Resolve(s, Answer(s.turn, own), own)) && !Resolve(s, Answer(s.turn, own), own).active
  {
    assert GoodAnswer(s.seen, Answer(s.turn, own), own, s.config.maxResponse);
  }

  lemma FinishResultKeeps(s: Session, r: Event, coming: seq<Line>)
    requires Core(s) && LiveOk(s, coming) && Live(s) && Quiescent(s) && s.turn.queue.ids == {}
    ensures Core(FinishResult(s, r)) && !Live(FinishResult(s, r))
  {
    AllSettled(s, coming);
    if !r.Result? || !r.success {
      FinishKeeps(s);
    } else if s.turn.queue.injected > 0 && Answer(s.turn, r.response) == [] {
      FailSteeringKeeps(s);
    } else if ByteLength(Answer(s.turn, r.response)) > s.config.maxResponse {
      FailProviderKeeps(s);
    } else {
      ResolveKeeps(s, r.response);
    }
  }

  lemma TakenKeeps(s: Session)
    requires Core(s)
    ensures Core(s.(turn := s.turn.(result := None)))
  {
  }

  lemma MaybeFinishKeeps(s: Session, coming: seq<Line>)
    requires Inv(s, coming)
    ensures Inv(MaybeFinish(s), coming) && Steady(s, MaybeFinish(s))
  {
    if !s.active || s.turn.flags.failed || s.turn.result.None? || s.turn.queue.operations != {}
        || s.turn.queue.observing {
    } else if s.turn.queue.ids != {} || s.turn.queue.intents > s.turn.queue.injected {
      FailSteeringKeeps(s);
    } else {
      var s1 := s.(turn := s.turn.(result := None));
      TakenKeeps(s);
      StaysLive(s, s1, coming);
      FinishResultKeeps(s1, s.turn.result.value, coming);
    }
  }

  lemma WithResultKeeps(s: Session, e: Event, coming: seq<Line>)
    requires Inv(s, coming) && (s.active ==> !s.binding.pending)
    ensures Inv(WithResult(s, e), coming) && Steady(s, WithResult(s, e))
  {
    GivenKeeps(s, e);
    var s1 := s.(turn := s.turn.(result := Some(e)));
    StaysLive(s, s1, coming);
    MaybeFinishKeeps(s1, coming);
  }

  lemma GivenKeeps(s: Session, e: Event)
    requires Core(s) && (s.active ==> !s.binding.pending)
    ensures Core(s.(turn := s.turn.(result := Some(e))))
  {
  }

  lemma ConversationKeeps(s: Session, c: Conversation)
    requires Core(s) && c.id == s.conversation.id && c.eligible == s.conversation.eligible
    ensures Core(s.(conversation := c)) && Undisturbed(s, s.(conversation := c))
  {
  }

  lemma HandleResultKeeps(s: Session, e: Event, coming: seq<Line>)
    requires Inv(s, coming) && e.Result? && s.active && !s.binding.pending
    ensures Inv(HandleResult(s, e), coming) && Steady(s, HandleResult(s, e))
  {
    if !e.success {
      var s1 := s.(conversation := s.conversation.(succeeded := false));
      ConversationKeeps(s, s1.conversation);
      StaysLive(s, s1, coming);
      WithResultKeeps(s1, e, coming);
    } else {
      var s1 := Succeed(s, e.conv);
      ConversationKeeps(s, s1.conversation);
      StaysLive(s, s1, coming);
      SucceededKeeps(s, s1, e, coming);
    }
  }

  lemma SucceededKeeps(s: Session, s1: Session, e: Event, coming: seq<Line>)
    requires Inv(s1, coming) && e.Result? && e.success && s1 == Succeed(s, e.conv) && s.active && !s.binding.pending
    ensures Inv(HandleResult(s, e), coming) && Steady(s, HandleResult(s, e))
  {
    if s.turn.reply.emitted != [] || e.response.None? || s.turn.queue.injected != 0 {
      WithResultKeeps(s1, e, coming);
    } else {
      var text := e.response.value;
      if Overflows(s, text) {
        OverflowKeeps(s1);
      } else {
        SayKeeps(s1, text);
        StaysLive(s1, Say(s1, text), coming);
        WithResultKeeps(Say(s1, text), e, coming);
      }
    }
  }

  // ---- Inits ----

  lemma NamedKeeps(s: Session, id: Conv)
    requires Core(s) && s.provider.child.Some? && (s.conversation.id.Some? ==> s.conversation.id == Some(id))
    ensures Core(Named(s, id)) && Undisturbed(s, Named(s, id)) && Named(s, id).provider == s.provider
    ensures Named(s, id).seen.children.initialised
  {
  }

  lemma BeginBindingKeeps(s: Session)
    requires Core(s) && s.provider.child.Some?
    ensures Core(BeginBinding(s)) && Undisturbed(s, BeginBinding(s)) && Steady(s, BeginBinding(s))
    ensures BeginBinding(s).seen.children == s.seen.children
  {
    if s.binding.pending && s.binding.inFlight { FailProviderKeeps(s); }
  }

  lemma InitialisedKeeps(s: Session)
    requires Core(s) && s.seen.children.initialised
    ensures var s' := s.(provider := s.provider.(awaitingInit := false)); Core(s') && Undisturbed(s, s')
  {
  }

  lemma SendIsSteady(s: Session, writes: bool)
    ensures Steady(s, SendPrompt(s, writes))
  {
  }

  lemma AfterInitKeeps(s: Session, writes: bool)
    requires Core(s) && s.seen.children.initialised
    ensures Core(AfterInit(s, writes)) && Undisturbed(s, AfterInit(s, writes)) && Steady(s, AfterInit(s, writes))
  {
    if s.provider.resumed && s.provider.child.Some? {
      InitialisedKeeps(s);
      var s1 := s.(provider := s.provider.(awaitingInit := false));
      SendKeeps(s1, writes);
      SendIsSteady(s1, writes);
    }
  }

  /** A repeated init names the conversation again. */
  lemma RepeatedInit(s: Session, id: Option<Conv>)
    requires Core(s) && s.turn.flags.initSeen && s.conversation.id == id
    ensures s.(conversation := s.conversation.(id := id)) == s
  {
  }

  lemma HandleInitKeeps(s: Session, id: Option<Conv>, writes: bool)
    requires Core(s) && s.provider.child.Some?
    ensures Core(HandleInit(s, id, writes)) && Undisturbed(s, HandleInit(s, id, writes))
    ensures Steady(s, HandleInit(s, id, writes))
  {
    if id.None? || (s.conversation.id.Some? && s.conversation.id != id) {
      FailProviderKeeps(s);
    } else if s.active && s.turn.flags.initSeen {
      RepeatedInit(s, id);
      FailProviderKeeps(s);
    } else {
      FirstInitKeeps(s, id.value, writes);
    }
  }

  lemma FirstInitKeeps(s: Session, id: Conv, writes: bool)
    requires Core(s) && s.provider.child.Some? && (s.conversation.id.Some? ==> s.conversation.id == Some(id))
    ensures var s' := AfterInit(BeginBinding(Named(s, id)), writes); Core(s') && Undisturbed(s, s') && Steady(s, s')
  {
    NamedKeeps(s, id);
    var s1 := Named(s, id);
    BeginBindingKeeps(s1);
    AfterInitKeeps(BeginBinding(s1), writes);
  }

  // ---- Deferring ----

  lemma ChargeKeeps(s: Session, line: Line)
    requires Core(s)
    ensures Core(Charge(s, line))
  {
  }

  lemma BackloggedKeeps(s: Session, lines: seq<Line>)
    requires Core(s)
    ensures Core(Backlogged(s, lines))
  {
  }

  lemma DeferKeeps(s: Session, line: Line, coming: seq<Line>)
    requires Core(s) && LiveOk(s, [line] + coming) && (s.binding.pending || !line.event.UserInput?)
    requires s.binding.pending || s.turn.queue.observing || s.turn.backlog.input.Some?
    ensures Core(Defer(s, line)) && LiveOk(Defer(s, line), coming) && Steady(s, Defer(s, line))
  {
    if |s.turn.backlog.lines| >= s.config.maxDeferredEvents {
      FailProviderKeeps(s);
    } else {
      ChargeKeeps(s, line);
      if Charge(s, line).turn.backlog.used > s.config.maxDeferredBytes {
        FailProviderKeeps(Charge(s, line));
      } else {
        BackloggedKeeps(Charge(s, line), s.turn.backlog.lines + [line]);
        PutOff(s, Defer(s, line), line, coming);
      }
    }
  }

  /** The line joins the end of the backlog. */
  lemma PutOff(s: Session, s': Session, line: Line, coming: seq<Line>)
    requires LiveOk(s, [line] + coming) && (Live(s') ==> Live(s)) && (s.binding.pending || !line.event.UserInput?)
    requires s.binding.pending || s.turn.queue.observing || s.turn.backlog.input.Some?
    requires s'.turn.queue == s.turn.queue && s'.binding == s.binding && s'.seen == s.seen
    requires s'.turn.backlog.input == s.turn.backlog.input && s'.turn.backlog.lines == s.turn.backlog.lines + [line]
    ensures LiveOk(s', coming)
  {
    assert Held(s'.turn.backlog) + coming == Held(s.turn.backlog) + ([line] + coming);
  }

  // ---- Handling ----

  /** A line whose turn it is: nothing is held back, or it is an init. */
  predicate Due(s: Session, line: Line) {
    line.event.Init? || (!s.binding.pending && !s.turn.queue.observing && s.turn.backlog.input.None?)
  }

  lemma Passes(held: seq<Line>, line: Line, coming: seq<Line>)
    requires line.event.Init? || held == []
    ensures OrderedAll(held + ([line] + coming)) == Ordered(line) + OrderedAll(held + coming)
  {
    OrderedAdds(held, [line] + coming);
    OrderedAdds(held, coming);
    assert ([line] + coming)[1..] == coming;
  }

  lemma NextInOrder(b: Backlog, events: Events, waiting: bool, line: Line, coming: seq<Line>)
    requires InOrder(b, events, waiting, [line] + coming) && (line.event.Init? || (!waiting && b.input.None?))
    ensures events.arrived == events.handled + Ordered(line) + OrderedAll(Held(b) + coming)
  {
    Passes(Held(b), line, coming);
  }

  lemma HandlesKeeps(s: Session, line: Line, coming: seq<Line>)
    requires Core(s) && LiveOk(s, [line] + coming) && s.active && Due(s, line)
    ensures Core(Emit(s, Handles(s.turn.number, line))) && LiveOk(Emit(s, Handles(s.turn.number, line)), coming)
  {
    if Live(s) && !s.seen.stage.overtaken {
      NextInOrder(s.turn.backlog, s.seen.events, s.binding.pending || s.turn.queue.observing, line, coming);
    }
  }

  /** Every event but user input, handled while the child is there. */
  lemma HandleKeeps(s: Session, e: Event, writes: bool, coming: seq<Line>)
    requires Inv(s, coming) && s.provider.child.Some? && (s.active && !e.Init? ==> !s.binding.pending)
    ensures Inv(Handle(s, e, writes), coming) && Steady(s, Handle(s, e, writes))
  {
    match e
    case Init(id) =>
      HandleInitKeeps(s, id, writes);
      StaysLive(s, HandleInit(s, id, writes), coming);
    case Delta(conv, _, text) => StepKeeps(s, conv, Some(text), coming);
    case OtherStep(conv, _) => StepKeeps(s, conv, None, coming);
    case Response(text) => if s.active { ResponseKeeps(s, text, coming); }
    case Result(conv, _, _) => ResultKeeps(s, e, coming);
    case _ =>
  }

  lemma ResponseKeeps(s: Session, text: Text, coming: seq<Line>)
    requires Inv(s, coming) && s.active
    ensures Inv(Append(s, text), coming) && Steady(s, Append(s, text))
  {
    AppendKeeps(s, text);
    StaysLive(s, Append(s, text), coming);
  }

  lemma ResultKeeps(s: Session, e: Event, coming: seq<Line>)
    requires Inv(s, coming) && e.Result? && (s.active ==> !s.binding.pending)
    ensures Inv(Handle(s, e, true), coming) && Steady(s, Handle(s, e, true))
    ensures Handle(s, e, true) == Handle(s, e, false)
  {
    if Mismatch(s, e.conv) {
      FailProviderKeeps(s);
    } else {
      TrackKeeps(s, e.conv);
      StaysLive(s, Track(s, e.conv), coming);
      if s.active { HandleResultKeeps(Track(s, e.conv), e, coming); }
    }
  }

  lemma StepKeeps(s: Session, conv: Option<Conv>, text: Option<Text>, coming: seq<Line>)
    requires Inv(s, coming)
    ensures var s' := if Mismatch(s, conv) then FailProvider(s)
                      else if s.active && text.Some? then Append(Track(s, conv), text.value) else Track(s, conv);
            Inv(s', coming) && Steady(s, s')
  {
    if Mismatch(s, conv) {
      FailProviderKeeps(s);
    } else {
      TrackKeeps(s, conv);
      StaysLive(s, Track(s, conv), coming);
      if s.active && text.Some? {
        AppendKeeps(Track(s, conv), text.value);
        StaysLive(Track(s, conv), Append(Track(s, conv), text.value), coming);
      }
    }
  }

  // ---- User input ----

  lemma SeenKeeps(s: Session)
    requires Core(s)
    ensures var s' := s.(turn := s.turn.(flags := s.turn.flags.(initialSeen := true))); Core(s') && Undisturbed(s, s')
  {
  }

  lemma HoldKeeps(s: Session, input: Option<Line>)
    requires Core(s) && (input.Some? ==> s.turn.flags.started && s.turn.flags.initialSeen)
    ensures Core(Hold(s, input))
  {
  }

  lemma ObservingKeeps(s: Session, on: bool)
    requires Core(s) && (on ==> s.active && s.turn.flags.started && s.turn.flags.initialSeen)
    ensures Core(Observing(s, on))
  {
  }

  lemma OvertakeKeeps(s: Session)
    requires Core(s) && s.active
    ensures Core(Overtake(s)) && Overtake(s).turn == s.turn && Overtake(s).binding == s.binding && Overtake(s).active
    ensures Overtake(s).seen.events == s.seen.events && Overtake(s).seen.steers == s.seen.steers
        && Overtake(s).provider == s.provider
    ensures Overtake(s).seen.stage.overtaken == (s.seen.stage.overtaken || OrderedAll(s.turn.backlog.lines) != [])
  {
  }

  /** Held behind nothing but inits, the input is next in order. */
  lemma HeldInOrder(b: Backlog, events: Events, waiting: bool, line: Line, coming: seq<Line>)
    requires InOrder(b, events, waiting, [line] + coming) && b.input.None? && OrderedAll(b.lines) == []
    requires line.event.UserInput?
    ensures InOrder(b.(input := Some(line)), events, waiting, coming)
  {
    var b' := b.(input := Some(line));
    assert Held(b) == b.lines && Held(b') == [line] + b.lines;
    OrderedAdds(b.lines, [line] + coming);
    OrderedAdds([line] + b.lines, coming);
    OrderedAdds([line], b.lines);
    OrderedAdds([line], coming);
  }

  lemma HeldBackKeeps(s: Session, line: Line, coming: seq<Line>)
    requires Core(s) && LiveOk(s, [line] + coming) && s.active && line.event.UserInput?
    requires s.turn.backlog.input.None? && s.turn.flags.started && s.turn.flags.initialSeen
    ensures var s' := Hold(Overtake(s), Some(line)); Core(s') && LiveOk(s', coming)
  {
    OvertakeKeeps(s);
    HoldKeeps(Overtake(s), Some(line));
    if Live(s) && !s.seen.stage.overtaken && OrderedAll(s.turn.backlog.lines) == [] {
      HeldInOrder(s.turn.backlog, s.seen.events, s.binding.pending || s.turn.queue.observing, line, coming);
    }
  }

  lemma ChargeStaysLive(s: Session, line: Line, coming: seq<Line>)
    requires LiveOk(s, coming)
    ensures LiveOk(Charge(s, line), coming)
  {
    assert Held(Charge(s, line).turn.backlog) == Held(s.turn.backlog);
  }

  lemma HandleUserInputKeeps(s: Session, line: Line, coming: seq<Line>)
    requires Core(s) && LiveOk(s, [line] + coming) && s.active && !s.binding.pending && line.event.UserInput?
    requires s.turn.flags.initialExpected ==> s.turn.flags.initialSeen
    ensures Core(HandleUserInput(s, line, false)) && LiveOk(HandleUserInput(s, line, false), coming)
    ensures Steady(s, HandleUserInput(s, line, false))
  {
    if s.turn.backlog.input.Some? {
      FailSteeringKeeps(s);
    } else if s.turn.queue.operations != {} {
      ChargeKeeps(s, line);
      if Charge(s, line).turn.backlog.used > s.config.maxDeferredBytes {
        FailProviderKeeps(Charge(s, line));
      } else {
        ChargeStaysLive(s, line, [line] + coming);
        HeldBackKeeps(Charge(s, line), line, coming);
        OvertakeKeeps(Charge(s, line));
      }
    } else if s.turn.queue.observing || s.turn.queue.ids == {} || !s.config.enabled {
      FailSteeringKeeps(s);
    } else {
      ObserveKeeps(s, line, coming);
    }
  }

  lemma ObserveKeeps(s: Session, line: Line, coming: seq<Line>)
    requires Core(s) && LiveOk(s, [line] + coming) && s.active && Due(s, line) && line.event.UserInput?
    requires s.turn.flags.started && s.turn.flags.initialSeen
    ensures var s' := Emit(Observing(s, true), Handles(s.turn.number, line)); Core(s') && LiveOk(s', coming)
  {
    HandlesKeeps(s, line, coming);
    ObservingKeeps(Emit(s, Handles(s.turn.number, line)), true);
    ObservingStaysLive(Emit(s, Handles(s.turn.number, line)), coming);
  }

  lemma ObservingStaysLive(s: Session, coming: seq<Line>)
    requires LiveOk(s, coming)
    ensures LiveOk(Observing(s, true), coming)
  {
    if Live(s) { QueueStaysFiled(s.turn.queue, Observing(s, true).turn.queue, s.seen.steers.injected); }
  }

  /** Whether an observation is in flight does not matter to where promises are filed. */
  lemma QueueStaysFiled(q: Queue, q': Queue, injected: set<nat>)
    requires Filed(q, injected)
    requires q'.intents == q.intents && q'.waiters == q.waiters && q'.operations == q.operations && q'.ids == q.ids
    ensures Filed(q', injected)
  {
    forall k | 0 <= k < q'.intents ensures k in injected || HasKey(q', k) {
      if k !in injected {
        assert HasKey(q, k);
        var key :| key in q.waiters && q.waiters[key] == k;
        assert key in q'.waiters;
      }
    }
    forall key | key in q'.waiters ensures KeyOk(q', key, injected) { assert KeyOk(q, key, injected); }
  }

  lemma ReadUserInputKeeps(s: Session, line: Line, coming: seq<Line>)
    requires Core(s) && LiveOk(s, [line] + coming) && line.event.UserInput? && (s.active ==> !s.binding.pending)
    ensures Core(ReadUserInput(s, line)) && LiveOk(ReadUserInput(s, line), coming) && Steady(s, ReadUserInput(s, line))
  {
    if !s.active {
    } else if !Attributable(s, line.event) {
      FailSteeringKeeps(s);
    } else if s.turn.flags.initialExpected && !s.turn.flags.initialSeen {
      HandlesKeeps(s, line, coming);
      var s1 := Emit(s, Handles(s.turn.number, line));
      SeenKeeps(s1);
      StaysLive(s1, s1.(turn := s1.turn.(flags := s1.turn.flags.(initialSeen := true))), coming);
    } else {
      HandleUserInputKeeps(s, line, coming);
    }
  }
}
