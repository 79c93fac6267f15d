/**
 All runs of a provider session, and what holds in every one of them.
 */
module AgySessionRuns {

  import opened Options
  import opened AgySession
  import opened AgySessionMonitor
  import opened AgySessionInvariant
  import opened AgySessionReading

  // ---- Reading and replaying ----

  lemma WatermarkKeeps(s: Session, e: Event)
    requires Core(s)
    ensures Core(Watermarked(s, e)) && Undisturbed(s, Watermarked(s, e)) && Watermarked(s, e).turn == s.turn
    ensures Watermarked(s, e).provider == s.provider && Watermarked(s, e).binding == s.binding
        && Watermarked(s, e).active == s.active
  {
  }

  lemma DispatchKeeps(s: Session, line: Line, writes: bool, coming: seq<Line>)
    requires Core(s) && LiveOk(s, [line] + coming) && s.provider.child.Some?
    requires s.active && !line.event.Init? ==> !s.binding.pending
    ensures Core(Dispatch(s, line, writes)) && LiveOk(Dispatch(s, line, writes), coming)
    ensures Steady(s, Dispatch(s, line, writes))
  {
    if s.active && !line.event.UserInput? && (s.turn.backlog.input.Some? || s.turn.queue.observing) {
      DeferKeeps(s, line, coming);
    } else if line.event.UserInput? {
      ReadUserInputKeeps(s, line, coming);
    } else if s.active {
      HandlesKeeps(s, line, coming);
      HandleKeeps(Emit(s, Handles(s.turn.number, line)), line.event, writes, coming);
    } else {
      HandleKeeps(s, line.event, writes, coming);
    }
  }

  lemma ProcessKeeps(s: Session, line: Line, writes: bool, coming: seq<Line>)
    requires Core(s) && LiveOk(s, [line] + coming) && s.provider.child.Some?
    ensures Core(Process(s, line, writes)) && LiveOk(Process(s, line, writes), coming)
    ensures Steady(s, Process(s, line, writes))
  {
    var e := line.event;
    if e.Malformed? || (s.provider.resumed && s.provider.awaitingInit && !e.Init?) {
      FailProviderKeeps(s);
    } else if s.active && !e.Init? && s.binding.pending {
      if Unsettled(s.turn.queue) && (e.Result? || e.ErrorEvent?) {
        FailSteeringKeeps(s);
      } else {
        DeferKeeps(s, line, coming);
      }
    } else {
      WatermarkKeeps(s, e);
      StaysLive(s, Watermarked(s, e), [line] + coming);
      DispatchKeeps(Watermarked(s, e), line, writes, coming);
    }
  }

  lemma {:induction false} ReplayKeeps(s: Session, lines: seq<Line>, writes: bool, coming: seq<Line>)
    requires Core(s) && LiveOk(s, lines + coming) && (Live(s) ==> s.provider.child.Some?)
    ensures Core(Replay(s, lines, writes)) && LiveOk(Replay(s, lines, writes), coming)
    decreases |lines|
  {
    if lines == [] {
      assert lines + coming == coming;
    } else if Live(s) {
      ReplayOneKeeps(s, lines, writes, coming);
      ReplayKeeps(Process(s, lines[0], writes), lines[1..], writes, coming);
    }
  }

  lemma ReplayOneKeeps(s: Session, lines: seq<Line>, writes: bool, coming: seq<Line>)
    requires Core(s) && lines != [] && LiveOk(s, lines + coming) && s.provider.child.Some?
    ensures var s1 := Process(s, lines[0], writes);
            Core(s1) && LiveOk(s1, lines[1..] + coming) && (Live(s1) ==> s1.provider.child.Some?)
  {
    assert lines + coming == [lines[0]] + (lines[1..] + coming);
    ProcessKeeps(s, lines[0], writes, lines[1..] + coming);
  }

  /** Taking the backlog out to read it again keeps the order, also behind a held input. */
  lemma EmptiedInOrder(b: Backlog, events: Events, waiting: bool, waits: bool)
    requires InOrder(b, events, waiting, [])
    ensures InOrder(b.(lines := []), events, waits, b.lines)
  {
    assert Held(b) + [] == Held(b.(lines := [])) + b.lines;
  }

  lemma ReplayAllKeeps(s: Session, writes: bool)
    requires Core(s) && LiveOk(Backlogged(s, []), s.turn.backlog.lines)
    ensures Inv(ReplayAll(s, writes), [])
  {
    if s.provider.child.None? {
      FailProviderKeeps(s);
    } else {
      BackloggedKeeps(s, []);
      assert s.turn.backlog.lines + [] == s.turn.backlog.lines;
      ReplayKeeps(Backlogged(s, []), s.turn.backlog.lines, writes, []);
      MaybeFinishKeeps(Replay(Backlogged(s, []), s.turn.backlog.lines, writes), []);
    }
  }

  lemma ArrivesCore(s: Session, line: Line)
    requires Core(s) && s.active
    ensures Core(Emit(s, Arrives(s.turn.number, line)))
  {
  }

  /** A line that arrives is the one still coming. */
  lemma ArrivesLive(s: Session, line: Line)
    requires LiveOk(s, []) && s.active
    ensures LiveOk(Emit(s, Arrives(s.turn.number, line)), [line])
  {
    OrderedAdds(Held(s.turn.backlog), [line]);
    assert Held(s.turn.backlog) + [] == Held(s.turn.backlog);
    assert OrderedAll([line]) == Ordered(line) by { assert [line][1..] == []; }
  }

  lemma ArrivesKeeps(s: Session, line: Line)
    requires Inv(s, []) && s.active
    ensures Core(Emit(s, Arrives(s.turn.number, line))) && LiveOk(Emit(s, Arrives(s.turn.number, line)), [line])
  {
    ArrivesCore(s, line);
    ArrivesLive(s, line);
  }

  lemma ReceiveKeeps(s: Session, line: Line, writes: bool)
    requires Inv(s, [])
    ensures Inv(Receive(s, line, writes), [])
  {
    if s.provider.child.Some? {
      var s1 := if s.active then Emit(s, Arrives(s.turn.number, line)) else s;
      if s.active { ArrivesKeeps(s, line); }
      assert [line] + [] == [line];
      ProcessKeeps(s1, line, writes, []);
    }
  }

  // ---- Steering ----

  lemma QueuedKeeps(s: Session, q: Queue)
    requires Core(s) && q.intents == s.turn.queue.intents && q.injected == s.turn.queue.injected
        && q.observing == s.turn.queue.observing
    requires q.operations <= s.turn.queue.operations
    requires q.ids == s.turn.queue.ids || (s.turn.queue.operations != {} && !q.observing) || s.turn.flags.started
    ensures Core(Queued(s, q))
  {
  }

  function WithIntent(q: Queue): Queue {
    q.(intents := q.intents + 1, operations := q.operations + {q.intents},
        waiters := q.waiters[ByOperation(q.intents) := q.intents])
  }

  lemma IntentHasKey(q: Queue, injected: set<nat>, j: nat)
    requires Filed(q, injected) && j <= q.intents
    ensures j in injected || HasKey(WithIntent(q), j)
  {
    var q' := WithIntent(q);
    assert q'.waiters[ByOperation(q.intents)] == q.intents;
    assert ByOperation(q.intents) !in q.waiters;
    if j < q.intents && j !in injected {
      assert HasKey(q, j);
      var key :| key in q.waiters && q.waiters[key] == j;
      assert q'.waiters[key] == j;
    }
  }

  lemma SteerFiles(q: Queue, injected: set<nat>)
    requires Filed(q, injected)
    ensures Filed(WithIntent(q), injected)
  {
    var q' := WithIntent(q);
    forall j | 0 <= j < q'.intents ensures j in injected || HasKey(q', j) { IntentHasKey(q, injected, j); }
    forall key | key in q'.waiters ensures KeyOk(q', key, injected) {
      if key in q.waiters { assert KeyOk(q, key, injected); }
    }
    forall x, y | x in q'.waiters && y in q'.waiters && q'.waiters[x] == q'.waiters[y] ensures x == y {
      if x in q.waiters { assert KeyOk(q, x, injected); }
      if y in q.waiters { assert KeyOk(q, y, injected); }
    }
  }

  lemma SteerKeeps(s: Session)
    requires Inv(s, []) && CanSteer(s)
    ensures Inv(Steer(s), [])
  {
    SteerCoreKeeps(s);
    if Live(s) { SteerFiles(s.turn.queue, s.seen.steers.injected); }
  }

  lemma SteerCoreKeeps(s: Session)
    requires Core(s) && CanSteer(s)
    ensures Core(Steer(s))
  {
  }

  /** The promise moves from its operation to its id. */
  lemma EnqueuedFiles(q: Queue, k: nat, id: SteerId, injected: set<nat>)
    requires Filed(q, injected) && k in q.operations && ById(id) !in q.waiters
    ensures Filed(q.(operations := q.operations - {k}, waiters := (q.waiters - {ByOperation(k)})[ById(id) := k],
        ids := q.ids + {id}),
                  injected)
  {
    var q' := q.(operations := q.operations - {k}, waiters := (q.waiters - {ByOperation(k)})[ById(id) := k],
        ids := q.ids + {id});
    assert KeyOk(q, ByOperation(k), injected);
    forall j | 0 <= j < q'.intents ensures j in injected || HasKey(q', j) {
      if j == k {
        assert q'.waiters[ById(id)] == k;
      } else if j !in injected {
        assert HasKey(q, j);
        var key :| key in q.waiters && q.waiters[key] == j;
        assert q'.waiters[key] == j;
      }
    }
    forall key | key in q'.waiters ensures KeyOk(q', key, injected) {
      if key in q.waiters { assert KeyOk(q, key, injected); }
    }
    forall x, y | x in q'.waiters && y in q'.waiters && q'.waiters[x] == q'.waiters[y] ensures x == y {
      assert x in q'.waiters && x != ById(id) ==> q.waiters[x] != q.waiters[ByOperation(k)];
      assert y in q'.waiters && y != ById(id) ==> q.waiters[y] != q.waiters[ByOperation(k)];
    }
  }

  lemma EnqueuedKeeps(s: Session, k: nat, id: Option<SteerId>)
    requires Inv(s, []) && k in s.turn.queue.operations && (id.Some? ==> ById(id.value) !in s.turn.queue.waiters)
    ensures Inv(Enqueued(s, k, id), [])
  {
    var q := s.turn.queue.(operations := s.turn.queue.operations - {k});
    QueuedKeeps(s, q);
    if id.None? || s.binding.failed || s.conversation.id.None? {
      FailSteeringKeeps(Queued(s, q));
    } else if Live(s) {
      var q' := q.(waiters := (q.waiters - {ByOperation(k)})[ById(id.value) := k], ids := q.ids + {id.value});
      QueuedKeeps(s, q');
      EnqueuedFiles(s.turn.queue, k, id.value, s.seen.steers.injected);
      MaybeFinishKeeps(Queued(s, q'), []);
    }
  }

  /** A confirmed steer leaves the file and joins the injected ones. */
  lemma InjectFiles(q: Queue, id: SteerId, injected: set<nat>)
    requires Filed(q, injected) && ById(id) in q.waiters
    ensures Filed(q.(waiters := q.waiters - {ById(id)}, ids := q.ids - {id}, injected := q.injected + 1,
                     observing := false),
                  injected + {q.waiters[ById(id)]})
  {
    var k := q.waiters[ById(id)];
    var q' := q.(waiters := q.waiters - {ById(id)}, ids := q.ids - {id}, injected := q.injected + 1,
                 observing := false);
    assert KeyOk(q, ById(id), injected);
    forall j | 0 <= j < q'.intents ensures j in injected + {k} || HasKey(q', j) {
      if j !in injected + {k} {
        assert HasKey(q, j);
        var key :| key in q.waiters && q.waiters[key] == j;
        assert q'.waiters[key] == j;
      }
    }
    forall key | key in q'.waiters ensures KeyOk(q', key, injected + {k}) {
      assert KeyOk(q, key, injected);
      assert q.waiters[key] == k ==> key == ById(id);
    }
    forall j | j in q'.operations ensures ByOperation(j) in q'.waiters { assert ByOperation(j) in q.waiters; }
  }

  lemma InjectCoreKeeps(s: Session, id: SteerId)
    requires Core(s) && Live(s) && ById(id) in s.turn.queue.waiters
    requires KeyOk(s.turn.queue, ById(id), s.seen.steers.injected)
    requires !s.turn.queue.observing
    ensures Core(Inject(s, id))
  {
    FlattenPushed(s.turn.reply.segments);
  }

  function Unfiled(q: Queue, id: SteerId): Queue {
    q.(waiters := q.waiters - {ById(id)}, ids := q.ids - {id}, injected := q.injected + 1, observing := false)
  }

  lemma InjectShape(s: Session, id: SteerId)
    requires ById(id) in s.turn.queue.waiters
    ensures var s2 := Backlogged(Inject(Observing(s, false), id), []);
            && s2.turn.queue == Unfiled(s.turn.queue, id)
            && s2.seen.steers.injected == s.seen.steers.injected + {s.turn.queue.waiters[ById(id)]}
            && s2.turn.backlog == s.turn.backlog.(lines := [])
            && s2.seen.events == s.seen.events && s2.seen.stage == s.seen.stage && s2.binding == s.binding
  {
  }

  lemma InjectStaysLive(s: Session, s2: Session, id: SteerId)
    requires LiveOk(s, []) && Live(s) && ById(id) in s.turn.queue.waiters
    requires s2.turn.queue == Unfiled(s.turn.queue, id) && s2.turn.backlog == s.turn.backlog.(lines := [])
    requires s2.seen.steers.injected == s.seen.steers.injected + {s.turn.queue.waiters[ById(id)]}
    requires s2.seen.events == s.seen.events && s2.seen.stage == s.seen.stage && s2.binding == s.binding
    ensures LiveOk(s2, s.turn.backlog.lines)
  {
    var q := s.turn.queue;
    InjectFiles(q, id, s.seen.steers.injected);
    assert Filed(s2.turn.queue, s2.seen.steers.injected);
    if !s.seen.stage.overtaken {
      EmptiedInOrder(s.turn.backlog, s.seen.events, s.binding.pending || q.observing, s.binding.pending);
    }
  }

  lemma InjectKeeps(s: Session, id: SteerId)
    requires Inv(s, []) && Live(s) && ById(id) in s.turn.queue.waiters
    ensures Core(Inject(Observing(s, false), id)) && Inject(Observing(s, false), id).turn.backlog == s.turn.backlog
  {
    ObservingKeeps(s, false);
    assert KeyOk(s.turn.queue, ById(id), s.seen.steers.injected);
    var s1 := Observing(s, false);
    assert KeyOk(s1.turn.queue, ById(id), s1.seen.steers.injected);
    InjectCoreKeeps(s1, id);
  }

  lemma ObservedKeeps(s: Session, id: Option<SteerId>, writes: bool)
    requires Inv(s, []) && s.turn.queue.observing
    ensures Inv(Observed(s, id, writes), [])
  {
    ObservingKeeps(s, false);
    if id.None? {
      FailSteeringKeeps(Observing(s, false));
    } else if !Live(s) {
    } else if ById(id.value) !in s.turn.queue.waiters {
      FailSteeringKeeps(Observing(s, false));
    } else {
      InjectKeeps(s, id.value);
      InjectShape(s, id.value);
      InjectStaysLive(s, Backlogged(Inject(Observing(s, false), id.value), []), id.value);
      ReplayAllKeeps(Inject(Observing(s, false), id.value), writes);
    }
  }

  lemma BoundKeeps(s: Session)
    requires Core(s)
    ensures Core(Bound(s))
  {
  }

  lemma BindingFailedKeeps(s: Session)
    requires Core(s)
    ensures Core(s.(binding := s.binding.(inFlight := false, failed := true)))
  {
  }

  lemma BindSettledKeeps(s: Session, ok: bool, writes: bool)
    requires Inv(s, [])
    ensures Inv(BindSettled(s, ok, writes), [])
  {
    if !s.binding.inFlight {
    } else if !ok {
      BindingFailedKeeps(s);
      FailProviderKeeps(s.(binding := s.binding.(inFlight := false, failed := true)));
    } else {
      BoundKeeps(s);
      if s.active && s.binding.turn == s.turn.number {
        if Live(s) && !s.seen.stage.overtaken {
          EmptiedInOrder(s.turn.backlog, s.seen.events, s.binding.pending || s.turn.queue.observing,
                         s.turn.queue.observing);
        }
        ReplayAllKeeps(Bound(s), writes);
      }
    }
  }

  // ---- A held user input ----

  lemma ResumedInOrder(b: Backlog, events: Events, waiting: bool)
    requires InOrder(b, events, waiting, []) && b.input.Some?
    ensures events.handled + [b.input.value] <= events.arrived
    ensures InOrder(b.(input := None), events.(handled := events.handled + Ordered(b.input.value)), true, [])
  {
    var line := b.input.value;
    assert Held(b) + [] == [line] + (b.lines + []);
    assert Held(b.(input := None)) + [] == b.lines + [];
    OrderedAdds([line], b.lines + []);
    assert OrderedAll([line]) == [line] by { assert [line][1..] == []; }
  }

  lemma ResumedCoreKeeps(s: Session)
    requires Core(s) && s.active && s.turn.backlog.input.Some?
    requires Live(s) && !s.seen.stage.overtaken ==>
               s.seen.events.handled + Ordered(s.turn.backlog.input.value) <= s.seen.events.arrived
    ensures Core(Emit(Observing(Hold(s, None), true), Handles(s.turn.number, s.turn.backlog.input.value)))
  {
    HandlesCoreKeeps(s, s.turn.backlog.input.value);
    var s1 := Emit(s, Handles(s.turn.number, s.turn.backlog.input.value));
    ObservingKeeps(s1, true);
    HoldKeeps(Observing(s1, true), None);
  }

  lemma HandlesCoreKeeps(s: Session, line: Line)
    requires Core(s) && s.active
    requires Live(s) && !s.seen.stage.overtaken ==> s.seen.events.handled + Ordered(line) <= s.seen.events.arrived
    ensures Core(Emit(s, Handles(s.turn.number, line)))
  {
  }

  lemma InputResumesKeeps(s: Session)
    requires Inv(s, [])
    ensures Inv(InputResumes(s), [])
  {
    if s.turn.backlog.input.Some? {
      HoldKeeps(s, None);
      if Live(s) { InputHandledKeeps(s, s.turn.backlog.input.value); }
    }
  }

  lemma InputHandledKeeps(s: Session, line: Line)
    requires Inv(s, []) && Live(s) && s.turn.backlog.input == Some(line) && Core(Hold(s, None))
    ensures Inv(HandleUserInput(Hold(s, None), line, true), [])
  {
    var h := Hold(s, None);
    if s.turn.queue.operations != {} {
      ChargeKeeps(h, line);
      if Charge(h, line).turn.backlog.used > s.config.maxDeferredBytes {
        FailProviderKeeps(Charge(h, line));
      } else {
        HoldKeeps(Charge(h, line), Some(line));
        ChargeStaysLive(s, line, []);
        assert Hold(Charge(h, line), Some(line)) == Charge(s, line);
      }
    } else if s.turn.queue.observing || s.turn.queue.ids == {} || !s.config.enabled {
      FailSteeringKeeps(h);
    } else {
      ResumedKeeps(s, line);
    }
  }

  lemma ResumedKeeps(s: Session, line: Line)
    requires Inv(s, []) && Live(s) && s.turn.backlog.input == Some(line)
    ensures Inv(Emit(Observing(Hold(s, None), true), Handles(s.turn.number, line)), [])
  {
    if !s.seen.stage.overtaken {
      ResumedInOrder(s.turn.backlog, s.seen.events, s.binding.pending || s.turn.queue.observing);
    }
    ResumedCoreKeeps(s);
    QueueStaysFiled(s.turn.queue, Observing(s, true).turn.queue, s.seen.steers.injected);
  }

  lemma WatchFailsKeeps(s: Session)
    requires Inv(s, [])
    ensures Inv(WatchFails(s), [])
  {
    if Live(s) && s.turn.queue.ids != {} { FailSteeringKeeps(s); }
  }
}
