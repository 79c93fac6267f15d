/**
 Events that are put off keep their order, with one exception: a user input that has to
 wait for an enqueue operation is remembered apart from the other events, and is handled
 before those that were put off earlier. When that happens exactly, and that it can.
 */
module AgySessionOrder {

  import opened Options
  import opened AgySession
  import opened AgySessionMonitor
  import opened AgySessionInvariant
  import opened AgySessionReading
  import opened AgySessionSafety

  /** A user input has arrived in a live turn, in order so far, and must wait for an enqueue operation. */
  predicate MustWait(s: Session, line: Line) {
    && Live(s) && line.event.UserInput? && s.turn.backlog.input.None? && s.turn.queue.operations != {}
    && !s.binding.pending && NoInputs(s.turn.backlog)
    && s.turn.backlog.used + line.size <= s.config.maxDeferredBytes
  }

  lemma OnlyOthers(b: Backlog, line: Line)
    requires NoInputs(b) && line.event.UserInput?
    ensures line !in OrderedAll(b.lines)
    decreases |b.lines|
  {
    if b.lines != [] {
      var rest := b.(lines := b.lines[1..]);
      assert forall i | 0 <= i < |rest.lines| :: rest.lines[i] == b.lines[i + 1];
      OnlyOthers(rest, line);
    }
  }

  /** Holding the input back keeps the order exactly when nothing but inits was put off before it. */
  lemma HoldingKeepsOrderIff(s: Session, line: Line, waiting: bool)
    requires MustWait(s, line) && InOrder(s.turn.backlog, s.seen.events, waiting, [line])
    ensures var s' := HandleUserInput(s, line, false);
            InOrder(s'.turn.backlog, s'.seen.events, waiting, []) <==> OrderedAll(s.turn.backlog.lines) == []
  {
    var s' := HandleUserInput(s, line, false);
    var b, b' := s.turn.backlog, s'.turn.backlog;
    assert s' == Hold(Overtake(Charge(s, line)), Some(line));
    OverOrUnder(s, line);
    assert Held(b) == b.lines;
    assert Held(b') + [] == [line] + b.lines;
    OrderedAdds(b.lines, [line]);
    OrderedAdds([line], b.lines);
    assert OrderedAll([line]) == [line] by { assert [line][1..] == []; }
    var put := OrderedAll(b.lines);
    if put != [] {
      OnlyOthers(b, line);
      assert put[0] != line;
      assert (s.seen.events.handled + (put + [line]))[|s.seen.events.handled|] == put[0];
      assert (s.seen.events.handled + ([line] + put))[|s.seen.events.handled|] == line;
    }
  }

  lemma OverOrUnder(s: Session, line: Line)
    ensures var s' := Hold(Overtake(Charge(s, line)), Some(line));
            s'.turn.backlog.lines == s.turn.backlog.lines && s'.turn.backlog.input == Some(line)
                && s'.seen.events == s.seen.events
  {
  }

  // ---- A run in which an input goes ahead ----

  const INIT := Line(Init(Some(7)), 1)
  const ROOMY := Config(true, true, 1000, 1000, 10)
  const U0 := Line(UserInput(Some(7), Some(0)), 1)
  const U1 := Line(UserInput(Some(7), Some(1)), 1)
  const TEXT := Line(Delta(Some(7), Some(2), [120]), 1)
  const U2 := Line(UserInput(Some(7), Some(3)), 1)

  // What is told to the monitor along the way.

  const T1 := Told(Told(Told(Silence, Begins(1)), Spawns(0, None)), Writes(1, 0))
  const T2 := Told(Told(Told(T1, Arrives(1, INIT)), Handles(1, INIT)), Inits(0, 7))
  const T3 := Told(Told(T2, Arrives(1, U0)), Handles(1, U0))
  const T4 := Told(T3, Accepts(1, 0))
  const T6 := Told(Told(T4, Arrives(1, U1)), Handles(1, U1))
  const T7 := Told(T6, Arrives(1, TEXT))
  const T8 := Told(T7, Accepts(1, 1))
  const T9 := Told(Told(T8, Arrives(1, U2)), Overtakes(1))
  const T10 := Told(T9, Injects(1, 0))
  const T12 := Told(T10, Handles(1, U2))
  const T13 := Told(T12, Injects(1, 1))
  const T14 := Told(Told(T13, Handles(1, TEXT)), Says(1, [120]))

  /** The first turn of a session, running in conversation 7, as far as this run needs it. */
  function Running(trace: Trace, watermark: nat, initialSeen: bool, reply: Reply, queue: Queue, backlog: Backlog,
                   overtaken: bool,
                   steers: Steers, talk: Talk, events: Events): Session {
    Session(ROOMY, Provider(Some(0), 1, false, false, true, false, false),
            Conversation(Some(7), false, false, false, false, true, watermark), Binding(false, false, false, 0, false),
            Waits(NotFailing, None, None, None),
            Turn(1, Flags(false, false, true, true, true, initialSeen, false), reply, queue, backlog,
                 None), true, false, false,
            Monitor(trace, true, Children(Some(0), 1, None, true), Some(7), Stage(1, true, true, false, overtaken),
                    steers,
                talk, events))
  }

  const NO_REPLY := Reply([], [[]], 0)
  const NO_QUEUE := Queue(0, 0, {}, {}, map[], false)
  const NO_BACKLOG := Backlog(None, [], 0)

  /** After the prompt was written. */
  const STARTED := Session(ROOMY, Provider(Some(0), 1, false, false, true, false, false),
                           Conversation(None, false, false, false, false, true, 0), Binding(false, false, false, 0,
                                                                      false),
                           Waits(NotFailing, None, None, None),
                           Turn(1, Flags(false, false, true, false, true, false, false), NO_REPLY, NO_QUEUE,
                                NO_BACKLOG, None),
                           true, false, false,
                           Monitor(T1, true, Children(Some(0), 1, None, false), None,
                                   Stage(1, true, true, false, false), NO_STEERS,
                                   NO_TALK, NO_EVENTS))

  lemma Step1() ensures Prompt(Fresh(ROOMY, false), false, true, true) == STARTED
  {
    var s := Begin(Fresh(ROOMY, false));
    var s1 := EnsureStarted(Unconfirm(s, false), false);
    assert s1.provider == STARTED.provider && s1.active && !s1.turn.flags.started;
    assert SendPrompt(s1, true) == Write(s1, 0);
  }

  const S2 := Running(T2, 0, false, NO_REPLY, NO_QUEUE, NO_BACKLOG, false, NO_STEERS, NO_TALK, NO_EVENTS)

  lemma Step2() ensures Receive(STARTED, INIT, true) == S2
  {
  }

  const S3 := Running(T3, 0, true, NO_REPLY, NO_QUEUE, NO_BACKLOG, false, NO_STEERS, NO_TALK, Events([U0], [U0]))

  lemma Step3() ensures Receive(S2, U0, true) == S3
  {
  }

  const S4 := Running(T4, 0, true, NO_REPLY, Queue(1, 0, {0}, {}, map[ByOperation(0) := 0], false), NO_BACKLOG, false,
      Steers(1, 0, {}),
                      NO_TALK, Events([U0], [U0]))

  lemma Step4() ensures CanSteer(S3) && Steer(S3) == S4
  {
  }

  const S5 := Running(T4, 0, true, NO_REPLY, Queue(1, 0, {}, {100}, map[ById(100) := 0], false), NO_BACKLOG, false,
      Steers(1, 0, {}),
                      NO_TALK, Events([U0], [U0]))

  lemma Step5() ensures Enqueued(S4, 0, Some(100)) == S5
  {
    assert (map[ByOperation(0) := 0] - {ByOperation(0)})[ById(100) := 0] == map[ById(100) := 0];
  }

  const S6 := Running(T6, 1, true, NO_REPLY, Queue(1, 0, {}, {100}, map[ById(100) := 0], true), NO_BACKLOG, false,
                      Steers(1, 0, {}),
                      NO_TALK, Events([U0, U1], [U0, U1]))

  lemma Step6() ensures Receive(S5, U1, true) == S6
  {
  }

  const S7 := Running(T7, 2, true, NO_REPLY, Queue(1, 0, {}, {100}, map[ById(100) := 0], true),
                      Backlog(None, [TEXT], 1), false,
                      Steers(1, 0, {}), NO_TALK, Events([U0, U1, TEXT], [U0, U1]))

  lemma Step7() ensures Receive(S6, TEXT, true) == S7
  {
  }

  const S8 := Running(T8, 2, true, NO_REPLY, Queue(2, 0, {1}, {100}, map[ById(100) := 0, ByOperation(1) := 1], true),
                      Backlog(None, [TEXT], 1), false, Steers(2, 0, {}), NO_TALK, Events([U0, U1, TEXT], [U0, U1]))

  lemma Step8() ensures CanSteer(S7) && Steer(S7) == S8
  {
    assert map[ById(100) := 0][ByOperation(1) := 1] == map[ById(100) := 0, ByOperation(1) := 1];
  }

  const S9 := Running(T9, 3, true, NO_REPLY, Queue(2, 0, {1}, {100}, map[ById(100) := 0, ByOperation(1) := 1], true),
                      Backlog(Some(U2), [TEXT], 2), true, Steers(2, 0, {}), NO_TALK, Events([U0, U1, TEXT, U2],
                                                                      [U0, U1]))

  lemma Step9() ensures Receive(S8, U2, true) == S9
  {
    assert OrderedAll([TEXT]) == [TEXT] by { assert [TEXT][1..] == []; }
  }

  const INJECTED := Running(T10, 3, true, Reply([], [[], []], 0), Queue(2, 1, {1}, {}, map[ByOperation(1) := 1], false),
                            Backlog(Some(U2), [TEXT], 2), true, Steers(2, 1, {0}), NO_TALK,
                                Events([U0, U1, TEXT, U2], [U0, U1]))

  const S10 := Running(T10, 3, true, Reply([], [[], []], 0), Queue(2, 1, {1}, {}, map[ByOperation(1) := 1], false),
                       Backlog(Some(U2), [TEXT], 3), true, Steers(2, 1, {0}), NO_TALK, Events([U0, U1, TEXT, U2],
                                                                      [U0, U1]))

  lemma Step10() ensures Observed(S9, Some(100), true) == S10
  {
    assert map[ById(100) := 0, ByOperation(1) := 1] - {ById(100)} == map[ByOperation(1) := 1];
    assert Inject(Observing(S9, false), 100) == INJECTED;
    Step10Replay();
  }

  lemma Step10Replay() ensures ReplayAll(INJECTED, true) == S10
  {
    assert [TEXT][1..] == [];
    assert Process(Backlogged(INJECTED, []), TEXT, true) == S10;
    assert Replay(Backlogged(INJECTED, []), [TEXT], true) == Replay(S10, [], true);
  }

  const S11 := Running(T10, 3, true, Reply([], [[], []], 0), Queue(2, 1, {}, {101}, map[ById(101) := 1], false),
                       Backlog(Some(U2), [TEXT], 3), true, Steers(2, 1, {0}), NO_TALK, Events([U0, U1, TEXT, U2],
                                                                      [U0, U1]))

  lemma Step11() ensures Enqueued(S10, 1, Some(101)) == S11
  {
    assert (map[ByOperation(1) := 1] - {ByOperation(1)})[ById(101) := 1] == map[ById(101) := 1];
  }

  const S12 := Running(T12, 3, true, Reply([], [[], []], 0), Queue(2, 1, {}, {101}, map[ById(101) := 1], true),
                       Backlog(None, [TEXT], 3), true, Steers(2, 1, {0}), NO_TALK, Events([U0, U1, TEXT, U2],
                                                                      [U0, U1, U2]))

  lemma Step12() ensures InputResumes(S11) == S12
  {
  }

  const RELEASED := Running(T13, 3, true, Reply([], [[], [], []], 0), Queue(2, 2, {}, {}, map[], false),
      Backlog(None, [TEXT], 3), true,
                            Steers(2, 2, {0, 1}), NO_TALK, Events([U0, U1, TEXT, U2], [U0, U1, U2]))

  const S13 := Running(T14, 3, true, Reply([120], [[], [], [120]], 1), Queue(2, 2, {}, {}, map[], false),
                       Backlog(None, [], 3), true,
                       Steers(2, 2, {0, 1}), Talk([120], [120]), Events([U0, U1, TEXT, U2], [U0, U1, U2, TEXT]))

  lemma Step13() ensures Observed(S12, Some(101), true) == S13
  {
    assert map[ById(101) := 1] - {ById(101)} == map[];
    assert Inject(Observing(S12, false), 101) == RELEASED;
    Step13Replay();
  }

  lemma Step13Replay() ensures ReplayAll(RELEASED, true) == S13
  {
    assert [TEXT][1..] == [];
    Step13Text();
    assert Replay(Backlogged(RELEASED, []), [TEXT], true) == Replay(S13, [], true);
  }

  lemma Step13Text() ensures Process(Backlogged(RELEASED, []), TEXT, true) == S13
  {
    assert [120][1..] == [];
    assert ByteLength([120]) == 1;
    var before: seq<Text> := [[], [], []];
    var after: seq<Text> := [[], [], [120]];
    assert before[2] + [120] == [120];
    assert before[2 := before[2] + [120]] == after;
  }

  /** The text arrived before the second user input and was counted to the segment after it. */
  lemma AnInputCanGoAhead()
    ensures exists s :: Reachable(ROOMY, false, s) && Live(s)
              && s.seen.events.arrived == [U0, U1, TEXT, U2] && s.seen.events.handled == [U0, U1, U2, TEXT]
              && s.turn.reply.segments == [[], [], [120]]
  {
    var s0 := Fresh(ROOMY, false);
    assert Reachable(ROOMY, false, s0) by { assert Path(s0, []) && End(s0, []) == s0; }
    Step1(); ReachesNext(ROOMY, false, s0, Prompts(false, true, true));
    Step2(); ReachesNext(ROOMY, false, STARTED, Reads(INIT, true));
    Step3(); ReachesNext(ROOMY, false, S2, Reads(U0, true));
    Step4(); ReachesNext(ROOMY, false, S3, Steered);
    Step5(); ReachesNext(ROOMY, false, S4, EnqueueSettles(0, Some(100)));
    Step6(); ReachesNext(ROOMY, false, S5, Reads(U1, true));
    Step7(); ReachesNext(ROOMY, false, S6, Reads(TEXT, true));
    FromSeven();
  }

  lemma FromSeven()
    requires Reachable(ROOMY, false, S7)
    ensures Reachable(ROOMY, false, S13)
  {
    Step8(); ReachesNext(ROOMY, false, S7, Steered);
    Step9(); ReachesNext(ROOMY, false, S8, Reads(U2, true));
    Step10(); ReachesNext(ROOMY, false, S9, ObservationSettles(Some(100), true));
    Step11(); ReachesNext(ROOMY, false, S10, EnqueueSettles(1, Some(101)));
    Step12(); ReachesNext(ROOMY, false, S11, InputReturns);
    Step13(); ReachesNext(ROOMY, false, S12, ObservationSettles(Some(101), true));
  }
}
