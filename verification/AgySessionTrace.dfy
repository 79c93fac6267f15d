/**
 The effects a session has outside itself, over whole runs: every session tells its monitor
 everything, so what a fair sequence of effects means holds of the effects of every run.
 */
module AgySessionTrace {

  import opened AgySession
  import opened AgySessionEffects
  import opened AgySessionMonitor
  import opened AgySessionSafety

  /** All effects of a run, in order. */
  function Effects(config: Config, unbound: bool, moves: seq<Move>): seq<Effect>
    requires Path(Fresh(config, unbound), moves)
  {
    EffectsOf(End(Fresh(config, unbound), moves).seen.trace)
  }

  /** The monitor of a run is what watching its effects gives, and it is fair. */
  lemma RunIsWatched(config: Config, unbound: bool, moves: seq<Move>) returns (limit: nat)
    requires Path(Fresh(config, unbound), moves)
    ensures Watch(Effects(config, unbound, moves), limit) == End(Fresh(config, unbound), moves).seen
    ensures Watch(Effects(config, unbound, moves), limit).fair
  {
    var s := End(Fresh(config, unbound), moves);
    limit := s.config.maxResponse;
    FreshIsFine(config, unbound);
    PathKeeps(Fresh(config, unbound), moves);
    RecordedIsWatched(s.seen, limit);
  }

  /** Between two spawns the first child closed. */
  lemma RunSpawnsAfterCloses(config: Config, unbound: bool, moves: seq<Move>, i: nat, j: nat)
    requires Path(Fresh(config, unbound), moves)
    requires var es := Effects(config, unbound, moves); i < j < |es| && es[i].Spawns? && es[j].Spawns?
    ensures var es := Effects(config, unbound, moves); exists k | i < k < j :: es[k] == Closes(es[i].child)
  {
    var limit := RunIsWatched(config, unbound, moves);
    SpawnsAfterCloses(Effects(config, unbound, moves), i, j, limit);
  }

  /** A child that resumes a conversation is written to only after an init that names this very conversation. */
  lemma RunWritesAfterInit(config: Config, unbound: bool, moves: seq<Move>, i: nat, j: nat)
    requires Path(Fresh(config, unbound), moves)
    requires var es := Effects(config, unbound, moves);
             i < j < |es| && es[i].Spawns? && es[i].resumes.Some? && es[j].Writes? && es[j].child == es[i].child
    ensures var es := Effects(config, unbound, moves);
            exists k | i < k < j :: es[k] == Inits(es[i].child, es[i].resumes.value)
  {
    var limit := RunIsWatched(config, unbound, moves);
    ResumedWritesAfterInit(Effects(config, unbound, moves), i, j, limit);
  }

  /** The conversation of a session never changes, however it was named. */
  lemma RunKeepsOneConversation(config: Config, unbound: bool, moves: seq<Move>, i: nat, j: nat)
    requires Path(Fresh(config, unbound), moves)
    requires var es := Effects(config, unbound, moves); i < j < |es| && NamedBy(es[i]).Some? && NamedBy(es[j]).Some?
    ensures var es := Effects(config, unbound, moves); NamedBy(es[j]) == NamedBy(es[i])
  {
    var limit := RunIsWatched(config, unbound, moves);
    OneConversation(Effects(config, unbound, moves), i, j, limit);
  }

  /** A prompt is written at most once, over all children. */
  lemma RunWritesAtMostOnce(config: Config, unbound: bool, moves: seq<Move>, i: nat, j: nat)
    requires Path(Fresh(config, unbound), moves)
    requires var es := Effects(config, unbound, moves); i < j < |es| && es[i].Writes? && es[j].Writes?
    ensures var es := Effects(config, unbound, moves); es[i].turn != es[j].turn
  {
    var limit := RunIsWatched(config, unbound, moves);
    WrittenAtMostOnce(Effects(config, unbound, moves), i, j, limit);
  }

  /** A prompt resolves only if every steer accepted in its turn was injected. */
  lemma RunResolvesOnlyInjected(config: Config, unbound: bool, moves: seq<Move>, i: nat, j: nat)
    requires Path(Fresh(config, unbound), moves)
    requires var es := Effects(config, unbound, moves);
             i < j < |es| && es[i].Accepts? && es[j].Resolves? && es[i].turn == es[j].turn
    ensures var es := Effects(config, unbound, moves);
            exists p | 0 <= p < j :: es[p] == Injects(es[i].turn, es[i].steer)
  {
    var limit := RunIsWatched(config, unbound, moves);
    ResolvesOnlyInjected(Effects(config, unbound, moves), i, j, limit);
  }

  /** After an injection a prompt resolves with exactly the text said since the last one. */
  lemma RunAnswersWithLastSegment(config: Config, unbound: bool, moves: seq<Move>, i: nat, j: nat)
    requires Path(Fresh(config, unbound), moves)
    requires var es := Effects(config, unbound, moves);
             i < j < |es| && es[i].Injects? && es[j].Resolves? && es[i].turn == es[j].turn
    ensures var es := Effects(config, unbound, moves); es[j].answer == SaidSince(es[..j]) && es[j].answer != []
  {
    var limit := RunIsWatched(config, unbound, moves);
    AnswersWithLastSegment(Effects(config, unbound, moves), i, j, limit);
  }
}
