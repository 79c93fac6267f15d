/**
 What the monitor's rules mean for the sequence of effects itself: if the monitor is still
 fair after watching a sequence, the sequence has the promised properties, stated without
 the monitor.
 */
module AgySessionEffects {

  import opened Options
  import opened AgySessionMonitor

  lemma Watched(es: seq<Effect>, m: nat, limit: nat)
    requires m < |es|
    ensures Watch(es[..m + 1], limit) == Judged(Watch(es[..m], limit), es[m], limit)
  {
    assert es[..m + 1][..m] == es[..m];
  }

  /** Fairness is never regained, so every effect was fair when it happened. */
  lemma {:induction false} FairAt(es: seq<Effect>, m: nat, limit: nat)
    requires Watch(es, limit).fair && m < |es|
    ensures Watch(es[..m], limit).fair && Fair(Watch(es[..m], limit), es[m], limit)
    decreases |es|
  {
    var n := |es|;
    if m == n - 1 {
      assert es[..m] == es[..n - 1];
    } else {
      FairAt(es[..n - 1], m, limit);
      assert es[..n - 1][..m] == es[..m];
    }
  }

  // ---- Children ----

  lemma {:induction false} StillLive(es: seq<Effect>, i: nat, m: nat, limit: nat)
    requires Watch(es, limit).fair && i < m <= |es| && es[i].Spawns?
    requires forall k | i < k < m :: es[k] != Closes(es[i].child)
    ensures Watch(es[..m], limit).children.live == Some(es[i].child)
    decreases m
  {
    Watched(es, m - 1, limit);
    FairAt(es, m - 1, limit);
    if m > i + 1 { StillLive(es, i, m - 1, limit); }
  }

  /** A child is spawned only after every child before it has closed. */
  lemma SpawnsAfterCloses(es: seq<Effect>, i: nat, j: nat, limit: nat)
    requires Watch(es, limit).fair && i < j < |es| && es[i].Spawns? && es[j].Spawns?
    ensures exists k | i < k < j :: es[k] == Closes(es[i].child)
  {
    if forall k | i < k < j :: es[k] != Closes(es[i].child) {
      StillLive(es, i, j, limit);
      FairAt(es, j, limit);
      assert false;
    }
  }

  lemma {:induction false} NumberedChildren(es: seq<Effect>, m: nat, limit: nat)
    requires Watch(es, limit).fair && m <= |es|
    ensures var c := Watch(es[..m], limit).children; c.live.Some? ==> c.live.value + 1 == c.count
    decreases m
  {
    if m > 0 {
      Watched(es, m - 1, limit);
      FairAt(es, m - 1, limit);
      NumberedChildren(es, m - 1, limit);
    } else {
      assert es[..0] == [];
    }
  }

  /** Child `c` resumes, is the latest, and has not named its conversation; or there is a later child. */
  predicate Unnamed(m: Monitor, c: Child) {
    (m.children.count == c + 1 && m.children.resumes.Some? && !m.children.initialised) || m.children.count > c + 1
  }

  lemma UnnamedStep(m: Monitor, e: Effect, c: Child, limit: nat)
    requires Unnamed(m, c) && Fair(m, e, limit) && !(e.Inits? && e.child == c)
    requires m.children.live.Some? ==> m.children.live.value + 1 == m.children.count
    ensures Unnamed(Judged(m, e, limit), c)
  {
  }

  /** As long as a resuming child has not named its conversation, the monitor knows. */
  lemma {:induction false} StillUnnamed(es: seq<Effect>, i: nat, m: nat, limit: nat)
    requires Watch(es, limit).fair && i < m <= |es| && es[i].Spawns? && es[i].resumes.Some?
    requires forall k | i < k < m :: !(es[k].Inits? && es[k].child == es[i].child)
    ensures Unnamed(Watch(es[..m], limit), es[i].child)
    decreases m
  {
    Watched(es, m - 1, limit);
    FairAt(es, m - 1, limit);
    if m > i + 1 {
      NumberedChildren(es, m - 1, limit);
      StillUnnamed(es, i, m - 1, limit);
      UnnamedStep(Watch(es[..m - 1], limit), es[m - 1], es[i].child, limit);
    }
  }

  function NamedBy(e: Effect): Option<Conv> {
    match e
    case Spawns(_, resumes) => resumes
    case Inits(_, id) => Some(id)
    case Trusts(id) => Some(id)
    case _ => None
  }

  lemma NamedStep(m: Monitor, e: Effect, limit: nat)
    requires Fair(m, e, limit)
    ensures NamedBy(e).Some? ==> Judged(m, e, limit).named == NamedBy(e)
    ensures m.named.Some? ==> Judged(m, e, limit).named == m.named
  {
  }

  lemma {:induction false} StillNamed(es: seq<Effect>, i: nat, m: nat, limit: nat)
    requires Watch(es, limit).fair && i < m <= |es| && NamedBy(es[i]).Some?
    ensures Watch(es[..m], limit).named == NamedBy(es[i])
    decreases m
  {
    Watched(es, m - 1, limit);
    FairAt(es, m - 1, limit);
    NamedStep(Watch(es[..m - 1], limit), es[m - 1], limit);
    if m > i + 1 { StillNamed(es, i, m - 1, limit); }
  }

  /** A session never changes its conversation, whether it is named by an init, by a caller, or to a resuming child. */
  lemma OneConversation(es: seq<Effect>, i: nat, j: nat, limit: nat)
    requires Watch(es, limit).fair && i < j < |es| && NamedBy(es[i]).Some? && NamedBy(es[j]).Some?
    ensures NamedBy(es[j]) == NamedBy(es[i])
  {
    StillNamed(es, i, j, limit);
    FairAt(es, j, limit);
  }

  /** A child that resumes a conversation is written to only after an init that names this very conversation. */
  lemma ResumedWritesAfterInit(es: seq<Effect>, i: nat, j: nat, limit: nat)
    requires Watch(es, limit).fair && i < j < |es|
    requires es[i].Spawns? && es[i].resumes.Some? && es[j].Writes? && es[j].child == es[i].child
    ensures exists k | i < k < j :: es[k] == Inits(es[i].child, es[i].resumes.value)
  {
    FairAt(es, j, limit);
    NumberedChildren(es, j, limit);
    if forall k | i < k < j :: !(es[k].Inits? && es[k].child == es[i].child) {
      StillUnnamed(es, i, j, limit);
      assert false;
    } else {
      var k :| i < k < j && es[k].Inits? && es[k].child == es[i].child;
      OneConversation(es, i, k, limit);
      assert es[k] == Inits(es[i].child, es[i].resumes.value);
    }
  }

  // ---- Turns ----

  lemma {:induction false} StillWritten(es: seq<Effect>, i: nat, m: nat, limit: nat)
    requires Watch(es, limit).fair && i < m <= |es| && es[i].Writes?
    ensures var s := Watch(es[..m], limit).stage; s.number >= es[i].turn && (s.number == es[i].turn ==> s.written)
    decreases m
  {
    Watched(es, m - 1, limit);
    FairAt(es, m - 1, limit);
    if m > i + 1 { StillWritten(es, i, m - 1, limit); }
  }

  /** A prompt is written at most once, over all children. */
  lemma WrittenAtMostOnce(es: seq<Effect>, i: nat, j: nat, limit: nat)
    requires Watch(es, limit).fair && i < j < |es| && es[i].Writes? && es[j].Writes?
    ensures es[i].turn != es[j].turn
  {
    StillWritten(es, i, j, limit);
    FairAt(es, j, limit);
  }

  lemma {:induction false} StillAccepted(es: seq<Effect>, i: nat, m: nat, limit: nat)
    requires Watch(es, limit).fair && i < m <= |es| && es[i].Accepts?
    ensures var w := Watch(es[..m], limit);
            w.stage.number >= es[i].turn && (w.stage.number == es[i].turn ==> es[i].steer < w.steers.accepted)
    decreases m
  {
    Watched(es, m - 1, limit);
    FairAt(es, m - 1, limit);
    if m > i + 1 { StillAccepted(es, i, m - 1, limit); }
  }

  lemma {:induction false} InjectedSomewhere(es: seq<Effect>, m: nat, k: nat, limit: nat)
    requires Watch(es, limit).fair && m <= |es| && k in Watch(es[..m], limit).steers.injected
    ensures exists p | 0 <= p < m :: es[p] == Injects(Watch(es[..m], limit).stage.number, k)
    decreases m
  {
    if m > 0 {
      Watched(es, m - 1, limit);
      FairAt(es, m - 1, limit);
      if k in Watch(es[..m - 1], limit).steers.injected && !es[m - 1].Begins? {
        InjectedSomewhere(es, m - 1, k, limit);
      }
    }
  }

  /** A prompt resolves only if every steer accepted in its turn was injected. */
  lemma ResolvesOnlyInjected(es: seq<Effect>, i: nat, j: nat, limit: nat)
    requires Watch(es, limit).fair && i < j < |es| && es[i].Accepts? && es[j].Resolves? && es[i].turn == es[j].turn
    ensures exists p | 0 <= p < j :: es[p] == Injects(es[i].turn, es[i].steer)
  {
    StillAccepted(es, i, j, limit);
    FairAt(es, j, limit);
    InjectedSomewhere(es, j, es[i].steer, limit);
  }

  // ---- Answers ----

  /** The text said since the last injection of a steer, or since the turn began. */
  function SaidSince(es: seq<Effect>): Text {
    if es == [] then []
    else
      var front := SaidSince(es[..|es| - 1]);
      match es[|es| - 1]
      case Begins(_) => []
      case Injects(_, _) => []
      case Says(_, text) => front + text
      case _ => front
  }

  lemma {:induction false} SinceIsSaid(es: seq<Effect>, limit: nat)
    ensures Watch(es, limit).talk.since == SaidSince(es)
    decreases |es|
  {
    if es != [] { SinceIsSaid(es[..|es| - 1], limit); }
  }

  lemma {:induction false} StillInjected(es: seq<Effect>, i: nat, m: nat, limit: nat)
    requires Watch(es, limit).fair && i < m <= |es| && es[i].Injects?
    ensures var w := Watch(es[..m], limit);
            w.stage.number >= es[i].turn && (w.stage.number == es[i].turn ==> w.steers.injections > 0)
    decreases m
  {
    Watched(es, m - 1, limit);
    FairAt(es, m - 1, limit);
    if m > i + 1 { StillInjected(es, i, m - 1, limit); }
  }

  /** After an injection a prompt resolves with exactly the text said since the last one, and with some text. */
  lemma AnswersWithLastSegment(es: seq<Effect>, i: nat, j: nat, limit: nat)
    requires Watch(es, limit).fair && i < j < |es| && es[i].Injects? && es[j].Resolves? && es[i].turn == es[j].turn
    ensures es[j].answer == SaidSince(es[..j]) && es[j].answer != []
  {
    StillInjected(es, i, j, limit);
    FairAt(es, j, limit);
    SinceIsSaid(es[..j], limit);
  }
}
