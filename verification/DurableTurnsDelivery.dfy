/**
 The protocol is not safe by standing still: an open, unlocked channel lets a new adapter
 run a turn to the end, and the answer it publishes opens the record again.
 */
module DurableTurnsDelivery {

  import opened Options
  import opened AcpServer
  import opened DurableTurns
  import opened DurableTurnsInvariant
  import opened DurableTurnsSafety
  import opened DurableTurnsScenes
  import R = SessionRecord

  /** A new adapter with one session, whose first turn holds the lock and finds the record open. */
  lemma NewcomerReads(s: Sys, b: Aid) returns (es: seq<Event>, t: Sys)
    requires s.w.lock.None? && !s.w.rec.Blocked? && b !in s.ads
    ensures Reached(s, es, t, b, Scene(map[], 0, Attached(FRESH_ENTRY, R.IdOf(s.w.rec)), FirstTurn(Inspecting, false),
                                       Some(0), false))
    ensures t.w == s.w.(lock := Some(b))
  {
    es, t := AdapterStarts(s, b);
    es, t := SessionOpens(s, es, t, b, EMPTY_MEMORY, 0);
    assert NewSession(EMPTY_MEMORY, 0) == Rest(map[][0 := FRESH_ENTRY], None);
    es, t := AwaitPrompt(s, es, t, b, map[], 0, FRESH_ENTRY, None);
    es, t := AwaitScope(s, es, t, b, map[], 0, FRESH_ENTRY, FirstTurn(Scoping, false), None);
    es, t := AwaitLock(s, es, t, b, map[], 0, FRESH_ENTRY, FirstTurn(Loading, false));
    es, t := AwaitLoad(s, es, t, b, map[], 0, FRESH_ENTRY, FirstTurn(Loading, false));
  }

  /** The record is blocked for the turn. */
  lemma Blocks(s: Sys, es: seq<Event>, t: Sys, b: Aid, others: map<Sid, Entry>, x: Sid, e: Entry, turn: Turn,
               live: bool := false)
    returns (fs: seq<Event>, u: Sys)
    requires Reached(s, es, t, b, Scene(others, x, e, turn, Some(x), live)) && Proper(others, x, turn, Some(x))
    requires turn.pc.Inspecting? && t.w.lock == Some(b)
    ensures Reached(s, fs, u, b, Scene(others, x, e.(blockMine := true), turn.(pc := Starting), Some(x), true))
    ensures u.w == t.w.(rec := R.Invalidate(t.w.rec), blame := Mine(b, x))
  {
    fs, u := AwaitInspect(s, es, t, b, others, x, e, turn, live);
    fs, u := AwaitInvalidate(s, fs, u, b, others, x, e, turn.(pc := Invalidating), live);
  }

  function Answered(e: Entry, c: Child, conv: Conv): Entry {
    Naming(Spawning(e.(everStarted := true), c), conv)
  }

  /** The provider runs and has named its conversation. */
  lemma Runs(s: Sys, es: seq<Event>, t: Sys, b: Aid, others: map<Sid, Entry>, x: Sid, e: Entry, turn: Turn, conv: Conv)
    returns (fs: seq<Event>, u: Sys)
    requires Reached(s, es, t, b, Scene(others, x, e, turn, Some(x), true)) && Proper(others, x, turn, Some(x))
    requires turn.pc.Starting? && !turn.aborted && !e.provider.closed && t.w.live == {}
    ensures Reached(s, fs, u, b,
                    Scene(others, x, Answered(e, t.w.nextChild, conv), turn.(pc := Running), Some(x), true))
    ensures u.w == t.w.(live := t.w.live + {t.w.nextChild}, nextChild := t.w.nextChild + 1)
  {
    var run := turn.(pc := Running);
    fs, u := AwaitStart(s, es, t, b, others, x, e, turn);
    fs, u := AwaitSpawn(s, fs, u, b, others, x, e.(everStarted := true), run);
    fs, u := AwaitInit(s, fs, u, b, others, x, Spawning(e.(everStarted := true), t.w.nextChild), run, conv);
  }

  lemma OnlyChildLeft(w: World, c: Child, w': World)
    requires w.live == {} && w' == w.(live := w.live + {c} - {c}, nextChild := w.nextChild + 1)
    ensures w' == w.(nextChild := w.nextChild + 1)
  {
    assert w.live + {c} - {c} == w.live;
  }

  /** The child exits and the provider retires. */
  lemma Retires(s: Sys, es: seq<Event>, t: Sys, b: Aid, others: map<Sid, Entry>, x: Sid, e: Entry, turn: Turn, c: Child)
    returns (fs: seq<Event>, u: Sys)
    requires Reached(s, es, t, b, Scene(others, x, e, turn, Some(x), true)) && Proper(others, x, turn, Some(x))
    requires turn.pc.Retiring? && !turn.aborted && e.provider.last == Some(c) && c in t.w.live
    ensures Reached(s, fs, u, b, Scene(others, x, e, turn.(pc := Staging), Some(x), true))
    ensures u.w == t.w.(live := t.w.live - {c})
  {
    fs, u := ChildLeaves(s, es, t, b, Scene(others, x, e, turn, Some(x), true), c);
    fs, u := AwaitRetirement(s, fs, u, b, others, x, e, turn);
  }

  lemma AnsweredFacts(e: Entry, c: Child, conv: Conv)
    ensures var e' := Answered(e, c, conv);
            && e'.provider.last == Some(c) && e'.provider.conv == Some(e.provider.conv.GetOr(conv))
            && e'.provider.closed == e.provider.closed && e'.bound == e.bound
  {
  }

  /** The turn has its answer and its provider is gone. */
  lemma Answers(s: Sys, es: seq<Event>, t: Sys, b: Aid, others: map<Sid, Entry>, x: Sid, e: Entry, turn: Turn,
                conv: Conv)
    returns (fs: seq<Event>, u: Sys)
    requires Reached(s, es, t, b, Scene(others, x, e, turn, Some(x), true)) && Proper(others, x, turn, Some(x))
    requires turn.pc.Starting? && !turn.aborted && !e.provider.closed && t.w.live == {}
    ensures Reached(s, fs, u, b,
                    Scene(others, x, Answered(e, t.w.nextChild, conv), turn.(pc := Staging), Some(x), true))
    ensures u.w == t.w.(nextChild := t.w.nextChild + 1)
  {
    var c := t.w.nextChild;
    AnsweredFacts(e, c, conv);
    OnlyPc(turn, Running, Retiring);
    OnlyPc(turn, Retiring, Staging);
    fs, u := Runs(s, es, t, b, others, x, e, turn, conv);
    fs, u := AwaitAnswer(s, fs, u, b, others, x, Answered(e, c, conv), turn.(pc := Running));
    fs, u := Retires(s, fs, u, b, others, x, Answered(e, c, conv), turn.(pc := Retiring), c);
    OnlyChildLeft(t.w, c, u.w);
  }

  function Recorded(turn: Turn, staged: Option<Conv>, r: Rid): Turn {
    turn.(staged := staged, rid := Some(r), pc := Publishing)
  }

  /** Staged and recorded in the outbox. */
  lemma Stages(s: Sys, es: seq<Event>, t: Sys, b: Aid, others: map<Sid, Entry>, x: Sid, e: Entry, turn: Turn, r: Rid)
    returns (fs: seq<Event>, u: Sys)
    requires Reached(s, es, t, b, Scene(others, x, e, turn, Some(x), true)) && Proper(others, x, turn, Some(x))
    requires turn.pc.Staging? && e.provider.conv.Some?
    requires t.w.lock == Some(b) && t.w.rec.Blocked? && t.outboxOn && r !in t.w.outbox
    ensures Reached(s, fs, u, b, Scene(others, x, e, Recorded(turn, e.provider.conv, r), Some(x), true))
    ensures u.w == t.w.(rec := R.Blocked(e.provider.conv), outbox := t.w.outbox[r := Inflight])
  {
    fs, u := AwaitStage(s, es, t, b, others, x, e, turn);
    fs, u := AwaitBegin(s, fs, u, b, others, x, e, turn.(staged := e.provider.conv, pc := Beginning), r);
  }

  /** Published, acknowledged and saved. */
  lemma Delivers(s: Sys, es: seq<Event>, t: Sys, b: Aid, others: map<Sid, Entry>, x: Sid, e: Entry, turn: Turn, r: Rid)
    returns (fs: seq<Event>, u: Sys)
    requires Reached(s, es, t, b, Scene(others, x, e, turn, Some(x), true)) && Proper(others, x, turn, Some(x))
    requires turn.pc.Publishing? && !turn.aborted && turn.rid == Some(r) && turn.staged.Some?
    requires t.w.lock == Some(b) && r in t.w.outbox && t.w.outbox[r].Inflight?
    ensures Reached(s, fs, u, b, Rest(others[x := Checkpointed(e)], Some(x)))
    ensures u.w == t.w.(rec := R.Ready(turn.staged.value), blame := Nobody, outbox := t.w.outbox[r := Sent])
  {
    var told := turn.(outcome := Sent, pc := Updating);
    fs, u := AwaitPublish(s, es, t, b, others, x, e, turn);
    fs, u := AwaitUpdate(s, fs, u, b, others, x, e, told);
    fs, u := AwaitSave(s, fs, u, b, others, x, e, told.(pc := Saving));
  }

  /** From the retired provider to the ready checkpoint. */
  lemma Publishes(s: Sys, es: seq<Event>, t: Sys, b: Aid, others: map<Sid, Entry>, x: Sid, e: Entry, turn: Turn, r: Rid)
    returns (fs: seq<Event>, u: Sys)
    requires Reached(s, es, t, b, Scene(others, x, e, turn, Some(x), true)) && Proper(others, x, turn, Some(x))
    requires turn.pc.Staging? && !turn.aborted && e.provider.conv.Some?
    requires t.w.lock == Some(b) && t.w.rec.Blocked? && t.outboxOn && r !in t.w.outbox
    ensures Reached(s, fs, u, b, Rest(others[x := Checkpointed(e)], Some(x)))
    ensures var w2 := t.w.(rec := R.Blocked(e.provider.conv), outbox := t.w.outbox[r := Inflight]);
            u.w == w2.(rec := R.Ready(e.provider.conv.value), blame := Nobody, outbox := w2.outbox[r := Sent])
  {
    fs, u := Stages(s, es, t, b, others, x, e, turn, r);
    fs, u := Delivers(s, fs, u, b, others, x, e, Recorded(turn, e.provider.conv, r), r);
  }

  /** What a delivered turn leaves behind. */
  function AfterTurn(w: World, own: Conv, r: Rid): World {
    w.(nextChild := w.nextChild + 1, rec := R.Ready(own), blame := Nobody, outbox := w.outbox[r := Sent])
  }

  lemma TurnInSteps(w: World, own: Option<Conv>, r: Rid)
    requires own.Some?
    ensures var w1 := w.(nextChild := w.nextChild + 1);
            var w2 := w1.(rec := R.Blocked(own), outbox := w1.outbox[r := Inflight]);
            w2.(rec := R.Ready(own.value), blame := Nobody, outbox := w2.outbox[r := Sent]) == AfterTurn(w, own.value,
                                                                      r)
  {
    assert w.outbox[r := Inflight][r := Sent] == w.outbox[r := Sent];
  }

  /** From the block to the ready checkpoint. */
  lemma Completes(s: Sys, es: seq<Event>, t: Sys, b: Aid, others: map<Sid, Entry>, x: Sid, e: Entry, turn: Turn,
                  conv: Conv, r: Rid)
    returns (fs: seq<Event>, u: Sys)
    requires Reached(s, es, t, b, Scene(others, x, e, turn, Some(x), true)) && Proper(others, x, turn, Some(x))
    requires turn.pc.Starting? && !turn.aborted && !e.provider.closed && t.w.live == {}
    requires t.w.lock == Some(b) && t.w.rec.Blocked? && t.outboxOn && r !in t.w.outbox
    ensures Reached(s, fs, u, b, Rest(others[x := Checkpointed(Answered(e, t.w.nextChild, conv))], Some(x)))
    ensures u.w == AfterTurn(t.w, e.provider.conv.GetOr(conv), r)
  {
    var e1 := Answered(e, t.w.nextChild, conv);
    AnsweredFacts(e, t.w.nextChild, conv);
    fs, u := Answers(s, es, t, b, others, x, e, turn, conv);
    fs, u := Publishes(s, fs, u, b, others, x, e1, turn.(pc := Staging), r);
    TurnInSteps(t.w, e1.provider.conv, r);
  }

  /** A whole turn: from an open record to a ready one, with one more sent delivery and no child left. */
  lemma ATurnCanBeDelivered(s: Sys, b: Aid, conv: Conv, r: Rid) returns (es: seq<Event>, t: Sys)
    requires Inv(s) && s.w.lock.None? && !s.w.rec.Blocked? && b !in s.ads && s.outboxOn && r !in s.w.outbox
    ensures MildPath(s, es, t) && t.w.live == {} && t.w.outbox == s.w.outbox[r := Sent]
    ensures t.w.rec == R.Ready(R.IdOf(s.w.rec).GetOr(conv))
    ensures b in t.ads && t.ads[b].turns == map[] && t.ads[b].pin == Some(0)
    ensures 0 in t.ads[b].entries && t.ads[b].entries[0].safeToTransfer
  {
    var e, turn := Attached(FRESH_ENTRY, R.IdOf(s.w.rec)), FirstTurn(Inspecting, false);
    es, t := NewcomerReads(s, b);
    es, t := Blocks(s, es, t, b, map[], 0, e, turn);
    es, t := Completes(s, es, t, b, map[], 0, e.(blockMine := true), turn.(pc := Starting), conv, r);
    var e' := Checkpointed(Answered(e.(blockMine := true), s.w.nextChild, conv));
    ReachedByRun(s, es, t, b, Rest(map[][0 := e'], Some(0)));
  }
}
