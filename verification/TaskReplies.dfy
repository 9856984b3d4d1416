/** What a provider task answers: once, before any chunk, unless it was superseded; and what its
    consumer gets when the request is refused or the upstream is. */
module TaskReplies {
  import opened Options
  import opened Supersession
  import C = StreamContext
  import D = Lines
  import E = EndToEnd
  import L = SwarmLifecycle
  import M = SwarmSpec

  // ---- One answer ----

  predicate BeforeAnswer(pc: Pc) {
    pc.Started? || pc.Answering? || pc.Replying?
  }

  predicate IsRefused(pc: Pc) {
    (pc.Answering? && pc.refused) || (pc.Replying? && pc.refused)
  }

  /** Nothing is sent or read before the answer; there is at most one, and an active task that is past
      it has answered. */
  predicate Answers(slots: map<Consumer, Slot>, t: Task) {
    && (BeforeAnswer(t.pc) ==> t.replies == 0 && t.chunks == [] && t.items == [])
    && t.replies <= 1
    && (!BeforeAnswer(t.pc) && Active(slots, t) ==> t.replies == 1)
    && (t.pc.Replying? && Active(slots, t) ==> t.replies == 0)
  }

  lemma ActAnswers(slots: map<Consumer, Slot>, t: Task, a: Action)
    requires Answers(slots, t) && Fenced(slots, t)
    ensures Answers(SlotsAfter(slots, t, a), Act(slots, t, a))
  {
  }

  lemma OthersAnswer(slots: map<Consumer, Slot>, claimer: Task, a: Action, t: Task)
    requires Answers(slots, t) && Fenced(slots, t)
    ensures Answers(SlotsAfter(slots, claimer, a), t)
  {
  }

  ghost predicate AllAnswer(p: Provider) {
    forall i :: 0 <= i < |p.tasks| ==> Answers(p.slots, p.tasks[i])
  }

  lemma StepAnswers(p: Provider, e: Event)
    requires Generations(p) && AllAnswer(p)
    ensures AllAnswer(Step(p, e))
  {
    if e.Run? && e.task < |p.tasks| {
      var p', k := Step(p, e), e.task;
      forall i | 0 <= i < |p'.tasks| ensures Answers(p'.slots, p'.tasks[i]) {
        assert Fenced(p.slots, p.tasks[i]);
        if i == k { ActAnswers(p.slots, p.tasks[k], e.action); } else { OthersAnswer(p.slots, p.tasks[k], e.action, p.tasks[i]); }
      }
    }
  }

  lemma {:induction false} RunAnswers(p: Provider, es: seq<Event>)
    requires Generations(p) && AllAnswer(p)
    ensures AllAnswer(RunAll(p, es))
    decreases |es|
  {
    if es != [] {
      StepAnswers(p, es[0]);
      StepKeepsGenerations(p, es[0]);
      RunAnswers(Step(p, es[0]), es[1..]);
    }
  }

  /** In every reachable state a task has answered at most once, has read and sent nothing before its
      answer, and once past it has answered exactly once if its slot is still its own. */
  lemma AnsweredOnce(es: seq<Event>, k: nat)
    requires k < |RunAll(INIT, es).tasks|
    ensures var p := RunAll(INIT, es); var t := p.tasks[k];
      && t.replies <= 1
      && (BeforeAnswer(t.pc) ==> t.replies == 0 && t.chunks == [] && t.items == [])
      && (!BeforeAnswer(t.pc) && Active(p.slots, t) ==> t.replies == 1)
  {
    RunAnswers(INIT, es);
    assert Answers(RunAll(INIT, es).slots, RunAll(INIT, es).tasks[k]);
  }

  // ---- Looking and sending ----

  /** Looking at the slot and sending are two steps: a request that claims the slot in between does not
      stop the message that the older task is about to send. */
  lemma LastMessageStillGoes(es: seq<Event>, k: nat, j: nat, refused: bool)
    requires var p := RunAll(INIT, es); k < |p.tasks| && j < |p.tasks|
    requires var p := RunAll(INIT, es);
      p.tasks[j].pc.Started? && !p.tasks[k].pc.Started? && p.tasks[j].consumer == p.tasks[k].consumer
    ensures var p := RunAll(INIT, es); var t := p.tasks[k]; var claimed := Step(p, Run(j, Claim(refused)));
      && Superseded(claimed.slots, claimed.tasks[k])
      && (t.pc.Emitting? ==> Step(claimed, Run(k, EmitChunk)).tasks[k].chunks == t.chunks + [t.pc.chunk])
      && (t.pc.Replying? ==> Step(claimed, Run(k, Reply)).tasks[k].replies == t.replies + 1)
  {
    ClaimSupersedes(es, j, refused);
  }

  // ---- Refused requests ----

  /** The task is about to refuse, or has done so. */
  predicate Refuses(t: Task) {
    (IsRefused(t.pc) || t.pc.Finished?) && t.items == [] && t.chunks == []
  }

  /** A refused request is never served: whatever happens then, nothing is read for it and no chunk is
      sent. */
  lemma {:induction false} RefusedForever(p: Provider, es: seq<Event>, k: nat)
    requires k < |p.tasks| && Refuses(p.tasks[k])
    ensures k < |RunAll(p, es).tasks| && Refuses(RunAll(p, es).tasks[k])
    decreases |es|
  {
    if es != [] { RefusedForever(Step(p, es[0]), es[1..], k); }
  }

  // ---- Refused upstreams ----

  /** A task whose upstream refuses has acknowledged the request, and sends nothing more whatever
      happens then. */
  lemma UpstreamRefusalIsSilent(c: Consumer, r: RequestName, es: seq<Event>)
    ensures var p := RunAll(INIT, Beginning(c, r, false));
      && |p.tasks| == 1 && p.tasks[0].pc.Finished? && p.tasks[0].replies == 1
      && RunAll(p, es).tasks != [] && RunAll(p, es).tasks[0].chunks == []
  {
    BeginsAsked(c, r, false);
    RefusedForever(Only(c, r, Asked(c, r, false)), es, 0);
  }

  /** Its consumer, once acknowledged, is told nothing, and its reply channel stays open: no line, no
      error and no end, whatever happens to other requests. */
  lemma CallerIsLeftWaiting(s: M.State, es: seq<M.Event>, x: E.Exchange)
    requires E.Proper(x) && x.chunks == [] && L.Inv(s) && L.LegalRun(s, es) && E.Waits(s, {}, x) && E.AllFit(es, x)
    ensures var s' := M.RunAll(s, es);
      x.id in s'.replies && s'.replies[x.id] == [] && x.id in s'.channels
  {
    E.ArrivalsAreChunks(es, x);
    E.ToldInAnyOrder(s, es, x, 0);
    NoText(x);
  }

  lemma NoText(x: E.Exchange)
    requires x.chunks == []
    ensures C.TextUpTo(x.chunks, 0) == "" && M.Oks(D.Delivered("")) == []
  {
  }
}
