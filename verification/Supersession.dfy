/** Provider tasks run side by side. A newer request of the same consumer takes the consumer's slot
    over, and a task looks at its slot before every chunk, but sends the chunk in a later step. */
module Supersession {
  import opened Options
  import opened Text
  import opened Utf8
  import opened Upstream
  import opened ChunkSender

  type Consumer = string
  type RequestName = string

  datatype Slot = Slot(reqId: RequestName, generation: nat)

  /** `active_encrypted_proxies` with the two operations on it. */
  class ProxySlots {
    var slots: map<Consumer, Slot>

    constructor ()
      ensures slots == map[]
    {
      slots := map[];
    }

    /** The generation is one more than every earlier one of the consumer; other consumers keep
        their slots. */
    method Claim(consumer: Consumer, reqId: RequestName) returns (generation: nat)
      modifies this
      ensures slots == Claimed(old(slots), consumer, reqId) && generation == slots[consumer].generation
      ensures IsActive(slots, consumer, reqId, generation)
      ensures forall r: RequestName, g: nat :: IsActive(old(slots), consumer, r, g) ==> g < generation
    {
      var slot := if consumer in slots then slots[consumer] else Slot("", 0);
      slot := slot.(generation := slot.generation + 1);
      slot := slot.(reqId := reqId);
      slots := slots[consumer := slot];
      generation := slot.generation;
    }

    method StillActive(consumer: Consumer, reqId: RequestName, generation: nat) returns (active: bool)
      ensures active == IsActive(slots, consumer, reqId, generation)
    {
      active := consumer in slots && slots[consumer].reqId == reqId && slots[consumer].generation == generation;
    }
  }

  function Claimed(slots: map<Consumer, Slot>, consumer: Consumer, reqId: RequestName): map<Consumer, Slot> {
    slots[consumer := Slot(reqId, (if consumer in slots then slots[consumer].generation else 0) + 1)]
  }

  predicate IsActive(slots: map<Consumer, Slot>, consumer: Consumer, reqId: RequestName, generation: nat) {
    consumer in slots && slots[consumer] == Slot(reqId, generation)
  }

  // ---- Tasks ----

  /** Where a task stands between two awaits. */
  datatype Pc =
    | Started                               // before it claims the slot
    | Answering(refused: bool)              // about to look whether it may answer
    | Replying(refused: bool)               // has looked, is about to answer
    | Opening                               // before the upstream is asked
    | Reading                               // waiting for the next upstream item
    | Flushing(done: bool)                  // at the head of the flush loop
    | Emitting(chunk: Chunk, done: bool)    // has looked, is about to send the chunk
    | Finished

  /** `items` is what has been read from the upstream and `text` what could be decoded of it; `chunks`
      and `replies` is what has been sent. */
  datatype Task = Task(
    consumer: Consumer, reqId: RequestName, generation: nat, pc: Pc, sender: Sender,
    items: seq<Upstream.Item>, text: string, chunks: seq<Chunk>, replies: nat, lost: bool)

  /** What the upstream yields: bytes, a failure, or nothing more. */
  datatype Yield = Bytes(item: Upstream.Item) | Broken | End

  datatype Action =
    | Claim(refused: bool)    // the outcome of the block list and of decryption comes with it
    | Check
    | Reply
    | Open(ok: bool)
    | Pull(next: Yield)
    | Turn(sealed: bool)
    | EmitChunk

  predicate Active(slots: map<Consumer, Slot>, t: Task) {
    IsActive(slots, t.consumer, t.reqId, t.generation)
  }

  function AfterFlush(done: bool): Pc {
    if done then Finished else Reading
  }

  /** The next upstream item; a superseded task stops reading, and so does one whose upstream
      breaks off. */
  function OnYield(t: Task, next: Yield, active: bool): Task {
    if !next.Bytes? || !active then t.(pc := Flushing(true))
    else
      var decoded := Decode(next.item);
      var t1 := t.(items := t.items + [next.item]);
      if decoded.None? then t1 else WithPiece(t1, decoded.value)
  }

  function WithPiece(t: Task, piece: string): Task {
    t.(text := t.text + piece, sender := t.sender.(pending := t.sender.pending + piece), pc := Flushing(false))
  }

  function OnTurn(t: Task, active: bool, sealed: bool): Task
    requires t.pc.Flushing?
  {
    if !active then t.(pc := AfterFlush(t.pc.done))
    else match TakeTurn(t.sender, t.pc.done, SWARM_CHUNK_BYTES, sealed)
      case Stop => t.(pc := AfterFlush(t.pc.done))
      case Emit(chunk, s) => t.(sender := s, pc := Emitting(chunk, t.pc.done))
      case Lost(s) => t.(sender := s, lost := true, pc := AfterFlush(t.pc.done))
  }

  function AfterReply(refused: bool): Pc {
    if refused then Finished else Opening
  }

  /** What one step does to the task; a step that does not fit its place does nothing. */
  function Act(slots: map<Consumer, Slot>, t: Task, a: Action): Task {
    match (t.pc, a)
    case (Started, Claim(refused)) =>
      t.(generation := Claimed(slots, t.consumer, t.reqId)[t.consumer].generation, pc := Answering(refused))
    case (Answering(refused), Check) => t.(pc := if Active(slots, t) then Replying(refused) else AfterReply(refused))
    case (Replying(refused), Reply) => t.(replies := t.replies + 1, pc := AfterReply(refused))
    case (Opening, Open(ok)) => t.(pc := if ok then Reading else Finished)
    case (Reading, Pull(next)) => OnYield(t, next, Active(slots, t))
    case (Flushing(done), Turn(sealed)) => OnTurn(t, Active(slots, t), sealed)
    case (Emitting(chunk, done), EmitChunk) => t.(chunks := t.chunks + [chunk], pc := Flushing(done))
    case _ => t
  }

  datatype Provider = Provider(slots: map<Consumer, Slot>, tasks: seq<Task>)

  datatype Event = Spawn(consumer: Consumer, reqId: RequestName) | Run(task: nat, action: Action)

  function NewTask(consumer: Consumer, reqId: RequestName): Task {
    Task(consumer, reqId, 0, Started, FRESH, [], "", [], 0, false)
  }

  function SlotsAfter(slots: map<Consumer, Slot>, t: Task, a: Action): map<Consumer, Slot> {
    if t.pc.Started? && a.Claim? then Claimed(slots, t.consumer, t.reqId) else slots
  }

  function Step(p: Provider, e: Event): Provider {
    match e
    case Spawn(consumer, reqId) => p.(tasks := p.tasks + [NewTask(consumer, reqId)])
    case Run(i, a) =>
      if i >= |p.tasks| then p
      else Provider(SlotsAfter(p.slots, p.tasks[i], a), p.tasks[i := Act(p.slots, p.tasks[i], a)])
  }

  function RunAll(p: Provider, es: seq<Event>): Provider
    decreases |es|
  {
    if es == [] then p else RunAll(Step(p, es[0]), es[1..])
  }

  const INIT := Provider(map[], [])

  // ---- Generations ----

  /** A task that has claimed its slot has a generation up to the slot's, and the slot's own
      generation belongs to its request. */
  predicate Fenced(slots: map<Consumer, Slot>, t: Task) {
    && (t.pc.Started? <==> t.generation == 0)
    && (t.generation > 0 ==>
          && t.consumer in slots && t.generation <= slots[t.consumer].generation
          && (t.generation == slots[t.consumer].generation ==> slots[t.consumer].reqId == t.reqId))
  }

  predicate Distinct(a: Task, b: Task) {
    a.consumer == b.consumer && a.generation > 0 && b.generation > 0 ==> a.generation != b.generation
  }

  ghost predicate Generations(p: Provider) {
    && (forall i :: 0 <= i < |p.tasks| ==> Fenced(p.slots, p.tasks[i]))
    && (forall i, j :: 0 <= i < j < |p.tasks| ==> Distinct(p.tasks[i], p.tasks[j]))
  }

  lemma ClaimFences(slots: map<Consumer, Slot>, claimer: Task, t: Task)
    requires Fenced(slots, t)
    ensures var slots' := Claimed(slots, claimer.consumer, claimer.reqId);
      && Fenced(slots', t)
      && (t.consumer == claimer.consumer ==> t.generation < slots'[claimer.consumer].generation)
  {
  }

  /** Only a claim changes a generation; it gives the task one that no task of the consumer has. */
  lemma ActFences(slots: map<Consumer, Slot>, t: Task, a: Action)
    requires Fenced(slots, t)
    ensures Fenced(SlotsAfter(slots, t, a), Act(slots, t, a))
    ensures Act(slots, t, a).consumer == t.consumer && Act(slots, t, a).reqId == t.reqId
    ensures !(t.pc.Started? && a.Claim?) ==> Act(slots, t, a).generation == t.generation
  {
  }

  lemma StepKeepsGenerations(p: Provider, e: Event)
    requires Generations(p)
    ensures Generations(Step(p, e))
  {
    if e.Run? && e.task < |p.tasks| {
      var k, t := e.task, p.tasks[e.task];
      var p', t' := Step(p, e), Act(p.slots, t, e.action);
      ActFences(p.slots, t, e.action);
      forall i | 0 <= i < |p'.tasks| ensures Fenced(p'.slots, p'.tasks[i]) && (i != k ==> Distinct(p.tasks[i], t')) {
        if i != k { OthersStayFenced(p, k, e.action, i); }
      }
      forall i, j | 0 <= i < j < |p'.tasks| ensures Distinct(p'.tasks[i], p'.tasks[j]) {
        if i == k || j == k { assert Distinct(p.tasks[if i == k then j else i], t'); }
      }
    }
  }

  lemma OthersStayFenced(p: Provider, k: nat, a: Action, i: nat)
    requires Generations(p) && k < |p.tasks| && i < |p.tasks| && i != k
    ensures Fenced(SlotsAfter(p.slots, p.tasks[k], a), p.tasks[i])
    ensures Distinct(p.tasks[i], Act(p.slots, p.tasks[k], a))
  {
  }

  /** Along every run the generation of a slot never falls. */
  lemma {:induction false} RunKeepsGenerations(p: Provider, es: seq<Event>)
    requires Generations(p)
    ensures Generations(RunAll(p, es))
    ensures forall c :: c in p.slots ==>
      c in RunAll(p, es).slots && p.slots[c].generation <= RunAll(p, es).slots[c].generation
    decreases |es|
  {
    if es != [] {
      StepKeepsGenerations(p, es[0]);
      RunKeepsGenerations(Step(p, es[0]), es[1..]);
    }
  }

  /** In every reachable state: a claim gives the newest generation of the consumer, makes the task
      active, and supersedes every other task of the consumer that has claimed before. */
  lemma ClaimSupersedes(es: seq<Event>, k: nat, refused: bool)
    requires k < |RunAll(INIT, es).tasks| && RunAll(INIT, es).tasks[k].pc.Started?
    ensures var p := RunAll(INIT, es); var p' := Step(p, Run(k, Claim(refused)));
      && Active(p'.slots, p'.tasks[k])
      && forall i :: 0 <= i < |p.tasks| && i != k && p.tasks[i].consumer == p.tasks[k].consumer && !p.tasks[i].pc.Started? ==>
           p'.tasks[i].generation < p'.tasks[k].generation && Superseded(p'.slots, p'.tasks[i])
  {
    var p := RunAll(INIT, es);
    RunKeepsGenerations(INIT, es);
    forall i | 0 <= i < |p.tasks| && i != k && p.tasks[i].consumer == p.tasks[k].consumer && !p.tasks[i].pc.Started?
      ensures Superseded(Claimed(p.slots, p.tasks[k].consumer, p.tasks[k].reqId), p.tasks[i])
    {
      assert Fenced(p.slots, p.tasks[i]);
      ClaimFences(p.slots, p.tasks[k], p.tasks[i]);
    }
  }

  /** In every reachable state a consumer has at most one active task. */
  lemma AtMostOneActive(es: seq<Event>, i: nat, j: nat)
    requires var p := RunAll(INIT, es); i < |p.tasks| && j < |p.tasks|
    requires var p := RunAll(INIT, es);
      && !p.tasks[i].pc.Started? && !p.tasks[j].pc.Started?
      && p.tasks[i].consumer == p.tasks[j].consumer
      && Active(p.slots, p.tasks[i]) && Active(p.slots, p.tasks[j])
    ensures i == j
  {
    var p := RunAll(INIT, es);
    RunKeepsGenerations(INIT, es);
    assert Fenced(p.slots, p.tasks[i]) && Fenced(p.slots, p.tasks[j]);
    assert i < j ==> Distinct(p.tasks[i], p.tasks[j]);
    assert j < i ==> Distinct(p.tasks[j], p.tasks[i]);
  }

  // ---- Superseded tasks ----

  /** Its slot has gone to a newer request. */
  predicate Superseded(slots: map<Consumer, Slot>, t: Task) {
    t.generation > 0 && t.consumer in slots && t.generation < slots[t.consumer].generation
  }

  function Messages(t: Task): nat {
    t.replies + |t.chunks|
  }

  /** A message for which the task has already looked at its slot. */
  function Committed(t: Task): nat {
    if t.pc.Replying? || t.pc.Emitting? then 1 else 0
  }

  lemma SupersededStep(p: Provider, e: Event, k: nat)
    requires k < |p.tasks| && Superseded(p.slots, p.tasks[k]) && !p.tasks[k].pc.Started?
    ensures var p' := Step(p, e);
      && k < |p'.tasks| && Superseded(p'.slots, p'.tasks[k]) && !p'.tasks[k].pc.Started?
      && Messages(p'.tasks[k]) + Committed(p'.tasks[k]) <= Messages(p.tasks[k]) + Committed(p.tasks[k])
      && p'.tasks[k].items == p.tasks[k].items
  {
  }

  /** A superseded task never becomes active again, reads nothing more from its upstream, and sends
      at most the one message for which it had already looked at its slot. */
  lemma SupersededForever(p: Provider, es: seq<Event>, k: nat)
    requires k < |p.tasks| && Superseded(p.slots, p.tasks[k]) && !p.tasks[k].pc.Started?
    ensures var p' := RunAll(p, es);
      && k < |p'.tasks| && Superseded(p'.slots, p'.tasks[k]) && !Active(p'.slots, p'.tasks[k])
      && p'.tasks[k].items == p.tasks[k].items
      && Messages(p'.tasks[k]) <= Messages(p.tasks[k]) + Committed(p.tasks[k])
  {
    SupersededRun(p, es, k);
  }

  lemma {:induction false} SupersededRun(p: Provider, es: seq<Event>, k: nat)
    requires k < |p.tasks| && Superseded(p.slots, p.tasks[k]) && !p.tasks[k].pc.Started?
    ensures var p' := RunAll(p, es);
      && k < |p'.tasks| && Superseded(p'.slots, p'.tasks[k]) && p'.tasks[k].items == p.tasks[k].items
      && Messages(p'.tasks[k]) + Committed(p'.tasks[k]) <= Messages(p.tasks[k]) + Committed(p.tasks[k])
    decreases |es|
  {
    if es != [] {
      SupersededStep(p, es[0], k);
      SupersededRun(Step(p, es[0]), es[1..], k);
    }
  }

  // ---- What a task has sent ----

  /** The chunks sent and the one about to be sent. */
  function Planned(t: Task): seq<Chunk> {
    t.chunks + if t.pc.Emitting? then [t.pc.chunk] else []
  }

  function Plan(text: string): seq<Chunk> {
    StreamOf(text, SWARM_CHUNK_BYTES)
  }

  /** The early chunks of the text, and what is left of it. */
  predicate CutsEarly(t: Task) {
    var (s, more) := Flush(t.sender, false, SWARM_CHUNK_BYTES);
    var full := FullChunks(t.text, SWARM_CHUNK_BYTES);
    Planned(t) + more == Numbered(full, 0, false) && s == Sender(Residue(t.text, SWARM_CHUNK_BYTES), |full|)
  }

  predicate CutsLate(t: Task) {
    Planned(t) + Flush(t.sender, true, SWARM_CHUNK_BYTES).1 == Plan(t.text)
  }

  /** Where an active task that has lost nothing stands in the stream of its text. */
  predicate OnTrack(t: Task) {
    match t.pc
    case Started => t.sender == FRESH && t.text == "" && t.chunks == []
    case Answering(_) => t.sender == FRESH && t.text == "" && t.chunks == []
    case Replying(_) => t.sender == FRESH && t.text == "" && t.chunks == []
    case Opening => t.sender == FRESH && t.text == "" && t.chunks == []
    case Reading => CutsEarly(t) && Flush(t.sender, false, SWARM_CHUNK_BYTES) == (t.sender, [])
    case Flushing(done) => if done then CutsLate(t) else CutsEarly(t)
    case Emitting(_, done) => if done then CutsLate(t) else CutsEarly(t)
    case Finished => t.chunks == Plan(t.text)
  }

  predicate Sound(slots: map<Consumer, Slot>, t: Task) {
    !t.lost ==>
      && Planned(t) <= Plan(t.text)
      && (t.pc.Started? || Active(slots, t) ==> OnTrack(t))
  }

  lemma EmptyPlan()
    ensures Plan("") == [] && FullChunks("", SWARM_CHUNK_BYTES) == [] && Residue("", SWARM_CHUNK_BYTES) == ""
    ensures Flush(FRESH, false, SWARM_CHUNK_BYTES) == (FRESH, [])
  {
  }

  lemma OpenIsOnTrack(t: Task, ok: bool)
    requires t.pc.Opening? && OnTrack(t)
    ensures OnTrack(t.(pc := if ok then Reading else Finished))
  {
  }

  lemma PieceIsOnTrack(t: Task, piece: string)
    requires t.pc.Reading? && OnTrack(t)
    ensures OnTrack(WithPiece(t, piece))
  {
    var s := t.sender;
    assert s == Sender(Residue(t.text, SWARM_CHUNK_BYTES), |FullChunks(t.text, SWARM_CHUNK_BYTES)|);
    assert t.chunks + [] == t.chunks;
    PushFrom(t.text, s, piece, SWARM_CHUNK_BYTES);
    var t' := WithPiece(t, piece);
    assert Planned(t') == t.chunks;
  }

  lemma EndIsOnTrack(t: Task)
    requires t.pc.Reading? && OnTrack(t)
    ensures OnTrack(t.(pc := Flushing(true)))
  {
    assert t.chunks + [] == t.chunks;
    SendEnd(t.text, t.sender, SWARM_CHUNK_BYTES);
  }

  lemma TurnIsOnTrack(t: Task, sealed: bool)
    requires t.pc.Flushing? && OnTrack(t)
    ensures var t' := OnTurn(t, true, sealed); t'.lost || OnTrack(t')
  {
  }

  lemma EmitIsOnTrack(t: Task)
    requires t.pc.Emitting? && OnTrack(t)
    ensures OnTrack(t.(chunks := t.chunks + [t.pc.chunk], pc := Flushing(t.pc.done)))
  {
  }

  lemma OnTrackIsPrefix(t: Task)
    requires OnTrack(t)
    ensures Planned(t) <= Plan(t.text)
  {
  }

  lemma ActIsOnTrack(slots: map<Consumer, Slot>, t: Task, a: Action)
    requires OnTrack(t) && (t.pc.Started? || Active(slots, t))
    ensures var t' := Act(slots, t, a); t'.lost || OnTrack(t')
  {
    match (t.pc, a)
    case (Opening, Open(ok)) => OpenIsOnTrack(t, ok);
    case (Reading, Pull(next)) =>
      if next.Bytes? {
        var t1 := t.(items := t.items + [next.item]);
        assert OnTrack(t1);
        if Decode(next.item).Some? { PieceIsOnTrack(t1, Decode(next.item).value); }
      } else {
        EndIsOnTrack(t);
      }
    case (Flushing(done), Turn(sealed)) => TurnIsOnTrack(t, sealed);
    case (Emitting(chunk, done), EmitChunk) => EmitIsOnTrack(t);
    case _ =>
  }

  lemma SupersededKeepsPlan(slots: map<Consumer, Slot>, t: Task, a: Action)
    requires !t.pc.Started? && !Active(slots, t)
    ensures var t' := Act(slots, t, a); Planned(t') == Planned(t) && t'.text == t.text && t'.lost == t.lost
  {
  }

  lemma ActIsSound(slots: map<Consumer, Slot>, t: Task, a: Action)
    requires Sound(slots, t) && Fenced(slots, t)
    ensures Sound(SlotsAfter(slots, t, a), Act(slots, t, a))
  {
    var t' := Act(slots, t, a);
    if !t.lost {
      if t.pc.Started? || Active(slots, t) {
        ActIsOnTrack(slots, t, a);
        if !t'.lost { OnTrackIsPrefix(t'); }
      } else {
        SupersededKeepsPlan(slots, t, a);
      }
    }
  }

  ghost predicate AllSound(p: Provider) {
    forall i :: 0 <= i < |p.tasks| ==> Sound(p.slots, p.tasks[i])
  }

  /** A claim does not make another task active. */
  lemma OthersStaySound(slots: map<Consumer, Slot>, claimer: Task, a: Action, t: Task)
    requires Sound(slots, t) && Fenced(slots, t)
    ensures Sound(SlotsAfter(slots, claimer, a), t)
  {
  }

  lemma StepKeepsSound(p: Provider, e: Event)
    requires AllSound(p) && Generations(p)
    ensures AllSound(Step(p, e))
  {
    var p' := Step(p, e);
    match e
    case Spawn(consumer, reqId) => EmptyPlan();
    case Run(k, a) =>
      if k < |p.tasks| {
        forall i | 0 <= i < |p'.tasks| ensures Sound(p'.slots, p'.tasks[i]) {
          assert Sound(p.slots, p.tasks[i]) && Fenced(p.slots, p.tasks[i]);
          if i == k { ActIsSound(p.slots, p.tasks[k], a); } else { OthersStaySound(p.slots, p.tasks[k], a, p.tasks[i]); }
        }
      }
  }

  lemma {:induction false} RunKeepsSound(p: Provider, es: seq<Event>)
    requires AllSound(p) && Generations(p)
    ensures AllSound(RunAll(p, es)) && Generations(RunAll(p, es))
    decreases |es|
  {
    if es != [] {
      StepKeepsSound(p, es[0]);
      StepKeepsGenerations(p, es[0]);
      RunKeepsSound(Step(p, es[0]), es[1..]);
    }
  }

  /** However the tasks interleave: what a task has sent is a prefix of the stream of the text it could
      decode, unless a chunk could not be encrypted; and a task that finishes while its slot is still
      its own has sent the whole stream. */
  lemma SentIsPrefix(es: seq<Event>, k: nat)
    requires k < |RunAll(INIT, es).tasks| && !RunAll(INIT, es).tasks[k].lost
    ensures var p := RunAll(INIT, es); var t := p.tasks[k];
      && t.chunks <= StreamOf(KeptText(t.items), SWARM_CHUNK_BYTES)
      && (t.pc.Finished? && Active(p.slots, t) ==> t.chunks == StreamOf(KeptText(t.items), SWARM_CHUNK_BYTES))
  {
    RunKeepsSound(INIT, es);
    RunTallies(INIT, es);
    var p := RunAll(INIT, es);
    assert Sound(p.slots, p.tasks[k]) && Tallies(p.tasks[k]);
  }

  // ---- What is lost ----

  /** The text sent or about to be sent, and the text still in the buffer. */
  function Accounted(t: Task): string {
    Join(TextsOf(Planned(t))) + t.sender.pending
  }

  /** The text is what could be decoded of the items read, and all of it is sent or buffered unless a
      chunk was lost. */
  predicate Tallies(t: Task) {
    && t.text == KeptText(t.items)
    && if t.lost then |Accounted(t)| < |t.text| else Accounted(t) == t.text
  }

  lemma PlannedOneMore(cs: seq<Chunk>, chunk: Chunk, rest: string)
    ensures Join(TextsOf(cs + [chunk])) + rest == Join(TextsOf(cs)) + (chunk.text + rest)
  {
    assert TextsOf(cs + [chunk]) == TextsOf(cs) + [chunk.text];
    JoinAppend(TextsOf(cs), chunk.text);
  }

  lemma TurnTallies(t: Task, active: bool, sealed: bool)
    requires t.pc.Flushing? && Tallies(t)
    ensures Tallies(OnTurn(t, active, sealed))
  {
    assert t.chunks + [] == t.chunks;
    match TakeTurn(t.sender, t.pc.done, SWARM_CHUNK_BYTES, sealed)
    case Stop =>
    case Emit(chunk, s) =>
      assert t.sender.pending == chunk.text + s.pending;
      PlannedOneMore(t.chunks, chunk, s.pending);
    case Lost(s) =>
  }

  lemma YieldTallies(t: Task, next: Yield, active: bool)
    requires t.pc.Reading? && Tallies(t)
    ensures Tallies(OnYield(t, next, active))
  {
    assert t.chunks + [] == t.chunks;
    if next.Bytes? && active {
      var piece := if Decode(next.item).Some? then Decode(next.item).value else "";
      KeptTextParts(t.items, [next.item]);
      KeptOne(next.item);
      assert t.text + "" == t.text;
      assert t.sender.pending + "" == t.sender.pending;
      PieceAccounted(Join(TextsOf(t.chunks)), t.sender.pending, piece, t.text, t.lost);
    }
  }

  /** A piece that is read is added to the text and to the buffer. */
  lemma PieceAccounted(sent: string, pending: string, piece: string, text: string, lost: bool)
    requires if lost then |sent + pending| < |text| else sent + pending == text
    ensures if lost then |sent + (pending + piece)| < |text + piece| else sent + (pending + piece) == text + piece
  {
    assert sent + (pending + piece) == (sent + pending) + piece;
  }

  lemma ActTallies(slots: map<Consumer, Slot>, t: Task, a: Action)
    requires Tallies(t)
    ensures Tallies(Act(slots, t, a))
  {
    if t.pc.Flushing? && a.Turn? {
      TurnTallies(t, Active(slots, t), a.sealed);
    } else if t.pc.Reading? && a.Pull? {
      YieldTallies(t, a.next, Active(slots, t));
    } else {
      OtherSteps(slots, t, a);
      SameTally(t, Act(slots, t, a));
    }
  }

  lemma OtherSteps(slots: map<Consumer, Slot>, t: Task, a: Action)
    requires !(t.pc.Flushing? && a.Turn?) && !(t.pc.Reading? && a.Pull?)
    ensures var t' := Act(slots, t, a);
      Planned(t') == Planned(t) && t'.sender == t.sender && t'.text == t.text && t'.items == t.items && t'.lost == t.lost
  {
    assert t.chunks + [] == t.chunks;
  }

  lemma SameTally(t: Task, t': Task)
    requires Tallies(t) && Planned(t') == Planned(t) && t'.sender == t.sender
    requires t'.text == t.text && t'.items == t.items && t'.lost == t.lost
    ensures Tallies(t')
  {
  }

  lemma {:induction false} RunTallies(p: Provider, es: seq<Event>)
    requires forall i :: 0 <= i < |p.tasks| ==> Tallies(p.tasks[i])
    ensures forall i :: 0 <= i < |RunAll(p, es).tasks| ==> Tallies(RunAll(p, es).tasks[i])
    decreases |es|
  {
    if es != [] {
      if es[0].Run? && es[0].task < |p.tasks| { ActTallies(p.slots, p.tasks[es[0].task], es[0].action); }
      RunTallies(Step(p, es[0]), es[1..]);
    }
  }

  /** In every reachable state, superseded tasks included: the text decoded is the text sent followed
      by the text still buffered, exactly as long as every chunk could be encrypted. */
  lemma LossIsExact(es: seq<Event>, k: nat)
    requires k < |RunAll(INIT, es).tasks|
    ensures var t := RunAll(INIT, es).tasks[k];
      Join(TextsOf(Planned(t))) + t.sender.pending == KeptText(t.items) <==> !t.lost
  {
    RunTallies(INIT, es);
    assert Tallies(RunAll(INIT, es).tasks[k]);
  }

  // ---- An upstream that breaks off ----

  function EndInstead(e: Event): Event {
    if e.Run? && e.action == Pull(Broken) then e.(action := Pull(End)) else e
  }

  function EndsInstead(es: seq<Event>): seq<Event> {
    if es == [] then [] else [EndInstead(es[0])] + EndsInstead(es[1..])
  }

  /** In every run, upstream failures could have been proper ends: the tasks send the same, and no
      consumer can tell a text that was broken off from one that is complete. */
  lemma {:induction false} BrokenLooksEnded(p: Provider, es: seq<Event>)
    ensures RunAll(p, EndsInstead(es)) == RunAll(p, es)
    decreases |es|
  {
    if es != [] {
      assert EndsInstead(es)[1..] == EndsInstead(es[1..]);
      assert Step(p, EndInstead(es[0])) == Step(p, es[0]);
      BrokenLooksEnded(Step(p, es[0]), es[1..]);
    }
  }

  // ---- One history in which a chunk is lost ----

  function Only(c: Consumer, r: RequestName, t: Task): Provider {
    Provider(map[c := Slot(r, 1)], [t])
  }

  function Runs(actions: seq<Action>): seq<Event> {
    if actions == [] then [] else [Run(0, actions[0])] + Runs(actions[1..])
  }

  function ActAll(slots: map<Consumer, Slot>, t: Task, actions: seq<Action>): Task
    decreases |actions|
  {
    if actions == [] then t else ActAll(slots, Act(slots, t, actions[0]), actions[1..])
  }

  lemma {:induction false} OnlyRuns(c: Consumer, r: RequestName, t: Task, actions: seq<Action>)
    requires !t.pc.Started?
    ensures RunAll(Only(c, r, t), Runs(actions)) == Only(c, r, ActAll(map[c := Slot(r, 1)], t, actions))
    decreases |actions|
  {
    if actions != [] {
      var t1 := Act(map[c := Slot(r, 1)], t, actions[0]);
      assert Runs(actions)[1..] == Runs(actions[1..]);
      assert Step(Only(c, r, t), Run(0, actions[0])) == Only(c, r, t1);
      OnlyRuns(c, r, t1, actions[1..]);
    }
  }

  lemma ActFirst(slots: map<Consumer, Slot>, t: Task, a: Action, rest: seq<Action>)
    ensures ActAll(slots, t, [a] + rest) == ActAll(slots, Act(slots, t, a), rest)
  {
    assert ([a] + rest)[1..] == rest;
  }

  /** A task that has claimed, answered and asked its upstream, which takes the request or not. */
  function Asked(c: Consumer, r: RequestName, ok: bool): Task {
    Task(c, r, 1, if ok then Reading else Finished, FRESH, [], "", [], 1, false)
  }

  function Beginning(c: Consumer, r: RequestName, ok: bool): seq<Event> {
    [Spawn(c, r), Run(0, Claim(false))] + Runs([Check, Reply, Open(ok)])
  }

  lemma BeginsAsked(c: Consumer, r: RequestName, ok: bool)
    ensures RunAll(INIT, Beginning(c, r, ok)) == Only(c, r, Asked(c, r, ok))
  {
    var t := NewTask(c, r).(generation := 1, pc := Answering(false));
    var slots := map[c := Slot(r, 1)];
    var rest := Runs([Check, Reply, Open(ok)]);
    assert Beginning(c, r, ok)[1..] == [Run(0, Claim(false))] + rest && ([Run(0, Claim(false))] + rest)[1..] == rest;
    assert Step(INIT, Spawn(c, r)) == Provider(map[], [NewTask(c, r)]);
    assert Step(Provider(map[], [NewTask(c, r)]), Run(0, Claim(false))) == Only(c, r, t);
    OnlyRuns(c, r, t, [Check, Reply, Open(ok)]);
    assert [Check, Reply, Open(ok)] == [Check] + ([Reply] + [Open(ok)]);
    ActFirst(slots, t, Check, [Reply] + [Open(ok)]);
    ActFirst(slots, t.(pc := Replying(false)), Reply, [Open(ok)]);
    assert [Open(ok)][1..] == [];
  }

  /** The upstream yields `lost`, which cannot be encrypted, then `kept`, and ends. */
  function LosingActions(lost: string, kept: string): seq<Action> {
    [Pull(Bytes(Encode(lost)))] + ([Turn(false)] + ([Pull(Bytes(Encode(kept)))] + ([Turn(true)] + FinalActions())))
  }

  lemma {:induction false} RunConcat(p: Provider, a: seq<Event>, b: seq<Event>)
    ensures RunAll(p, a + b) == RunAll(RunAll(p, a), b)
    decreases |a|
  {
    if a == [] {
      assert a + b == b;
    } else {
      assert (a + b)[1..] == a[1..] + b;
      RunConcat(Step(p, a[0]), a[1..], b);
    }
  }

  /** In this history the task finishes while active, and what it has sent is the complete stream of
      the shorter text, with its last chunk marked: the loss cannot be seen. */
  lemma EncryptionFailureIsSilent(c: Consumer, r: RequestName, lost: string, kept: string)
    requires ByteLen(lost) == SWARM_CHUNK_BYTES && kept != "" && ByteLen(kept) < SWARM_CHUNK_BYTES
    ensures var p := RunAll(INIT, Beginning(c, r, true) + Runs(LosingActions(lost, kept)));
      && |p.tasks| == 1
      && var t := p.tasks[0];
      && t.pc.Finished? && Active(p.slots, t) && t.text == lost + kept
      && t.chunks == StreamOf(kept, SWARM_CHUNK_BYTES) && t.chunks[|t.chunks| - 1].done
  {
    BeginsAsked(c, r, true);
    RunConcat(INIT, Beginning(c, r, true), Runs(LosingActions(lost, kept)));
    OnlyRuns(c, r, Asked(c, r, true), LosingActions(lost, kept));
    LosesSilently(map[c := Slot(r, 1)], Asked(c, r, true), lost, kept);
  }

  lemma LosesSilently(slots: map<Consumer, Slot>, t: Task, lost: string, kept: string)
    requires t == Asked(t.consumer, t.reqId, true) && Active(slots, t)
    requires ByteLen(lost) == SWARM_CHUNK_BYTES && kept != "" && ByteLen(kept) < SWARM_CHUNK_BYTES
    ensures var t' := ActAll(slots, t, LosingActions(lost, kept));
      && t'.pc.Finished? && Active(slots, t') && t'.text == lost + kept
      && t'.chunks == StreamOf(kept, SWARM_CHUNK_BYTES) == [Chunk(0, kept, true)]
  {
    var rest: seq<Action> := [Pull(Bytes(Encode(kept)))] + ([Turn(true)] + FinalActions());
    ActFirst(slots, t, Pull(Bytes(Encode(lost))), [Turn(false)] + rest);
    var t1 := Pulls(slots, t, lost);
    ActFirst(slots, t1, Turn(false), rest);
    var t2 := LosesAll(slots, t1);
    KeepsSecond(slots, t2, kept);
  }

  function FinalActions(): seq<Action> {
    [Pull(End)] + ([Turn(true)] + ([EmitChunk] + [Turn(true)]))
  }

  lemma KeepsSecond(slots: map<Consumer, Slot>, t: Task, kept: string)
    requires t.pc.Reading? && Active(slots, t) && t.sender == FRESH && t.chunks == []
    requires kept != "" && ByteLen(kept) < SWARM_CHUNK_BYTES
    ensures var t' := ActAll(slots, t, [Pull(Bytes(Encode(kept)))] + ([Turn(true)] + FinalActions()));
      && t'.pc.Finished? && Active(slots, t') && t'.text == t.text + kept
      && t'.chunks == StreamOf(kept, SWARM_CHUNK_BYTES) == [Chunk(0, kept, true)]
  {
    ActFirst(slots, t, Pull(Bytes(Encode(kept))), [Turn(true)] + FinalActions());
    var t1 := Pulls(slots, t, kept);
    ActFirst(slots, t1, Turn(true), FinalActions());
    var t2 := t1.(pc := Reading);
    assert Act(slots, t1, Turn(true)) == t2;
    ActFirst(slots, t2, Pull(End), [Turn(true)] + ([EmitChunk] + [Turn(true)]));
    ActFirst(slots, t2.(pc := Flushing(true)), Turn(true), [EmitChunk] + [Turn(true)]);
    EndsWith(slots, t2.(pc := Flushing(true)), kept);
  }

  lemma Pulls(slots: map<Consumer, Slot>, t: Task, piece: string) returns (t': Task)
    requires t.pc.Reading? && Active(slots, t) && t.sender.pending == ""
    ensures t' == Act(slots, t, Pull(Bytes(Encode(piece))))
    ensures t' == WithPiece(t.(items := t.items + [Encode(piece)]), piece) && t'.sender.pending == piece
  {
    DecodeEncoded(piece);
    t' := WithPiece(t.(items := t.items + [Encode(piece)]), piece);
    assert "" + piece == piece;
  }

  lemma LosesAll(slots: map<Consumer, Slot>, t: Task) returns (t': Task)
    requires t.pc == Flushing(false) && Active(slots, t) && ByteLen(t.sender.pending) == SWARM_CHUNK_BYTES
    ensures t' == Act(slots, t, Turn(false))
    ensures t' == t.(sender := Sender("", t.sender.next), lost := true, pc := Reading)
  {
    FitIsMaximal(t.sender.pending, SWARM_CHUNK_BYTES);
    t' := t.(sender := Sender("", t.sender.next), lost := true, pc := Reading);
  }

  lemma EndsWith(slots: map<Consumer, Slot>, t: Task, kept: string)
    requires t.pc == Flushing(true) && Active(slots, t) && t.sender == Sender(kept, 0) && t.chunks == []
    requires kept != "" && ByteLen(kept) < SWARM_CHUNK_BYTES
    ensures var t' := ActAll(slots, Act(slots, t, Turn(true)), [EmitChunk] + [Turn(true)]);
      t' == t.(sender := Sender("", 1), chunks := [Chunk(0, kept, true)], pc := Finished)
    ensures StreamOf(kept, SWARM_CHUNK_BYTES) == [Chunk(0, kept, true)]
  {
    assert kept[..|kept|] == kept;
    var t1 := t.(sender := Sender("", 1), pc := Emitting(Chunk(0, kept, true), true));
    ActFirst(slots, t1, EmitChunk, [Turn(true)]);
    assert [Turn(true)][1..] == [];
    var t2 := t1.(chunks := [Chunk(0, kept, true)], pc := Flushing(true));
    assert ActAll(slots, Act(slots, t2, Turn(true)), []) == Act(slots, t2, Turn(true));
  }
}
