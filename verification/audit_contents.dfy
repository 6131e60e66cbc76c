/** What the audit log says: which record stands for which event, in which order, and what the recorder's own
    records are - over whole histories, field by field. */
module AuditContents {
  import opened Wrappers
  import opened AuditChain
  import opened AuditFile
  import opened AuditRecorder
  import opened AuditRuns

  /** What a record is about; `at` is the clock reading it was written with. */
  datatype Item = OfEvent(ev: Event) | ChainStarted | ChainGap | Rotated | Closed | UncleanShutdown
  datatype Note = Note(item: Item, at: int)

  predicate Says(rec: Record, note: Note) {
    && rec.body.v == 1 && rec.body.time == note.at
    && match note.item
       case OfEvent(ev) =>
         && rec.body.action == ev.action && rec.body.subject == ev.subject && rec.body.denied == ev.denied
         && rec.body.err == ev.err && rec.body.detail == ev.detail
       case ChainStarted => rec.body.action == "audit.ChainStarted" && rec.body.subject == "kernel" && !rec.body.denied
       case ChainGap => rec.body.action == "audit.ChainGap" && rec.body.subject == "kernel" && rec.body.denied
       case Rotated => rec.body.action == "audit.Rotated" && rec.body.subject == "kernel" && !rec.body.denied
       case Closed => rec.body.action == "audit.Closed" && rec.body.subject == "kernel" && !rec.body.denied
       case UncleanShutdown => rec.body.action == "audit.UncleanShutdown" && rec.body.subject == "kernel" && rec.body.denied
  }

  ghost predicate Tells(log: seq<Record>, notes: seq<Note>) {
    |log| == |notes| && forall i :: 0 <= i < |log| ==> Says(log[i], notes[i])
  }

  // ------------------------------------------------------------------ what each step adds

  function If(b: bool, note: Note): seq<Note> { if b then [note] else [] }

  /** One writeRecord: losses first, then the header of a new file, then the record itself - each only if its
      write lands. */
  function NotesOf(g: Config, r: Recorder, item: Item, e: Env): seq<Note> {
    var f := FlushGapOn(g, r, e.gap);
    var t := RotateOn(g, f, e.reopened, e.header);
    If(r.open && r.dropped > r.pending && e.gap.ok, Note(ChainGap, e.gap.now))
    + If(f.open && |f.current| >= g.maxBytes && e.reopened && e.header.ok, Note(Rotated, e.header.now))
    + If(t.open && e.own.ok, Note(item, e.own.now))
  }

  // Whether the record itself lands.
  predicate Lands(g: Config, r: Recorder, e: Env) { RotateOn(g, FlushGapOn(g, r, e.gap), e.reopened, e.header).open && e.own.ok }

  function NextNotes(g: Config, r: Recorder, e: Env): seq<Note> {
    if r.queue == [] then [] else NotesOf(g, r.(queue := r.queue[1..]), OfEvent(r.queue[0]), e)
  }

  function DrainNotes(g: Config, r: Recorder, envs: seq<Env>): seq<Note> {
    if envs == [] then [] else
      DrainNotes(g, r, envs[..|envs| - 1]) + NextNotes(g, DrainOn(g, r, envs[..|envs| - 1]), envs[|envs| - 1])
  }

  function CloseNotes(g: Config, r: Recorder, envs: seq<Env>, gap: Io, last: Io): seq<Note> {
    var d := DrainOn(g, r, envs);
    DrainNotes(g, r, envs) + If(d.open && d.dropped > d.pending && gap.ok, Note(ChainGap, gap.now)) + If(d.open && last.ok, Note(Closed, last.now))
  }

  /** What a start says: nothing after a clean stop. */
  function OpenNotes(g: Config, r: Recorder, e: Env): seq<Note> {
    var f := r.(current := Terminated(r.current), open := true, dropped := 0, pending := 0, queue := [], books := NoBooks);
    var last := LastLinked(Records(g.c, f.current));
    if last.None? then NotesOf(g, f, ChainStarted, e)
    else if last.value.body.action != "audit.Closed" then NotesOf(g, f, UncleanShutdown, e) else []
  }

  lemma AppendTells(g: Config, r: Recorder, ev: Event, why: Purpose, io: Io, notes: seq<Note>, note: Note)
    requires Tells(r.log, notes) && note.at == io.now
    requires match note.item
             case OfEvent(x) => ev == x
             case ChainStarted => ev == Kernel(STARTED, false)
             case ChainGap => ev == Kernel(GAP, true)
             case Rotated => ev == Kernel(ROTATED, false)
             case Closed => ev == Kernel(CLOSED, false)
             case UncleanShutdown => ev == Kernel(UNCLEAN, true)
    ensures Tells(AppendOn(g, r, ev, why, io).log, notes + If(r.open && io.ok, note))
  {
    var rec := NewRecord(g.h, r.seqno + 1, r.prev, io.now, ev);
    assert Says(rec, note);
  }

  lemma NotesTell(g: Config, r: Recorder, ev: Event, why: Purpose, e: Env, notes: seq<Note>, item: Item)
    requires Tells(r.log, notes)
    requires match item
             case OfEvent(x) => ev == x
             case ChainStarted => ev == Kernel(STARTED, false)
             case UncleanShutdown => ev == Kernel(UNCLEAN, true)
             case _ => false
    ensures Tells(WriteRecordOn(g, r, ev, why, e).log, notes + NotesOf(g, r, item, e))
  {
    hide Says, AppendOn, Tells, FlushGapOn, RotateOn, If;
    var f := FlushGapOn(g, r, e.gap);
    var t := RotateOn(g, f, e.reopened, e.header);
    var gap := If(r.open && r.dropped > r.pending && e.gap.ok, Note(ChainGap, e.gap.now));
    var header := If(f.open && |f.current| >= g.maxBytes && e.reopened && e.header.ok, Note(Rotated, e.header.now));
    FlushTells(g, r, e.gap, notes);
    RotateTells(g, f, e.reopened, e.header, notes + gap);
    AppendTells(g, t, ev, why, e.own, notes + gap + header, Note(item, e.own.now));
    assert notes + NotesOf(g, r, item, e) == notes + gap + header + If(t.open && e.own.ok, Note(item, e.own.now));
  }

  lemma FlushTells(g: Config, r: Recorder, io: Io, notes: seq<Note>)
    requires Tells(r.log, notes)
    ensures Tells(FlushGapOn(g, r, io).log, notes + If(r.open && r.dropped > r.pending && io.ok, Note(ChainGap, io.now)))
  {
    hide AppendOn, Says;
    if r.dropped > r.pending {
      AppendTells(g, r.(pending := r.dropped), Kernel(GAP, true), Losses(r.dropped - r.pending), io, notes, Note(ChainGap, io.now));
    } else { assert notes + [] == notes; }
  }

  lemma RotateTells(g: Config, r: Recorder, reopened: bool, io: Io, notes: seq<Note>)
    requires Tells(r.log, notes)
    ensures Tells(RotateOn(g, r, reopened, io).log,
                  notes + If(r.open && |r.current| >= g.maxBytes && reopened && io.ok, Note(Rotated, io.now)))
  {
    hide AppendOn, Says;
    if r.open && |r.current| >= g.maxBytes && reopened {
      var moved := r.(rotated := Shifted(r.rotated, r.current, g.maxFiles), current := []);
      AppendTells(g, moved, Kernel(ROTATED, false), Internal, io, notes, Note(Rotated, io.now));
    } else { assert notes + [] == notes; }
  }

  lemma NextTells(g: Config, r: Recorder, e: Env, notes: seq<Note>)
    requires Tells(r.log, notes)
    ensures Tells(WriteNextOn(g, r, e).log, notes + NextNotes(g, r, e))
  {
    hide Says, WriteRecordOn, NotesOf;
    if r.queue == [] { assert notes + [] == notes; }
    else { NotesTell(g, r.(queue := r.queue[1..]), r.queue[0], Submitted, e, notes, OfEvent(r.queue[0])); }
  }

  lemma {:induction false} DrainTells(g: Config, r: Recorder, envs: seq<Env>, notes: seq<Note>)
    requires Tells(r.log, notes)
    ensures Tells(DrainOn(g, r, envs).log, notes + DrainNotes(g, r, envs))
  {
    hide Tells, WriteNextOn, NextNotes;
    if envs == [] { assert notes + [] == notes; } else {
      var init := envs[..|envs| - 1];
      DrainTells(g, r, init, notes);
      NextTells(g, DrainOn(g, r, init), envs[|envs| - 1], notes + DrainNotes(g, r, init));
      assert notes + DrainNotes(g, r, envs) == notes + DrainNotes(g, r, init) + NextNotes(g, DrainOn(g, r, init), envs[|envs| - 1]);
    }
  }

  lemma CloseTells(g: Config, r: Recorder, envs: seq<Env>, gap: Io, last: Io, notes: seq<Note>)
    requires Tells(r.log, notes)
    ensures Tells(CloseOn(g, r, envs, gap, last).log, notes + CloseNotes(g, r, envs, gap, last))
  {
    hide Tells, AppendOn, DrainOn, DrainNotes;
    var d := DrainOn(g, r, envs);
    var a := notes + DrainNotes(g, r, envs);
    var b := a + If(d.open && d.dropped > d.pending && gap.ok, Note(ChainGap, gap.now));
    DrainTells(g, r, envs, notes);
    FlushTells(g, d, gap, a);
    FlushOpen2(g, d, gap);
    AppendTells(g, FlushGapOn(g, d, gap), Kernel(CLOSED, false), Internal, last, b, Note(Closed, last.now));
    assert notes + CloseNotes(g, r, envs, gap, last) == b + If(d.open && last.ok, Note(Closed, last.now));
  }

  lemma FlushOpen2(g: Config, r: Recorder, io: Io)
    ensures FlushGapOn(g, r, io).open == r.open
  {
  }

  lemma OpenTells(g: Config, r: Recorder, e: Env, notes: seq<Note>)
    requires Tells(r.log, notes)
    ensures Tells(OpenOn(g, r, e).log, (if LastLinked(Records(g.c, Terminated(r.current))).None? then [] else notes) + OpenNotes(g, r, e))
  {
    hide Says, WriteRecordOn, NotesOf, LastLinked, Records, Terminated;
    var f := r.(current := Terminated(r.current), open := true, dropped := 0, pending := 0, queue := [], books := NoBooks);
    var last := LastLinked(Records(g.c, f.current));
    if last.None? {
      NotesTell(g, f.(seqno := 0, prev := "", log := []), Kernel(STARTED, false), Internal, e, [], ChainStarted);
      SameNotes(g, f, f.(seqno := 0, prev := "", log := []), ChainStarted, e);
    } else if last.value.body.action != CLOSED {
      var h := f.(seqno := last.value.body.seqno, prev := last.value.hash);
      NotesTell(g, h, Kernel(UNCLEAN, true), Internal, e, notes, UncleanShutdown);
      SameNotes(g, f, h, UncleanShutdown, e);
    } else { assert notes + [] == notes; }
  }

  // A start has no losses to report yet.
  lemma SameNotes(g: Config, r: Recorder, s: Recorder, item: Item, e: Env)
    requires s == r.(seqno := s.seqno, prev := s.prev, log := s.log) && r.dropped == r.pending
    ensures NotesOf(g, s, item, e) == NotesOf(g, r, item, e)
  {
  }

  // ------------------------------------------------------------------ whole histories

  /** The story of the chain: one note per record of the log. */
  function Story(g: Config, ops: seq<Op>, n: nat): seq<Note>
    requires n <= |ops|
  {
    if n == 0 then [] else StoryNext(g, StateAt(g, ops, n - 1), ops[n - 1], Story(g, ops, n - 1))
  }

  function StoryNext(g: Config, s: State, op: Op, was: seq<Note>): seq<Note> {
    match op
    case Crash(n) =>
      if s.up && n <= |s.r.current| && |CrashOn(g, s.r, n).log| <= |was| then was[..|CrashOn(g, s.r, n).log|] else was
    case Restart(e) =>
      if s.up then was
      else (if LastLinked(Records(g.c, Terminated(s.r.current))).None? then [] else was) + OpenNotes(g, s.r, e)
    case _ => was + Adds(g, s, op)
  }

  /** What a running session adds. */
  function Adds(g: Config, s: State, op: Op): seq<Note> {
    match op
    case WriteNext(e) => if s.up then NextNotes(g, s.r, e) else []
    case Stop(envs, gap, last) => if s.up && |envs| == |s.r.queue| then CloseNotes(g, s.r, envs, gap, last) else []
    case _ => []
  }

  lemma StoryStep(g: Config, s: State, op: Op, was: seq<Note>)
    requires Tells(s.r.log, was)
    ensures Tells(Do(g, s, op).r.log, StoryNext(g, s, op, was))
  {
    hide WriteNextOn, CloseOn, OpenOn, Says, NextNotes, CloseNotes, OpenNotes, Records, LastLinked, Terminated;
    assert was + [] == was;
    match op
    case Submit(_) =>
    case WriteNext(e) => NextTells(g, s.r, e, was);
    case Stop(envs, gap, last) => CloseTells(g, s.r, envs, gap, last, was);
    case Crash(n) =>
    case Restart(e) => OpenTells(g, s.r, e, was);
  }

  /** Record by record the log says what its story says: each event record carries exactly the action, subject,
      denied mark, error and detail of its event and the time of its write; each of the recorder's own records is
      of the kernel, named and marked as its kind. */
  lemma {:induction false} LogTellsItsStory(g: Config, ops: seq<Op>, n: nat)
    requires n <= |ops|
    ensures Tells(StateAt(g, ops, n).r.log, Story(g, ops, n))
  {
    hide Do, StoryNext, Says;
    if n == 0 { assert ops[..0] == []; } else {
      LogTellsItsStory(g, ops, n - 1);
      AtNext(g, ops, n - 1);
      StoryStep(g, StateAt(g, ops, n - 1), ops[n - 1], Story(g, ops, n - 1));
    }
  }

  // ------------------------------------------------------------------ events in their order

  function EventsIn(notes: seq<Note>): seq<Event> {
    if notes == [] then [] else
      EventsIn(notes[..|notes| - 1]) + (match notes[|notes| - 1].item case OfEvent(ev) => [ev] case _ => [])
  }

  lemma {:induction false} EventsJoin(a: seq<Note>, b: seq<Note>)
    ensures EventsIn(a + b) == EventsIn(a) + EventsIn(b)
  {
    if b == [] { assert a + b == a; } else {
      assert (a + b)[..|a + b| - 1] == a + b[..|b| - 1];
      EventsJoin(a, b[..|b| - 1]);
    }
  }

  predicate Restarts(s: State, op: Op) { op.Restart? && !s.up }

  /** The events the session's queue has taken in, in the order of their submission. */
  function Accepted(g: Config, ops: seq<Op>, n: nat): seq<Event>
    requires n <= |ops|
  {
    if n == 0 then [] else
      var (s, op) := (StateAt(g, ops, n - 1), ops[n - 1]);
      if Restarts(s, op) then []
      else Accepted(g, ops, n - 1) + if op.Submit? && s.up && |s.r.queue| < g.depth then [op.ev] else []
  }

  /** Those the writer has taken out. */
  function TakenOut(g: Config, ops: seq<Op>, n: nat): seq<Event>
    requires n <= |ops|
  {
    if n == 0 then [] else
      var (s, op) := (StateAt(g, ops, n - 1), ops[n - 1]);
      if Restarts(s, op) then []
      else if op.WriteNext? && s.up && s.r.queue != [] then TakenOut(g, ops, n - 1) + [s.r.queue[0]]
      else if Stops(s, op) then TakenOut(g, ops, n - 1) + s.r.queue
      else TakenOut(g, ops, n - 1)
  }

  /** First in, first out: what was submitted and not dropped is what the writer has taken out, followed by what is
      queued. */
  lemma {:induction false} QueueIsInOrder(g: Config, ops: seq<Op>, n: nat)
    requires n <= |ops|
    ensures StateAt(g, ops, n).up ==> Accepted(g, ops, n) == TakenOut(g, ops, n) + StateAt(g, ops, n).r.queue
    ensures n > 0 && Stops(StateAt(g, ops, n - 1), ops[n - 1]) ==> Accepted(g, ops, n) == TakenOut(g, ops, n)
  {
    hide Do;
    if n > 0 {
      QueueIsInOrder(g, ops, n - 1);
      AtNext(g, ops, n - 1);
      QueueStep(g, StateAt(g, ops, n - 1), ops[n - 1]);
      var s := StateAt(g, ops, n - 1);
      if ops[n - 1].WriteNext? && s.r.queue != [] {
        assert s.r.queue == [s.r.queue[0]] + s.r.queue[1..];
      }
    } else { assert ops[..0] == []; }
  }

  lemma WriteQueue(g: Config, r: Recorder, ev: Event, why: Purpose, e: Env)
    ensures WriteRecordOn(g, r, ev, why, e).queue == r.queue
  {
  }

  lemma QueueStep(g: Config, s: State, op: Op)
    ensures var s' := Do(g, s, op);
            && (Restarts(s, op) ==> s'.r.queue == [] && s'.up)
            && (s.up && op.Submit? ==> s'.up && s'.r.queue == if |s.r.queue| < g.depth then s.r.queue + [op.ev] else s.r.queue)
            && (s.up && op.WriteNext? ==> s'.up && s'.r.queue == if s.r.queue == [] then [] else s.r.queue[1..])
            && (s.up && op.Restart? ==> s' == s)
            && (s.up && (op.Stop? || op.Crash?) ==> !s'.up || s' == s)
            && (!s.up && !op.Restart? ==> s' == s)
            && (Stops(s, op) ==> !s'.up)
  {
    hide WriteRecordOn, CloseOn, CrashOn, Records, LastLinked, Terminated;
    match op
    case WriteNext(e) => if s.r.queue != [] { WriteQueue(g, s.r.(queue := s.r.queue[1..]), s.r.queue[0], Submitted, e); }
    case Restart(e) => if !s.up { OpenQueue(g, s.r, e); }
    case _ =>
  }

  lemma OpenQueue(g: Config, r: Recorder, e: Env)
    ensures OpenOn(g, r, e).queue == []
  {
    hide WriteRecordOn, Records, LastLinked, Terminated;
    var f := r.(current := Terminated(r.current), open := true, dropped := 0, pending := 0, queue := [], books := NoBooks);
    var last := LastLinked(Records(g.c, f.current));
    if last.None? { WriteQueue(g, f.(seqno := 0, prev := "", log := []), Kernel(STARTED, false), Internal, e); }
    else { WriteQueue(g, f.(seqno := last.value.body.seqno, prev := last.value.hash), Kernel(UNCLEAN, true), Internal, e); }
  }

  /** What the running session has added to the story so far. */
  function Session(g: Config, ops: seq<Op>, n: nat): seq<Note>
    requires n <= |ops|
  {
    if n == 0 then [] else
      var (s, op) := (StateAt(g, ops, n - 1), ops[n - 1]);
      if Restarts(s, op) then OpenNotes(g, s.r, op.e) else Session(g, ops, n - 1) + Adds(g, s, op)
  }

  ghost predicate EndsIn(all: seq<Note>, part: seq<Note>) { |part| <= |all| && all[|all| - |part|..] == part }

  lemma EndsAlike(all: seq<Note>, part: seq<Note>, more: seq<Note>)
    requires EndsIn(all, part)
    ensures EndsIn(all + more, part + more)
  {
    assert (all + more)[|all| - |part|..] == all[|all| - |part|..] + more;
  }

  lemma EndsSelf(all: seq<Note>, more: seq<Note>)
    ensures EndsIn(all + more, more)
  {
  }

  lemma {:induction false} SessionIsLast(g: Config, ops: seq<Op>, n: nat)
    requires n <= |ops| && (StateAt(g, ops, n).up || (n > 0 && Stops(StateAt(g, ops, n - 1), ops[n - 1])))
    ensures EndsIn(Story(g, ops, n), Session(g, ops, n))
  {
    hide Do, OpenNotes, Adds, EndsIn, StoryNext;
    assert ops[..0] == [];
    AtNext(g, ops, n - 1);
    var s, op, was := StateAt(g, ops, n - 1), ops[n - 1], Story(g, ops, n - 1);
    GoesOn(g, s, op);
    if Restarts(s, op) { RestartEnds(g, s, op, was); } else {
      SessionIsLast(g, ops, n - 1);
      AddsOnly(g, s, op, was);
      EndsAlike(was, Session(g, ops, n - 1), Adds(g, s, op));
    }
  }

  lemma RestartEnds(g: Config, s: State, op: Op, was: seq<Note>)
    requires Restarts(s, op)
    ensures EndsIn(StoryNext(g, s, op, was), OpenNotes(g, s.r, op.e))
  {
    hide OpenNotes, Records, LastLinked, Terminated, EndsIn;
    var base := if LastLinked(Records(g.c, Terminated(s.r.current))).None? then [] else was;
    EndsSelf(base, OpenNotes(g, s.r, op.e));
  }

  lemma GoesOn(g: Config, s: State, op: Op)
    ensures Do(g, s, op).up && !Restarts(s, op) ==> s.up && (op.Crash? ==> op.n > |s.r.current|)
    ensures Stops(s, op) ==> s.up && !op.Crash? && !op.Restart?
  {
    hide WriteNextOn, CloseOn, OpenOn, CrashOn;
  }

  lemma AddsOnly(g: Config, s: State, op: Op, was: seq<Note>)
    requires s.up && (op.Crash? ==> op.n > |s.r.current|)
    ensures StoryNext(g, s, op, was) == was + Adds(g, s, op)
  {
    hide NextNotes, CloseNotes, CrashOn;
    assert was + [] == was;
  }

  // The events whose own write lands while the queue is written out.
  function DrainWritten(g: Config, r: Recorder, envs: seq<Env>): seq<Event> {
    if envs == [] then [] else
      var d := DrainOn(g, r, envs[..|envs| - 1]);
      DrainWritten(g, r, envs[..|envs| - 1]) + NextWritten(g, d, envs[|envs| - 1])
  }

  function NextWritten(g: Config, r: Recorder, e: Env): seq<Event> {
    if r.queue != [] && Lands(g, r.(queue := r.queue[1..]), e) then [r.queue[0]] else []
  }

  /** The events of the session that were taken out and whose own write landed. */
  function WrittenOut(g: Config, ops: seq<Op>, n: nat): seq<Event>
    requires n <= |ops|
  {
    if n == 0 then [] else
      var (s, op) := (StateAt(g, ops, n - 1), ops[n - 1]);
      if Restarts(s, op) then []
      else if op.WriteNext? && s.up then WrittenOut(g, ops, n - 1) + NextWritten(g, s.r, op.e)
      else if Stops(s, op) then WrittenOut(g, ops, n - 1) + DrainWritten(g, s.r, op.envs)
      else WrittenOut(g, ops, n - 1)
  }

  lemma IfEvents(b: bool, note: Note)
    ensures EventsIn(If(b, note)) == if b && note.item.OfEvent? then [note.item.ev] else []
  {
    if b { assert [note][..0] == []; }
  }

  lemma NotesEvents(g: Config, r: Recorder, item: Item, e: Env)
    ensures EventsIn(NotesOf(g, r, item, e)) == if item.OfEvent? && Lands(g, r, e) then [item.ev] else []
  {
    hide If, FlushGapOn, RotateOn, EventsIn;
    var f := FlushGapOn(g, r, e.gap);
    var t := RotateOn(g, f, e.reopened, e.header);
    var a, b := r.open && r.dropped > r.pending && e.gap.ok, f.open && |f.current| >= g.maxBytes && e.reopened && e.header.ok;
    IfEvents(a, Note(ChainGap, e.gap.now));
    IfEvents(b, Note(Rotated, e.header.now));
    IfEvents(t.open && e.own.ok, Note(item, e.own.now));
    EventsJoin(If(a, Note(ChainGap, e.gap.now)), If(b, Note(Rotated, e.header.now)));
    EventsJoin(If(a, Note(ChainGap, e.gap.now)) + If(b, Note(Rotated, e.header.now)), If(t.open && e.own.ok, Note(item, e.own.now)));
  }

  lemma NextEvents(g: Config, r: Recorder, e: Env)
    ensures EventsIn(NextNotes(g, r, e)) == NextWritten(g, r, e)
  {
    hide NotesOf, Lands;
    if r.queue != [] { NotesEvents(g, r.(queue := r.queue[1..]), OfEvent(r.queue[0]), e); }
  }

  lemma {:induction false} DrainEvents(g: Config, r: Recorder, envs: seq<Env>)
    ensures EventsIn(DrainNotes(g, r, envs)) == DrainWritten(g, r, envs)
  {
    hide NextNotes, NextWritten;
    if envs != [] {
      var d := DrainOn(g, r, envs[..|envs| - 1]);
      DrainEvents(g, r, envs[..|envs| - 1]);
      NextEvents(g, d, envs[|envs| - 1]);
      EventsJoin(DrainNotes(g, r, envs[..|envs| - 1]), NextNotes(g, d, envs[|envs| - 1]));
    }
  }

  lemma CloseEvents(g: Config, r: Recorder, envs: seq<Env>, gap: Io, last: Io)
    ensures EventsIn(CloseNotes(g, r, envs, gap, last)) == DrainWritten(g, r, envs)
  {
    hide DrainNotes, DrainOn, If, EventsIn, DrainWritten;
    var d := DrainOn(g, r, envs);
    var a, b := If(d.open && d.dropped > d.pending && gap.ok, Note(ChainGap, gap.now)), If(d.open && last.ok, Note(Closed, last.now));
    DrainEvents(g, r, envs);
    IfEvents(d.open && d.dropped > d.pending && gap.ok, Note(ChainGap, gap.now));
    IfEvents(d.open && last.ok, Note(Closed, last.now));
    EventsJoin(DrainNotes(g, r, envs), a);
    EventsJoin(DrainNotes(g, r, envs) + a, b);
  }

  lemma OpenEvents(g: Config, r: Recorder, e: Env)
    ensures EventsIn(OpenNotes(g, r, e)) == []
  {
    hide NotesOf, Records, LastLinked, Terminated;
    var f := r.(current := Terminated(r.current), open := true, dropped := 0, pending := 0, queue := [], books := NoBooks);
    NotesEvents(g, f, ChainStarted, e);
    NotesEvents(g, f, UncleanShutdown, e);
  }

  /** The event records of a session are, in the order of submission, exactly the events that were taken out and
      whose own write landed; the history counter of written events is their number. */
  lemma {:induction false} EventsInOrder(g: Config, ops: seq<Op>, n: nat)
    requires n <= |ops|
    ensures EventsIn(Session(g, ops, n)) == WrittenOut(g, ops, n)
    ensures StateAt(g, ops, n).up ==> StateAt(g, ops, n).r.books.events == |WrittenOut(g, ops, n)|
  {
    hide Do, OpenNotes, NextNotes, CloseNotes, NextWritten, DrainWritten;
    if n == 0 { assert ops[..0] == []; } else {
      EventsInOrder(g, ops, n - 1);
      AtNext(g, ops, n - 1);
      var s, op := StateAt(g, ops, n - 1), ops[n - 1];
      EventsCounted(g, s, op);
      QueueStep(g, s, op);
      if Restarts(s, op) { OpenEvents(g, s.r, op.e); } else {
        EventsJoin(Session(g, ops, n - 1), Adds(g, s, op));
        match op
        case WriteNext(e) => NextEvents(g, s.r, e);
        case Stop(envs, gap, last) => CloseEvents(g, s.r, envs, gap, last);
        case _ =>
      }
    }
  }

  lemma WriteCounts(g: Config, r: Recorder, ev: Event, why: Purpose, e: Env)
    requires why == Submitted || why == Internal
    ensures WriteRecordOn(g, r, ev, why, e).books.events ==
            r.books.events + if why == Submitted && Lands(g, r, e) then 1 else 0
  {
  }

  lemma EventsCounted(g: Config, s: State, op: Op)
    ensures var s' := Do(g, s, op);
            && (Restarts(s, op) ==> s'.r.books.events == 0)
            && (s'.up && !Restarts(s, op) ==>
                  s'.r.books.events == s.r.books.events + if op.WriteNext? then |NextWritten(g, s.r, op.e)| else 0)
  {
    hide WriteRecordOn, CloseOn, CrashOn, Records, LastLinked, Terminated, Lands;
    match op
    case WriteNext(e) => if s.r.queue != [] { WriteCounts(g, s.r.(queue := s.r.queue[1..]), s.r.queue[0], Submitted, e); }
    case Restart(e) =>
      if !s.up {
        var f := s.r.(current := Terminated(s.r.current), open := true, dropped := 0, pending := 0, queue := [], books := NoBooks);
        var last := LastLinked(Records(g.c, f.current));
        if last.None? { WriteCounts(g, f.(seqno := 0, prev := "", log := []), Kernel(STARTED, false), Internal, e); }
        else { WriteCounts(g, f.(seqno := last.value.body.seqno, prev := last.value.hash), Kernel(UNCLEAN, true), Internal, e); }
      }
    case _ =>
  }
}
