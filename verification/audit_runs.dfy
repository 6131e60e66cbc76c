/** Whole histories of the audit recorder. */
module AuditRuns {
  import opened AuditChain
  import opened AuditFile
  import opened AuditRecorder
  import opened AuditProof

  datatype Op =
    | Submit(ev: Event)
    | WriteNext(e: Env)
    | Stop(envs: seq<Env>, gap: Io, last: Io)
    | Crash(n: nat)
    | Restart(e: Env)

  // `up`: a writer is running.
  datatype State = State(r: Recorder, up: bool)

  const Blank: State := State(Recorder([], map[], false, 0, "", 0, 0, [], [], NoBooks), false)

  function Do(g: Config, s: State, op: Op): State {
    match op
    case Submit(ev) => if s.up then s.(r := SubmitOn(g, s.r, ev)) else s
    case WriteNext(e) => if s.up then s.(r := WriteNextOn(g, s.r, e)) else s
    case Stop(envs, gap, last) => if s.up && |envs| == |s.r.queue| then State(CloseOn(g, s.r, envs, gap, last), false) else s
    case Crash(n) => if s.up && n <= |s.r.current| then State(CrashOn(g, s.r, n), false) else s
    case Restart(e) => if s.up then s else State(OpenOn(g, s.r, e), true)
  }

  function Exec(g: Config, ops: seq<Op>): State {
    if ops == [] then Blank else Do(g, Exec(g, ops[..|ops| - 1]), ops[|ops| - 1])
  }

  function StateAt(g: Config, ops: seq<Op>, n: nat): State
    requires n <= |ops|
  {
    Exec(g, ops[..n])
  }

  lemma AtNext(g: Config, ops: seq<Op>, n: nat)
    requires n < |ops|
    ensures StateAt(g, ops, n + 1) == Do(g, StateAt(g, ops, n), ops[n])
  {
    assert ops[..n + 1][..n] == ops[..n];
  }

  // ------------------------------------------------------------------ one chain

  ghost predicate DiskInv(g: Config, s: State) { if s.up then ChainInv(g, s.r) else AfterCrash(g, s.r) }

  lemma BlankKeeps(g: Config, s: State)
    requires Proper(g) && s == Blank
    ensures AfterCrash(g, s.r)
  {
    hide Faithful, Injective, Records;
    FaithfulGives(g.c);
    EmptyReads(g.c, []);
    NothingRotated(g.c, g.maxFiles);
    assert Built(g.c, [], []) && s.r.(current := Terminated(s.r.current)) == s.r;
    assert OnDisk(g, s.r, []);
  }

  lemma {:induction false} NothingRotated(c: Codec, k: nat)
    ensures Older(c, map[], k) == [] && Flat(Older(c, map[], k)) == []
  {
    if k > 0 { NothingRotated(c, k - 1); }
  }

  lemma SubmitKeeps(g: Config, r: Recorder, ev: Event)
    requires Proper(g) && ChainInv(g, r)
    ensures ChainInv(g, SubmitOn(g, r, ev))
  {
    hide ChainInv, Proper;
    Carry(g, r, SubmitOn(g, r, ev));
  }

  lemma StepKeeps(g: Config, s: State, op: Op)
    requires Proper(g) && DiskInv(g, s) && (op.Restart? && !s.up ==> Resumable(g, s.r))
    ensures DiskInv(g, Do(g, s, op))
  {
    hide ChainInv, AfterCrash, Proper, Resumable, SubmitOn, WriteNextOn, CloseOn, CrashOn, OpenOn;
    match op
    case Submit(ev) => if s.up { SubmitKeeps(g, s.r, ev); }
    case WriteNext(e) => if s.up { WriteNextKeeps(g, s.r, e); }
    case Stop(envs, gap, last) =>
      if s.up {
        CloseKeeps(g, s.r, envs, gap, last);
        ClosedIs(g, s.r, envs, gap, last);
        StopIsCrash(g, CloseOn(g, s.r, envs, gap, last));
      }
    case Crash(n) => if s.up && n <= |s.r.current| { CrashKeeps(g, s.r, n); }
    case Restart(e) => if !s.up { OpenKeeps(g, s.r, e); }
  }

  lemma ClosedIs(g: Config, r: Recorder, envs: seq<Env>, gap: Io, last: Io)
    ensures !CloseOn(g, r, envs, gap, last).open
  {
  }

  /** Over any history of events, losses, failed writes, rotations, restarts and crashes in which every
      start could find the end of the chain, what is on disk - read oldest file first - is a contiguous
      end of the one full chain, and the verifier of all files accepts it. */
  lemma {:induction false} FilesAreOneChain(g: Config, ops: seq<Op>, n: nat)
    requires Proper(g) && n <= |ops|
    requires forall m :: 0 <= m < n && ops[m].Restart? && !StateAt(g, ops, m).up ==> Resumable(g, StateAt(g, ops, m).r)
    ensures DiskInv(g, StateAt(g, ops, n))
    ensures var s := StateAt(g, ops, n);
            s.up ==> Chained(g.h, s.r.log, "", 1) && Suffix(Flat(Files(g, s.r)), s.r.log) && Consistent(g.h, Flat(Files(g, s.r)))
  {
    hide DiskInv, Do, Proper, Suffix, Consistent, Chained, Files, Resumable;
    if n == 0 {
      BlankKept(g);
    } else {
      FilesAreOneChain(g, ops, n - 1);
      AtNext(g, ops, n - 1);
      StepKeeps(g, StateAt(g, ops, n - 1), ops[n - 1]);
    }
    if StateAt(g, ops, n).up { UpGives(g, StateAt(g, ops, n)); }
  }

  lemma BlankKept(g: Config)
    requires Proper(g)
    ensures DiskInv(g, Blank) && !Blank.up
  {
    hide Proper, AfterCrash;
    BlankKeeps(g, Blank);
  }

  lemma UpGives(g: Config, s: State)
    requires s.up && DiskInv(g, s)
    ensures Chained(g.h, s.r.log, "", 1) && Suffix(Flat(Files(g, s.r)), s.r.log) && Consistent(g.h, Flat(Files(g, s.r)))
  {
    hide Records, Built, Older, Flat, Consistent;
    KeptIsConsistent(g, s.r);
  }

  // ------------------------------------------------------------------ histories without crashes and write errors

  predicate Fine(e: Env) { e.gap.ok && e.reopened && e.header.ok && e.own.ok }

  predicate Clean(op: Op) {
    match op
    case Submit(_) => true
    case WriteNext(e) => Fine(e)
    case Stop(envs, gap, last) => gap.ok && last.ok && forall i :: 0 <= i < |envs| ==> Fine(envs[i])
    case Crash(_) => false
    case Restart(e) => Fine(e)
  }

  // The current file holds a record, and it will stay so.
  ghost predicate Alive(g: Config, r: Recorder) { ChainInv(g, r) && r.open && Records(g.c, r.current) != [] }

  lemma AppendAlive(g: Config, r: Recorder, ev: Event, why: Purpose, io: Io)
    requires Proper(g) && ChainInv(g, r) && r.open && io.ok
    ensures Alive(g, AppendOn(g, r, ev, why, io))
  {
    hide Records, Built, Faithful, Injective, Suffix, Chained, Older;
    AppendKeeps(g, r, ev, why, io);
    var xs :| OnDisk(g, r, xs) && Linked(r);
    AppendBuilt(g.c, r.current, xs, NewRecord(g.h, r.seqno + 1, r.prev, io.now, ev));
  }

  lemma WriteAlive(g: Config, r: Recorder, ev: Event, why: Purpose, e: Env)
    requires Proper(g) && ChainInv(g, r) && r.open && Fine(e)
    ensures Alive(g, WriteRecordOn(g, r, ev, why, e))
  {
    hide ChainInv, Proper, Alive;
    FlushKeeps(g, r, e.gap);
    RotateKeeps(g, FlushGapOn(g, r, e.gap), e.reopened, e.header);
    AppendAlive(g, RotateOn(g, FlushGapOn(g, r, e.gap), e.reopened, e.header), ev, why, e.own);
  }

  lemma NextAlive(g: Config, r: Recorder, e: Env)
    requires Proper(g) && Alive(g, r) && Fine(e)
    ensures Alive(g, WriteNextOn(g, r, e))
  {
    hide ChainInv, Proper, WriteRecordOn;
    if r.queue != [] {
      Carry(g, r, r.(queue := r.queue[1..]));
      WriteAlive(g, r.(queue := r.queue[1..]), r.queue[0], Submitted, e);
    }
  }

  lemma {:induction false} DrainAlive(g: Config, r: Recorder, envs: seq<Env>)
    requires Proper(g) && Alive(g, r) && forall i :: 0 <= i < |envs| ==> Fine(envs[i])
    ensures Alive(g, DrainOn(g, r, envs))
  {
    hide Alive, Proper, WriteNextOn;
    if envs != [] {
      DrainAlive(g, r, envs[..|envs| - 1]);
      NextAlive(g, DrainOn(g, r, envs[..|envs| - 1]), envs[|envs| - 1]);
    }
  }

  lemma CloseAlive(g: Config, r: Recorder, envs: seq<Env>, gap: Io, last: Io)
    requires Proper(g) && Alive(g, r) && gap.ok && last.ok && forall i :: 0 <= i < |envs| ==> Fine(envs[i])
    ensures Records(g.c, CloseOn(g, r, envs, gap, last).current) != []
  {
    hide ChainInv, Proper, DrainOn, AppendOn;
    DrainAlive(g, r, envs);
    var d := DrainOn(g, r, envs);
    FlushKeeps(g, d, gap);
    FlushOpen(g, d, gap);
    AppendAlive(g, FlushGapOn(g, d, gap), Kernel(CLOSED, false), Internal, last);
  }

  lemma FlushOpen(g: Config, r: Recorder, io: Io)
    requires r.open
    ensures FlushGapOn(g, r, io).open
  {
  }

  lemma OpenAlive(g: Config, r: Recorder, e: Env)
    requires Proper(g) && AfterCrash(g, r) && Resumable(g, r) && Fine(e)
    ensures Alive(g, OpenOn(g, r, e))
  {
    hide AfterCrash, Proper, WriteRecordOn, Records, LastLinked, Terminated, Older, Flat, ChainInv, Alive;
    ReadsAlike(g, r);
    if Records(g.c, r.current) != [] {
      FoundKeeps(g, r);
      var last := LastLinked(Records(g.c, r.current)).value;
      var f := Found(r, last.body.seqno, last.hash);
      if last.body.action != CLOSED { WriteAlive(g, f, Kernel(UNCLEAN, true), Internal, e); } else { FoundAlive(g, f); }
    } else {
      NoLastLink();
      FreshKeeps(g, r);
      WriteAlive(g, Found(r, 0, "").(log := []), Kernel(STARTED, false), Internal, e);
    }
  }

  lemma FoundAlive(g: Config, r: Recorder)
    requires ChainInv(g, r) && r.open && Records(g.c, r.current) != []
    ensures Alive(g, r)
  {
  }

  ghost predicate CleanInv(g: Config, s: State) {
    if s.up then Alive(g, s.r) else AfterCrash(g, s.r) && (Records(g.c, s.r.current) != [] || s == Blank)
  }

  lemma BlankResumes(g: Config)
    requires Proper(g)
    ensures Resumable(g, Blank.r)
  {
    NothingRotated(g.c, g.maxFiles);
  }

  lemma CleanStep(g: Config, s: State, op: Op)
    requires Proper(g) && CleanInv(g, s) && Clean(op)
    ensures CleanInv(g, Do(g, s, op)) && (!s.up ==> Resumable(g, s.r))
  {
    hide AfterCrash, Proper, SubmitOn, WriteNextOn, CloseOn, OpenOn, Records, Older, Flat, ChainInv;
    if !s.up { if s == Blank { BlankResumes(g); } }
    match op
    case Submit(ev) => if s.up { SubmitKeeps(g, s.r, ev); SubmitSame(g, s.r, ev); }
    case WriteNext(e) => if s.up { NextAlive(g, s.r, e); }
    case Stop(envs, gap, last) =>
      if s.up {
        CloseKeeps(g, s.r, envs, gap, last);
        ClosedIs(g, s.r, envs, gap, last);
        StopIsCrash(g, CloseOn(g, s.r, envs, gap, last));
        CloseAlive(g, s.r, envs, gap, last);
      }
    case Restart(e) => if !s.up { OpenAlive(g, s.r, e); }
  }

  lemma SubmitSame(g: Config, r: Recorder, ev: Event)
    ensures SubmitOn(g, r, ev).current == r.current && SubmitOn(g, r, ev).open == r.open
  {
  }

  /** Without crashes and failed writes every restart finds the end of the chain, so the files always
      verify, whatever was queued, dropped or rotated. */
  lemma {:induction false} CleanHistoriesVerify(g: Config, ops: seq<Op>, n: nat)
    requires Proper(g) && n <= |ops| && forall m :: 0 <= m < n ==> Clean(ops[m])
    ensures CleanInv(g, StateAt(g, ops, n)) && (!StateAt(g, ops, n).up ==> Resumable(g, StateAt(g, ops, n).r))
    ensures StateAt(g, ops, n).up ==> Consistent(g.h, Flat(Files(g, StateAt(g, ops, n).r)))
  {
    hide CleanInv, Do, Proper, Consistent, Files, Resumable, Clean;
    if n == 0 { BlankClean(g); } else {
      CleanHistoriesVerify(g, ops, n - 1);
      AtNext(g, ops, n - 1);
      CleanStep(g, StateAt(g, ops, n - 1), ops[n - 1]);
    }
    CleanGives(g, StateAt(g, ops, n));
  }

  lemma BlankClean(g: Config)
    requires Proper(g)
    ensures CleanInv(g, Blank)
  {
    hide Proper, AfterCrash, Alive;
    BlankKeeps(g, Blank);
  }

  lemma CleanGives(g: Config, s: State)
    requires Proper(g) && CleanInv(g, s)
    ensures s.up ==> Consistent(g.h, Flat(Files(g, s.r)))
    ensures !s.up ==> Resumable(g, s.r)
  {
    hide Proper, Consistent, Files, Records, Older, Flat, ChainInv, AfterCrash;
    if s.up { KeptIsConsistent(g, s.r); } else if s == Blank { BlankResumes(g); }
  }

  // ------------------------------------------------------------------ accounting

  /** Where every event submitted since the start has gone. */
  predicate Balanced(r: Recorder) {
    && r.pending <= r.dropped
    && r.books.submitted + r.books.internals ==
       r.books.events + r.books.gaps + r.books.forgotten + (r.dropped - r.pending) + |r.queue| + r.books.silent
  }

  predicate NoErrors(b: Books) { b.internals == 0 && b.forgotten == 0 && b.silent == 0 }

  // One event is in the writer's hand, neither queued nor entered.
  predicate InHand(r: Recorder, n: nat) { r.pending <= r.dropped && Balanced(r.(books := r.books.(events := r.books.events + n))) }

  lemma AppendBalances(g: Config, r: Recorder, ev: Event, io: Io, n: nat)
    requires InHand(r, n)
    ensures n > 0 ==> InHand(AppendOn(g, r, ev, Submitted, io), n - 1)
    ensures InHand(AppendOn(g, r, ev, Internal, io), n)
    ensures r.open && io.ok && NoErrors(r.books) ==>
              NoErrors(AppendOn(g, r, ev, Submitted, io).books) && NoErrors(AppendOn(g, r, ev, Internal, io).books)
  {
  }

  lemma FlushBalances(g: Config, r: Recorder, io: Io, n: nat)
    requires InHand(r, n)
    ensures var s := FlushGapOn(g, r, io); InHand(s, n) && s.open == r.open && (r.open && io.ok && NoErrors(r.books) ==> NoErrors(s.books))
  {
  }

  lemma RotateBalances(g: Config, r: Recorder, reopened: bool, io: Io, n: nat)
    requires InHand(r, n)
    ensures var s := RotateOn(g, r, reopened, io);
            InHand(s, n) && (r.open && reopened && io.ok && NoErrors(r.books) ==> NoErrors(s.books) && s.open)
  {
  }

  lemma WriteBalances(g: Config, r: Recorder, ev: Event, why: Purpose, e: Env, n: nat)
    requires InHand(r, n) && ((why == Submitted && n > 0) || why == Internal)
    ensures var s := WriteRecordOn(g, r, ev, why, e);
            InHand(s, if why == Submitted then n - 1 else n) && (r.open && Fine(e) && NoErrors(r.books) ==> NoErrors(s.books) && s.open)
  {
    hide InHand, FlushGapOn, RotateOn, NoErrors;
    var f := FlushGapOn(g, r, e.gap);
    var t := RotateOn(g, f, e.reopened, e.header);
    FlushBalances(g, r, e.gap, n);
    RotateBalances(g, f, e.reopened, e.header, n);
    AppendBalances(g, t, ev, e.own, n);
  }

  lemma NextBalances(g: Config, r: Recorder, e: Env)
    requires InHand(r, 0)
    ensures var s := WriteNextOn(g, r, e); InHand(s, 0) && (r.open && Fine(e) && NoErrors(r.books) ==> NoErrors(s.books) && s.open)
  {
    hide WriteRecordOn;
    if r.queue != [] { WriteBalances(g, r.(queue := r.queue[1..]), r.queue[0], Submitted, e, 1); }
  }

  lemma {:induction false} DrainBalances(g: Config, r: Recorder, envs: seq<Env>)
    requires InHand(r, 0)
    ensures InHand(DrainOn(g, r, envs), 0)
    ensures r.open && NoErrors(r.books) && (forall i :: 0 <= i < |envs| ==> Fine(envs[i])) ==>
              NoErrors(DrainOn(g, r, envs).books) && DrainOn(g, r, envs).open
  {
    hide InHand, WriteNextOn, NoErrors, Fine;
    if envs != [] {
      DrainBalances(g, r, envs[..|envs| - 1]);
      NextBalances(g, DrainOn(g, r, envs[..|envs| - 1]), envs[|envs| - 1]);
    }
  }

  lemma {:induction false} DrainEmpties(g: Config, r: Recorder, envs: seq<Env>)
    requires |envs| <= |r.queue|
    ensures DrainOn(g, r, envs).queue == r.queue[|envs|..]
  {
    if envs != [] { DrainEmpties(g, r, envs[..|envs| - 1]); }
  }

  // One step of a session keeps the books balanced, and free of errors if the step is.
  lemma BooksStep(g: Config, s: State, op: Op)
    requires s.up ==> InHand(s.r, 0)
    ensures Do(g, s, op).up ==> InHand(Do(g, s, op).r, 0)
    ensures s.up && Clean(op) && s.r.open && NoErrors(s.r.books) && Do(g, s, op).up ==> NoErrors(Do(g, s, op).r.books) && Do(g, s, op).r.open
    ensures !s.up && op.Restart? && Clean(op) ==> NoErrors(Do(g, s, op).r.books) && Do(g, s, op).r.open
  {
    hide WriteNextOn, WriteRecordOn, Records, LastLinked, CloseOn, CrashOn;
    match op
    case Submit(ev) =>
    case WriteNext(e) => if s.up { NextBalances(g, s.r, e); }
    case Restart(e) =>
      if !s.up {
        var f := s.r.(current := Terminated(s.r.current), open := true, dropped := 0, pending := 0, queue := [], books := NoBooks);
        var last := LastLinked(Records(g.c, f.current));
        if last.None? { WriteBalances(g, f.(seqno := 0, prev := "", log := []), Kernel(STARTED, false), Internal, e, 0); }
        else { WriteBalances(g, f.(seqno := last.value.body.seqno, prev := last.value.hash), Kernel(UNCLEAN, true), Internal, e, 0); }
      }
    case _ =>
  }

  /** In every history whatever, the books of a running session balance: every submitted event has been
      written, reported lost in a gap record, forgotten with a gap record that could not be written, is
      still to be reported, or is queued - up to the recorder's own records that were lost and are counted
      as losses too. */
  lemma BooksAlwaysBalance(g: Config, ops: seq<Op>, n: nat)
    requires n <= |ops| && StateAt(g, ops, n).up
    ensures Balanced(StateAt(g, ops, n).r)
  {
    hide Do, InHand, Balanced;
    BooksRun(g, ops, n);
    InHandIs(StateAt(g, ops, n).r);
  }

  lemma InHandIs(r: Recorder)
    ensures InHand(r, 0) == Balanced(r)
  {
    assert r.(books := r.books.(events := r.books.events + 0)) == r;
  }

  lemma {:induction false} BooksRun(g: Config, ops: seq<Op>, n: nat)
    requires n <= |ops|
    ensures StateAt(g, ops, n).up ==> InHand(StateAt(g, ops, n).r, 0)
  {
    hide Do, InHand, Balanced;
    if n == 0 { assert ops[..0] == []; } else {
      BooksRun(g, ops, n - 1);
      AtNext(g, ops, n - 1);
      BooksStep(g, StateAt(g, ops, n - 1), ops[n - 1]);
    }
  }

  // Only a restart brings a writer up.
  lemma ComesUp(g: Config, s: State, op: Op)
    ensures !s.up && Do(g, s, op).up ==> op.Restart?
  {
  }

  /** Without write errors since the recorder was last down, every submitted event has been written, is part
      of a recorded gap, is a drop still to be recorded, or is queued. */
  lemma {:induction false} SessionBalances(g: Config, ops: seq<Op>, m: nat, n: nat)
    requires m <= n <= |ops| && !StateAt(g, ops, m).up && StateAt(g, ops, n).up
    requires forall j :: m <= j < n ==> Clean(ops[j])
    ensures var r := StateAt(g, ops, n).r;
            && r.open && NoErrors(r.books) && r.pending <= r.dropped
            && r.books.submitted == r.books.events + r.books.gaps + (r.dropped - r.pending) + |r.queue|
  {
    hide Do, InHand, Clean;
    BooksAlwaysBalance(g, ops, n);
    AtNext(g, ops, n - 1);
    BooksRun(g, ops, n - 1);
    var s := StateAt(g, ops, n - 1);
    ComesUp(g, s, ops[n - 1]);
    if s.up { SessionBalances(g, ops, m, n - 1); }
    BooksStep(g, s, ops[n - 1]);
  }

  lemma StopBalances(g: Config, r: Recorder, envs: seq<Env>, gap: Io, last: Io)
    requires InHand(r, 0) && |envs| == |r.queue|
    ensures var s := CloseOn(g, r, envs, gap, last); Balanced(s) && s.queue == []
    ensures r.open && NoErrors(r.books) && Clean(Stop(envs, gap, last)) ==>
            var s := CloseOn(g, r, envs, gap, last); NoErrors(s.books) && s.dropped == s.pending
  {
    hide DrainOn;
    DrainBalances(g, r, envs);
    DrainEmpties(g, r, envs);
    var d := DrainOn(g, r, envs);
    FlushBalances(g, d, gap, 0);
    FlushReports(g, d, gap);
    AppendBalances(g, FlushGapOn(g, d, gap), Kernel(CLOSED, false), last, 0);
  }

  lemma FlushReports(g: Config, r: Recorder, io: Io)
    requires r.pending <= r.dropped
    ensures var s := FlushGapOn(g, r, io); s.queue == r.queue && (r.open && io.ok ==> s.dropped == s.pending)
  {
  }

  predicate Stops(s: State, op: Op) { s.up && op.Stop? && |op.envs| == |s.r.queue| }

  /** After any shutdown, write errors or not, nothing is queued and the books balance. */
  lemma StopAccountsForAll(g: Config, ops: seq<Op>, n: nat)
    requires n < |ops| && Stops(StateAt(g, ops, n), ops[n])
    ensures var r := StateAt(g, ops, n + 1).r; Balanced(r) && r.queue == []
  {
    hide CloseOn, InHand, Balanced;
    AtNext(g, ops, n);
    BooksRun(g, ops, n);
    StopBalances(g, StateAt(g, ops, n).r, ops[n].envs, ops[n].gap, ops[n].last);
  }

  /** A shutdown of a session without write errors leaves nothing unaccounted: every submitted event was
      written or is part of a recorded gap. */
  lemma CleanStopAccountsForAll(g: Config, ops: seq<Op>, m: nat, n: nat)
    requires m <= n < |ops| && !StateAt(g, ops, m).up && Stops(StateAt(g, ops, n), ops[n])
    requires forall j :: m <= j <= n ==> Clean(ops[j])
    ensures var r := StateAt(g, ops, n + 1).r; r.books.submitted == r.books.events + r.books.gaps
  {
    hide CloseOn, InHand, Clean;
    SessionBalances(g, ops, m, n);
    StopAccountsForAll(g, ops, n);
    BooksRun(g, ops, n);
    AtNext(g, ops, n);
    StopBalances(g, StateAt(g, ops, n).r, ops[n].envs, ops[n].gap, ops[n].last);
  }

  /** A gap record that cannot be written takes the losses it was to report with it: only its own loss
      is counted. So losses are reported in full if and only if the gap write succeeds. */
  lemma GapWriteDecides(g: Config, r: Recorder, io: Io)
    requires r.open && r.pending < r.dropped
    ensures var s := FlushGapOn(g, r, io);
            && (s.books.gaps - r.books.gaps) + (s.dropped - s.pending) >= r.dropped - r.pending <==> io.ok || r.dropped - r.pending == 1
    ensures var s := FlushGapOn(g, r, io); !io.ok ==> s.dropped - s.pending == 1 && s.books.forgotten == r.books.forgotten + (r.dropped - r.pending)
  {
  }
}
