/** The audit file recorder: append, gap records, rotation, shutdown, restart and crash. Functions
    `...On` are one step of the writer on a value; class `FileRecorder` is the code. A write either
    lands whole or not at all; only a crash tears a line. */
module AuditRecorder {
  import opened Wrappers
  import opened AuditChain
  import opened AuditFile

  datatype Event = Event(action: string, subject: string, denied: bool, err: string, detail: string)

  const STARTED: string := "audit.ChainStarted"
  const GAP: string := "audit.ChainGap"
  const ROTATED: string := "audit.Rotated"
  const CLOSED: string := "audit.Closed"
  const UNCLEAN: string := "audit.UncleanShutdown"

  function Kernel(action: string, denied: bool): Event { Event(action, "kernel", denied, "", "") }

  datatype Config = Config(h: Hasher, c: Codec, maxBytes: nat, maxFiles: nat, depth: nat)

  // The outcome of one write.
  datatype Io = Io(now: int, ok: bool)

  // The outcomes one writeRecord may meet: gap record, reopening and header of a new file, the record.
  datatype Env = Env(gap: Io, reopened: bool, header: Io, own: Io)

  /** Where every submitted event has gone, and how often a record of the recorder itself was lost. */
  datatype Books = Books(submitted: nat, events: nat, gaps: nat, forgotten: nat, internals: nat, silent: nat)

  const NoBooks: Books := Books(0, 0, 0, 0, 0, 0)

  // `rotated[i]` is audit.jsonl.i. `log` (every record of this chain so far) and `books` are history.
  datatype Recorder = Recorder(
    current: Bytes, rotated: map<nat, Bytes>, open: bool, seqno: nat, prev: string,
    dropped: nat, pending: nat, queue: seq<Event>,
    log: seq<Record>, books: Books)

  function NewRecord(h: Hasher, seqno: nat, prev: string, now: int, ev: Event): Record {
    var body := Content(CHAIN_VERSION, seqno, prev, now, ev.action, ev.subject, ev.denied, ev.err, ev.detail);
    Record(body, h(body))
  }

  // What an append is for.
  datatype Purpose = Submitted | Losses(lost: nat) | Internal

  function Entered(b: Books, why: Purpose, open: bool, ok: bool): Books {
    match why
    case Submitted => if !open then b.(silent := b.silent + 1) else if ok then b.(events := b.events + 1) else b
    case Losses(n) =>
      if !open then b.(forgotten := b.forgotten + n)
      else if ok then b.(gaps := b.gaps + n)
      else b.(forgotten := b.forgotten + n, internals := b.internals + 1)
    case Internal => if open && !ok then b.(internals := b.internals + 1) else b
  }

  /** The only place that writes. A failed write does not advance the chain; it is counted as a loss. */
  function AppendOn(g: Config, r: Recorder, ev: Event, why: Purpose, io: Io): Recorder {
    var b := Entered(r.books, why, r.open, io.ok);
    if !r.open then r.(books := b)
    else if !io.ok then r.(dropped := r.dropped + 1, books := b)
    else
      var rec := NewRecord(g.h, r.seqno + 1, r.prev, io.now, ev);
      r.(current := r.current + Line(g.c, rec), seqno := r.seqno + 1, prev := rec.hash,
         log := r.log + [rec], books := b)
  }

  function FlushGapOn(g: Config, r: Recorder, io: Io): Recorder {
    if r.dropped <= r.pending then r
    else AppendOn(g, r.(pending := r.dropped), Kernel(GAP, true), Losses(r.dropped - r.pending), io)
  }

  function Get(m: map<nat, Bytes>, i: nat): Option<Bytes> { if i in m then Some(m[i]) else None }

  // What audit.jsonl.i is after a rotation.
  function Moved(rotated: map<nat, Bytes>, current: Bytes, i: nat): Option<Bytes> {
    if i == 0 then None else if i == 1 then Some(current) else Get(rotated, i - 1)
  }

  /** Every rotated file moves up by one, the oldest is dropped, the current one becomes .1. */
  function Shifted(rotated: map<nat, Bytes>, current: Bytes, max: nat): map<nat, Bytes> {
    map i: nat | i <= max && Moved(rotated, current, i).Some? :: Moved(rotated, current, i).value
  }

  lemma ShiftedIs(rotated: map<nat, Bytes>, current: Bytes, max: nat, m: map<nat, Bytes>)
    requires forall i: nat :: Get(m, i) == if i <= max then Moved(rotated, current, i) else None
    ensures m == Shifted(rotated, current, max)
  {
    var s := Shifted(rotated, current, max);
    forall i: nat ensures i in m <==> i in s { assert Get(m, i) == if i <= max then Moved(rotated, current, i) else None; }
    forall i: nat | i in m ensures m[i] == s[i] { assert Get(m, i) == if i <= max then Moved(rotated, current, i) else None; }
  }

  function RotateOn(g: Config, r: Recorder, reopened: bool, io: Io): Recorder {
    if !r.open || |r.current| < g.maxBytes then r
    else
      var moved := r.(rotated := Shifted(r.rotated, r.current, g.maxFiles), current := []);
      if reopened then AppendOn(g, moved, Kernel(ROTATED, false), Internal, io) else moved.(open := false)
  }

  function WriteRecordOn(g: Config, r: Recorder, ev: Event, why: Purpose, e: Env): Recorder {
    AppendOn(g, RotateOn(g, FlushGapOn(g, r, e.gap), e.reopened, e.header), ev, why, e.own)
  }

  /** Record: queue the event, or count it as dropped. */
  function SubmitOn(g: Config, r: Recorder, ev: Event): Recorder {
    var b := r.books.(submitted := r.books.submitted + 1);
    if |r.queue| < g.depth then r.(queue := r.queue + [ev], books := b) else r.(dropped := r.dropped + 1, books := b)
  }

  function WriteNextOn(g: Config, r: Recorder, e: Env): Recorder {
    if r.queue == [] then r else WriteRecordOn(g, r.(queue := r.queue[1..]), r.queue[0], Submitted, e)
  }

  function DrainOn(g: Config, r: Recorder, envs: seq<Env>): Recorder {
    if envs == [] then r else WriteNextOn(g, DrainOn(g, r, envs[..|envs| - 1]), envs[|envs| - 1])
  }

  /** Shutdown: write out the queue, report losses, then the closing record. */
  function CloseOn(g: Config, r: Recorder, envs: seq<Env>, gap: Io, last: Io): Recorder {
    AppendOn(g, FlushGapOn(g, DrainOn(g, r, envs), gap), Kernel(CLOSED, false), Internal, last).(open := false)
  }

  /** A crash that kept n bytes of the current file; the chain is as long as what can still be read. */
  function CrashOn(g: Config, r: Recorder, n: nat): Recorder
    requires n <= |r.current|
  {
    var cut := r.current[..n];
    var lost := |Records(g.c, r.current)| - |Records(g.c, cut)|;
    r.(current := cut, open := false, queue := [], log := if 0 <= lost <= |r.log| then r.log[..|r.log| - lost] else r.log)
  }

  /** Startup: finish a torn last line, find the last link, and say so if there is none or if the last
      session did not end with its closing record. */
  function OpenOn(g: Config, r: Recorder, e: Env): Recorder {
    var r := r.(current := Terminated(r.current), open := true, dropped := 0, pending := 0, queue := [], books := NoBooks);
    var last := LastLinked(Records(g.c, r.current));
    match last
    case None => WriteRecordOn(g, r.(seqno := 0, prev := "", log := []), Kernel(STARTED, false), Internal, e)
    case Some(rec) =>
      var r := r.(seqno := rec.body.seqno, prev := rec.hash);
      if rec.body.action != CLOSED then WriteRecordOn(g, r, Kernel(UNCLEAN, true), Internal, e) else r
  }

  // The files while the renames have come down to i: those above it have moved up by one.
  function Renamed(was: map<nat, Bytes>, i: nat, max: nat, k: nat): Option<Bytes> {
    if k <= i then Get(was, k) else if i + 1 < k <= max then Get(was, k - 1) else None
  }

  lemma RenameNext(was: map<nat, Bytes>, m: map<nat, Bytes>, i: nat, max: nat)
    requires 1 <= i < max && forall k: nat :: Get(m, k) == Renamed(was, i, max, k)
    ensures var m' := if i in m then m[i + 1 := m[i]] - {i} else m;
            forall k: nat :: Get(m', k) == Renamed(was, i - 1, max, k)
  {
    var m' := if i in m then m[i + 1 := m[i]] - {i} else m;
    forall k: nat ensures Get(m', k) == Renamed(was, i - 1, max, k) {
      assert Get(m, k) == Renamed(was, i, max, k) && Get(m, i) == Renamed(was, i, max, i);
    }
  }

  lemma RenameLast(was: map<nat, Bytes>, m: map<nat, Bytes>, current: Bytes, max: nat)
    requires 0 < max && 0 !in was && forall k: nat :: Get(m, k) == Renamed(was, 0, max, k)
    ensures m[1 := current] == Shifted(was, current, max)
  {
    var m' := m[1 := current];
    forall k: nat ensures Get(m', k) == if k <= max then Moved(was, current, k) else None {
      assert Get(m, k) == Renamed(was, 0, max, k);
    }
    ShiftedIs(was, current, max, m');
  }

  // ------------------------------------------------------------------ the object

  class FileRecorder {
    const g: Config
    var current: Bytes
    var rotated: map<nat, Bytes>
    var open: bool
    var seqno: nat
    var prev: string
    var dropped: nat
    var pending: nat
    var queue: seq<Event>
    ghost var log: seq<Record>
    ghost var books: Books

    ghost function Value(): Recorder
      reads this
    {
      Recorder(current, rotated, open, seqno, prev, dropped, pending, queue, log, books)
    }

    method Append(ev: Event, ghost why: Purpose, io: Io)
      modifies this
      ensures Value() == AppendOn(g, old(Value()), ev, why, io)
    {
      books := Entered(books, why, open, io.ok);
      if !open { return; }
      var rec := NewRecord(g.h, seqno + 1, prev, io.now, ev);
      if !io.ok {
        dropped := dropped + 1;
        return;
      }
      current := current + Line(g.c, rec);
      seqno, prev := rec.body.seqno, rec.hash;
      log := log + [rec];
    }

    method FlushGap(io: Io)
      modifies this
      ensures Value() == FlushGapOn(g, old(Value()), io)
    {
      if dropped <= pending { return; }
      ghost var lost := dropped - pending;
      pending := dropped;
      Append(Kernel(GAP, true), Losses(lost), io);
    }

    /** Renames from the oldest down, so that nothing is overwritten. */
    method RotateIfNeeded(reopened: bool, io: Io)
      requires g.maxFiles > 0 && forall i :: i in rotated ==> 1 <= i <= g.maxFiles
      modifies this
      ensures Value() == RotateOn(g, old(Value()), reopened, io)
    {
      if !open || |current| < g.maxBytes { return; }
      ghost var was := rotated;
      rotated := rotated - {g.maxFiles};
      var i := g.maxFiles - 1;
      while i >= 1
        invariant 0 <= i < g.maxFiles
        invariant forall k: nat :: Get(rotated, k) == Renamed(was, i, g.maxFiles, k)
        invariant Value() == old(Value()).(rotated := rotated)
      {
        RenameNext(was, rotated, i, g.maxFiles);
        if i in rotated { rotated := rotated[i + 1 := rotated[i]] - {i}; }
        i := i - 1;
      }
      RenameLast(was, rotated, current, g.maxFiles);
      rotated := rotated[1 := current];
      current := [];
      if !reopened {
        open := false;
        return;
      }
      Append(Kernel(ROTATED, false), Internal, io);
    }

    method WriteRecord(ev: Event, ghost why: Purpose, e: Env)
      requires g.maxFiles > 0 && forall i :: i in rotated ==> 1 <= i <= g.maxFiles
      modifies this
      ensures Value() == WriteRecordOn(g, old(Value()), ev, why, e)
      ensures forall i :: i in rotated ==> 1 <= i <= g.maxFiles
    {
      FlushGap(e.gap);
      RotateIfNeeded(e.reopened, e.header);
      Append(ev, why, e.own);
    }

    /** Never blocks: a full queue costs a count. */
    method Record(ev: Event)
      modifies this
      ensures Value() == SubmitOn(g, old(Value()), ev)
    {
      books := books.(submitted := books.submitted + 1);
      if |queue| < g.depth { queue := queue + [ev]; } else { dropped := dropped + 1; }
    }

    method WriteNext(e: Env)
      requires g.maxFiles > 0 && forall i :: i in rotated ==> 1 <= i <= g.maxFiles
      modifies this
      ensures Value() == WriteNextOn(g, old(Value()), e)
      ensures forall i :: i in rotated ==> 1 <= i <= g.maxFiles
    {
      hide WriteRecordOn;
      if queue == [] { return; }
      var ev := queue[0];
      queue := queue[1..];
      WriteRecord(ev, Submitted, e);
    }

    method Close(envs: seq<Env>, gap: Io, last: Io)
      requires g.maxFiles > 0 && forall i :: i in rotated ==> 1 <= i <= g.maxFiles
      modifies this
      ensures Value() == CloseOn(g, old(Value()), envs, gap, last)
    {
      var n := 0;
      assert envs[..0] == [];
      while n < |envs|
        invariant 0 <= n <= |envs| && Value() == DrainOn(g, old(Value()), envs[..n])
        invariant forall i :: i in rotated ==> 1 <= i <= g.maxFiles
      {
        assert envs[..n + 1][..n] == envs[..n];
        WriteNext(envs[n]);
        n := n + 1;
      }
      assert envs[..n] == envs;
      FlushGap(gap);
      Append(Kernel(CLOSED, false), Internal, last);
      open := false;
    }

    method TerminateDanglingLine()
      modifies this`current
      ensures current == Terminated(old(current))
    {
      if |current| > 0 && current[|current| - 1] != NL { current := current + [NL]; }
    }

    method Open(e: Env)
      requires g.c.dec([]).None? && g.maxFiles > 0 && forall i :: i in rotated ==> 1 <= i <= g.maxFiles
      modifies this
      ensures Value() == OpenOn(g, old(Value()), e)
    {
      hide Records, LastLinked, WriteRecordOn;
      dropped, pending, queue, books, open := 0, 0, [], NoBooks, true;
      TerminateDanglingLine();
      var last := LastLink(g.c, current);
      if last.None? {
        seqno, prev, log := 0, "", [];
        WriteRecord(Kernel(STARTED, false), Internal, e);
        return;
      }
      seqno, prev := last.value.body.seqno, last.value.hash;
      if last.value.body.action != CLOSED { WriteRecord(Kernel(UNCLEAN, true), Internal, e); }
    }
  }
}
