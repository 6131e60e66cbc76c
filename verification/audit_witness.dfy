/** Histories of the audit recorder that end where its documentation does not expect them to, for every
    configuration: a restart that breaks the chain, and a set of files the verifier cannot report on. */
module AuditWitness {
  import opened Wrappers
  import opened AuditChain
  import opened AuditFile
  import opened AuditRecorder
  import opened AuditProof
  import opened AuditRuns

  const Good: Env := Env(Io(0, true), true, Io(0, true), Io(0, true))

  lemma ExecNext(g: Config, ops: seq<Op>, op: Op)
    ensures Exec(g, ops + [op]) == Do(g, Exec(g, ops), op)
  {
    assert (ops + [op])[..|ops|] == ops;
  }

  // ------------------------------------------------------------------ a restart that breaks the chain

  // A running writer with nothing to do and nothing to report.
  ghost predicate Idle(g: Config, s: State) {
    s.up && Alive(g, s.r) && s.r.queue == [] && s.r.dropped == s.r.pending
  }

  lemma StartsIdle(g: Config)
    requires Proper(g) && g.maxBytes > 0
    ensures Idle(g, Exec(g, [Restart(Good)]))
  {
    hide Alive, AfterCrash, Proper, Records;
    ProperGives(g);
    BlankKeeps(g, Blank);
    BlankResumes(g);
    OpenAlive(g, Blank.r, Good);
    EmptyReads(g.c, []);
    ExecNext(g, [], Restart(Good));
    assert Exec(g, []) == Blank && [] + [Restart(Good)] == [Restart(Good)];
    NoLastLink();
  }

  lemma ProperGives(g: Config)
    requires Proper(g)
    ensures g.c.dec([]).None? && g.maxFiles > 0
  {
  }

  function Written(g: Config, s: State, ev: Event): State { Do(g, Do(g, s, Submit(ev)), WriteNext(Good)) }

  lemma WritesOne(g: Config, s: State, ev: Event)
    requires Proper(g) && g.depth > 0 && Idle(g, s)
    ensures Idle(g, Written(g, s, ev))
    ensures |s.r.current| < g.maxBytes ==> |Written(g, s, ev).r.current| > |s.r.current|
    ensures |s.r.current| >= g.maxBytes ==> Written(g, s, ev).r.rotated == Shifted(s.r.rotated, s.r.current, g.maxFiles)
  {
    hide Records, ChainInv, Proper;
    SubmitKeeps(g, s.r, ev);
    assert Alive(g, SubmitOn(g, s.r, ev));
    NextAlive(g, SubmitOn(g, s.r, ev), Good);
  }

  // Enough events fill the current file.
  lemma Fills(g: Config, ops: seq<Op>) returns (more: seq<Op>)
    requires Proper(g) && g.depth > 0 && Idle(g, Exec(g, ops))
    ensures Idle(g, Exec(g, more)) && |Exec(g, more).r.current| >= g.maxBytes
    decreases g.maxBytes - |Exec(g, ops).r.current|
  {
    hide Idle, Proper, Do;
    if |Exec(g, ops).r.current| >= g.maxBytes { more := ops; } else {
      var ev := Kernel("", false);
      WritesOne(g, Exec(g, ops), ev);
      ExecNext(g, ops, Submit(ev));
      ExecNext(g, ops + [Submit(ev)], WriteNext(Good));
      more := Fills(g, ops + [Submit(ev)] + [WriteNext(Good)]);
    }
  }

  lemma RotatedHolds(g: Config, r: Recorder)
    requires Proper(g) && Records(g.c, r.current) != []
    ensures Flat(Older(g.c, Shifted(r.rotated, r.current, g.maxFiles), g.maxFiles)) != []
  {
    hide Records, Older, Flat, Shifted;
    OlderShift(g.c, r.rotated, r.current, g.maxFiles, g.maxFiles - 1);
  }

  /** Whatever the configuration, there is a history - events up to a rotation, then a crash that loses the
      new file's bytes - after which the next start breaks the chain and the verifier rejects the files. */
  lemma RestartCanBreak(g: Config) returns (ops: seq<Op>)
    requires Proper(g) && g.depth > 0 && g.maxBytes > 0
    ensures var s := Exec(g, ops); !s.up && !Resumable(g, s.r)
    ensures !Consistent(g.h, Flat(Files(g, Exec(g, ops + [Restart(Good)]).r)))
  {
    hide Idle, Proper, Do, Records, Older, Flat, Consistent, Files, Alive, OpenOn;
    StartsIdle(g);
    ops := Fills(g, [Restart(Good)]);
    var s, ev := Exec(g, ops), Kernel("", false);
    WritesOne(g, s, ev);
    ExecNext(g, ops, Submit(ev));
    ops := ops + [Submit(ev)];
    ExecNext(g, ops, WriteNext(Good));
    ops := ops + [WriteNext(Good)];
    IdleGives(g, s);
    RotatedHolds(g, s.r);
    var t := Exec(g, ops);
    IdleGives(g, t);
    ProperGives(g);
    ExecNext(g, ops, Crash(0));
    ExecNext(g, ops + [Crash(0)], Restart(Good));
    CrashLoses(g, t);
    RestartVerifiesIff(g, t.r, 0, Good);
    ops := ops + [Crash(0)];
  }

  lemma IdleGives(g: Config, s: State)
    requires Idle(g, s)
    ensures s.up && ChainInv(g, s.r) && Records(g.c, s.r.current) != []
  {
  }

  lemma CrashLoses(g: Config, s: State)
    requires Proper(g) && s.up && g.maxBytes > 0
    requires Flat(Older(g.c, s.r.rotated, g.maxFiles)) != []
    ensures var d := Do(g, s, Crash(0));
            d == State(CrashOn(g, s.r, 0), false) && !Resumable(g, d.r) && Smooth(g, d.r, Good)
            && Do(g, d, Restart(Good)) == State(OpenOn(g, d.r, Good), true)
  {
    hide Proper, Older, Flat, OpenOn;
    ProperGives(g);
    EmptyReads(g.c, []);
  }

  // ------------------------------------------------------------------ an oldest file without a record

  // Down, with one file that holds nothing but torn lines.
  ghost predicate Junk(g: Config, s: State) {
    !s.up && AfterCrash(g, s.r) && Records(g.c, s.r.current) == [] && s.r.rotated == map[]
  }

  ghost predicate LongLines(c: Codec) { forall r: Record :: |c.enc(r)| > 1 }

  lemma JunkResumes(g: Config, s: State)
    requires Junk(g, s)
    ensures Resumable(g, s.r) && DiskInv(g, s)
  {
    NothingRotated(g.c, g.maxFiles);
  }

  function First(g: Config): Record { NewRecord(g.h, 1, "", 0, Kernel(STARTED, false)) }

  lemma JunkStarts(g: Config, s: State)
    requires Proper(g) && Junk(g, s) && |Terminated(s.r.current)| < g.maxBytes
    ensures var t := Do(g, s, Restart(Good));
            t.up && t.r.current == Terminated(s.r.current) + Line(g.c, First(g)) && t.r.rotated == map[] && DiskInv(g, t)
  {
    hide AfterCrash, Proper, Records, ChainInv, Resumable, Terminated;
    JunkResumes(g, s);
    ReadsAlike(g, s.r);
    NoLastLink();
    StepKeeps(g, s, Restart(Good));
  }

  // A crash tears the only record of a start.
  lemma JunkTears(g: Config, s: State, t: Bytes)
    requires Proper(g) && LongLines(g.c) && DiskInv(g, s) && s.up && s.r.rotated == map[]
    requires Whole(t) && Records(g.c, t) == [] && s.r.current == t + Line(g.c, First(g))
    ensures var d := Do(g, s, Crash(|t| + |g.c.enc(First(g))| - 1)); Junk(g, d) && |Terminated(d.r.current)| > |t|
  {
    hide AfterCrash, Faithful, Records, ChainInv, Resumable;
    var k := |g.c.enc(First(g))| - 1;
    StepKeeps(g, s, Crash(|t| + k));
    assert s.r.current[..|t| + k] == t + g.c.enc(First(g))[..k];
    BrokenLineReads(g.c, t, First(g), k);
  }

  lemma TerminatedIs(g: Config, r: Recorder)
    requires Proper(g)
    ensures Whole(Terminated(r.current)) && Records(g.c, Terminated(r.current)) == Records(g.c, r.current)
  {
    hide Faithful, Records;
    ReadsAlike(g, r);
  }

  // Enough torn starts fill the current file.
  lemma FillsTorn(g: Config, ops: seq<Op>) returns (more: seq<Op>)
    requires Proper(g) && LongLines(g.c) && Junk(g, Exec(g, ops))
    ensures Junk(g, Exec(g, more)) && |Terminated(Exec(g, more).r.current)| >= g.maxBytes
    decreases g.maxBytes - |Terminated(Exec(g, ops).r.current)|
  {
    hide Proper, Do, AfterCrash, Records, LongLines, Terminated;
    var s := Exec(g, ops);
    if |Terminated(s.r.current)| >= g.maxBytes { more := ops; } else {
      var t := Terminated(s.r.current);
      var n := |t| + |g.c.enc(First(g))| - 1;
      LongIs(g.c, First(g));
      TerminatedIs(g, s.r);
      JunkStarts(g, s);
      JunkTears(g, Do(g, s, Restart(Good)), t);
      ExecNext(g, ops, Restart(Good));
      ExecNext(g, ops + [Restart(Good)], Crash(n));
      more := FillsTorn(g, ops + [Restart(Good)] + [Crash(n)]);
    }
  }

  lemma LongIs(c: Codec, r: Record)
    requires LongLines(c)
    ensures |c.enc(r)| > 1
  {
  }

  lemma {:induction false} OnlyOne(c: Codec, data: Bytes, max: nat, k: nat)
    requires 1 <= k <= max
    ensures Older(c, Shifted(map[], data, max), k) == [Records(c, data)]
  {
    hide Records, Shifted;
    var m: map<nat, Bytes> := map[];
    ShiftedAt(m, data, max, k);
    if k > 1 { OnlyOne(c, data, max, k - 1); }
  }

  // The start rotates the torn lines away.
  lemma JunkRotates(g: Config, s: State)
    requires Proper(g) && Junk(g, s) && |Terminated(s.r.current)| >= g.maxBytes
    ensures var t := Do(g, s, Restart(Good));
            Alive(g, t.r) && t.r.rotated == Shifted(map[], Terminated(s.r.current), g.maxFiles)
  {
    hide AfterCrash, Proper, Records, ChainInv, Resumable, Terminated, Alive;
    JunkResumes(g, s);
    ReadsAlike(g, s.r);
    NoLastLink();
    OpenAlive(g, s.r, Good);
  }

  /** Whatever the configuration, there is a history after which the files verify but the oldest of them
      holds no record, so that the verifier's report panics. */
  lemma OldestCanBeEmpty(g: Config) returns (ops: seq<Op>)
    requires Proper(g) && LongLines(g.c)
    ensures var files := Files(g, Exec(g, ops).r);
            Flat(files) != [] && Consistent(g.h, Flat(files)) && files[0] == []
  {
    hide Proper, Do, AfterCrash, Records, LongLines, Older, Flat, Consistent, ChainInv, Shifted;
    BlankIsJunk(g);
    ops := FillsTorn(g, []);
    var s := Exec(g, ops);
    JunkRotates(g, s);
    TerminatedIs(g, s.r);
    ExecNext(g, ops, Restart(Good));
    ops := ops + [Restart(Good)];
    ProperGives(g);
    OnlyOne(g.c, Terminated(s.r.current), g.maxFiles, g.maxFiles);
    var r := Exec(g, ops).r;
    FilesAreKept(g, r);
    KeptIsConsistent(g, r);
  }

  lemma BlankIsJunk(g: Config)
    requires Proper(g)
    ensures Junk(g, Exec(g, []))
  {
    hide AfterCrash, Proper, Records;
    ProperGives(g);
    BlankKeeps(g, Blank);
    EmptyReads(g.c, []);
  }

  // ------------------------------------------------------------------ the assumptions can be met

  // A codec over the bytes 1, 2 and, at the end of a line only, 3.
  function Num(n: nat): Bytes { if n == 0 then [2] else [1] + Num(n - 1) }

  function Int(i: int): Bytes { if i < 0 then [1] + Num(-i) else [2] + Num(i) }

  function Str(s: string): Bytes { if s == [] then [2] else [1] + (Num(s[0] as nat) + Str(s[1..])) }

  function Body(b: Content): Bytes {
    Int(b.v) + (Num(b.seqno) + (Str(b.prev) + (Int(b.time) + (Str(b.action) + (Str(b.subject) +
    (Int(if b.denied then 1 else 0) + (Str(b.err) + Str(b.detail))))))))
  }

  function Enc(r: Record): Bytes { Body(r.body) + (Str(r.hash) + [3]) }

  predicate Plain(b: Bytes) { forall i :: 0 <= i < |b| ==> b[i] == 1 || b[i] == 2 }

  lemma {:induction false} NumCancels(m: nat, n: nat, x: Bytes, y: Bytes)
    requires Num(m) + x == Num(n) + y
    ensures m == n && x == y
  {
    assert (Num(m) + x)[1..] == Num(m)[1..] + x && (Num(n) + y)[1..] == Num(n)[1..] + y;
    assert (Num(m) + x)[0] == Num(m)[0] && (Num(n) + y)[0] == Num(n)[0];
    if m > 0 { NumCancels(m - 1, n - 1, x, y); } else { assert x == [] + x && y == [] + y; }
  }

  lemma IntCancels(m: int, n: int, x: Bytes, y: Bytes)
    requires Int(m) + x == Int(n) + y
    ensures m == n && x == y
  {
    hide Num;
    assert (Int(m) + x)[1..] == Int(m)[1..] + x && (Int(n) + y)[1..] == Int(n)[1..] + y;
    assert (Int(m) + x)[0] == Int(m)[0] && (Int(n) + y)[0] == Int(n)[0];
    NumCancels(if m < 0 then -m else m, if n < 0 then -n else n, x, y);
  }

  lemma {:induction false} StrCancels(s: string, t: string, x: Bytes, y: Bytes)
    requires Str(s) + x == Str(t) + y
    ensures s == t && x == y
    decreases |s|
  {
    assert (Str(s) + x)[1..] == Str(s)[1..] + x && (Str(t) + y)[1..] == Str(t)[1..] + y;
    assert (Str(s) + x)[0] == Str(s)[0] && (Str(t) + y)[0] == Str(t)[0];
    if s == [] { assert x == [] + x && y == [] + y; } else {
      var a, b := Str(s[1..]) + x, Str(t[1..]) + y;
      assert Str(s)[1..] + x == Num(s[0] as nat) + a && Str(t)[1..] + y == Num(t[0] as nat) + b;
      NumCancels(s[0] as nat, t[0] as nat, a, b);
      StrCancels(s[1..], t[1..], x, y);
      assert s == [s[0]] + s[1..] && t == [t[0]] + t[1..];
    }
  }

  lemma BodyCancels(a: Content, b: Content, x: Bytes, y: Bytes)
    requires Body(a) + x == Body(b) + y
    ensures a == b && x == y
  {
    hide Int, Num, Str;
    var (a8, b8) := (Str(a.detail) + x, Str(b.detail) + y);
    var (a7, b7) := (Str(a.err) + a8, Str(b.err) + b8);
    var (a6, b6) := (Int(if a.denied then 1 else 0) + a7, Int(if b.denied then 1 else 0) + b7);
    var (a5, b5) := (Str(a.subject) + a6, Str(b.subject) + b6);
    var (a4, b4) := (Str(a.action) + a5, Str(b.action) + b5);
    var (a3, b3) := (Int(a.time) + a4, Int(b.time) + b4);
    var (a2, b2) := (Str(a.prev) + a3, Str(b.prev) + b3);
    var (a1, b1) := (Num(a.seqno) + a2, Num(b.seqno) + b2);
    assert Body(a) + x == Int(a.v) + a1 && Body(b) + y == Int(b.v) + b1;
    IntCancels(a.v, b.v, a1, b1);
    NumCancels(a.seqno, b.seqno, a2, b2);
    StrCancels(a.prev, b.prev, a3, b3);
    IntCancels(a.time, b.time, a4, b4);
    StrCancels(a.action, b.action, a5, b5);
    StrCancels(a.subject, b.subject, a6, b6);
    IntCancels(if a.denied then 1 else 0, if b.denied then 1 else 0, a7, b7);
    StrCancels(a.err, b.err, a8, b8);
    StrCancels(a.detail, b.detail, x, y);
  }

  lemma EncInjective(q: Record, r: Record)
    requires Enc(q) == Enc(r)
    ensures q == r
  {
    BodyCancels(q.body, r.body, Str(q.hash) + [3], Str(r.hash) + [3]);
    StrCancels(q.hash, r.hash, [3], [3]);
  }

  lemma {:induction false} NumPlain(n: nat)
    ensures Plain(Num(n)) && Num(n) != []
  {
    if n > 0 { NumPlain(n - 1); }
  }

  lemma IntPlain(i: int)
    ensures Plain(Int(i)) && Int(i) != []
  {
    NumPlain(if i < 0 then -i else i);
  }

  lemma {:induction false} StrPlain(s: string)
    ensures Plain(Str(s)) && Str(s) != []
  {
    if s != [] { NumPlain(s[0] as nat); StrPlain(s[1..]); }
  }

  lemma Joined(a: Bytes, b: Bytes)
    requires Plain(a) && Plain(b)
    ensures Plain(a + b)
  {
  }

  lemma EncPlain(r: Record)
    ensures Enc(r) == Body(r.body) + Str(r.hash) + [3] && Plain(Body(r.body) + Str(r.hash)) && |Body(r.body)| > 0
  {
    hide Int, Num, Str;
    var b := r.body;
    IntPlain(b.v); NumPlain(b.seqno); StrPlain(b.prev); IntPlain(b.time); StrPlain(b.action); StrPlain(b.subject);
    IntPlain(if b.denied then 1 else 0); StrPlain(b.err); StrPlain(b.detail); StrPlain(r.hash);
    assert Plain(Body(b));
    Joined(Body(b), Str(r.hash));
  }

  lemma {:induction false} TrimPlain(b: Bytes)
    requires forall i :: 0 <= i < |b| ==> b[i] != NL && b[i] != CR
    ensures Trim(b) == b
  {
  }

  // A 3 ends a line and is nowhere else.
  lemma OnlyAtEnd(p: Bytes, q: Bytes, k: nat)
    requires Plain(p) && k <= |p|
    ensures (p + [3])[..k] == p[..k] && p[..k] != q + [3]
    ensures Trim(p[..k]) == p[..k] && Flawless(p + [3])
  {
    assert k > 0 ==> p[..k][k - 1] != 3;
    assert (q + [3])[|q|] == 3;
    TrimPlain(p[..k]);
  }

  // What the encoding of a record starts with is no encoding itself.
  lemma EncEnds(q: Record, r: Record, k: nat)
    requires k < |Enc(r)|
    ensures Trim(Enc(r)[..k]) == Enc(r)[..k] && Enc(q) != Enc(r)[..k] && Flawless(Enc(r))
  {
    hide Body, Str, Enc, Trim;
    EncPlain(q);
    EncPlain(r);
    OnlyAtEnd(Body(r.body) + Str(r.hash), Body(q.body) + Str(q.hash), k);
  }

  ghost function Dec(b: Bytes): (r: Option<Record>)
    ensures r.Some? ==> Enc(r.value) == b
    ensures r.None? ==> forall q :: Enc(q) != b
  {
    if q: Record :| Enc(q) == b then Some(q) else None
  }

  lemma DecIs(b: Bytes, r: Record)
    requires Enc(r) == b
    ensures Dec(b) == Some(r)
  {
    EncInjective(Dec(b).value, r);
  }

  function Digest(b: Content): string { seq(|Body(b)|, i requires 0 <= i < |Body(b)| => Body(b)[i] as char) }

  lemma DigestInjective(a: Content, b: Content)
    requires Digest(a) == Digest(b)
    ensures a == b
  {
    var x, y := Body(a), Body(b);
    assert |Digest(a)| == |x| && |Digest(b)| == |y|;
    forall i | 0 <= i < |x| ensures x[i] == y[i] { assert Digest(a)[i] == Digest(b)[i]; }
    assert x + [] == y + [];
    BodyCancels(a, b, [], []);
  }

  /** The assumptions on the hash and the line codec can be met together. */
  lemma ProperExists() returns (g: Config)
    ensures Proper(g) && LongLines(g.c) && g.depth > 0 && g.maxBytes > 0
  {
    hide Body, Num, Int, Str, Enc, Digest;
    var c := Codec(r => Enc(r), b => Dec(b));
    g := Config(b => Digest(b), c, 1, 1, 1);
    forall a, b: Content | Digest(a) == Digest(b) ensures a == b { DigestInjective(a, b); }
    forall b: Content ensures Digest(b) != "" { DigestSome(b); }
    forall r: Record ensures Dec(Enc(r)) == Some(r) && Flawless(Enc(r)) && |Enc(r)| > 1 {
      DecIs(Enc(r), r);
      EncLong(r);
      EncEnds(r, r, 0);
    }
    forall r: Record, k | 0 <= k < |Enc(r)| ensures Dec(Trim(Enc(r)[..k])).None? {
      forall q: Record ensures Enc(q) != Enc(r)[..k] && Trim(Enc(r)[..k]) == Enc(r)[..k] { EncEnds(q, r, k); }
    }
    forall q: Record ensures Enc(q) != [] { EncLong(q); }
    assert Faithful(c);
  }

  lemma EncLong(r: Record)
    ensures |Enc(r)| > 1
  {
    EncPlain(r);
  }

  lemma DigestSome(b: Content)
    ensures Digest(b) != ""
  {
    EncPlain(Record(b, ""));
  }
}
