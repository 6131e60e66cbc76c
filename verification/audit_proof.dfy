/** What the recorder's files say, over any history of writes, losses, rotations, restarts and crashes. */
module AuditProof {
  import opened Wrappers
  import opened AuditChain
  import opened AuditFile
  import opened AuditRecorder

  // ------------------------------------------------------------------ the files as lines

  // One line of a file: a record, or the first k bytes of one that a crash tore.
  datatype Chunk = Full(r: Record) | Torn(r: Record, k: nat)

  function ChunkBytes(c: Codec, x: Chunk): Bytes
    requires x.Torn? ==> x.k <= |c.enc(x.r)|
  {
    (match x case Full(r) => c.enc(r) case Torn(r, k) => c.enc(r)[..k]) + [NL]
  }

  predicate ChunkOk(c: Codec, x: Chunk) { x.Torn? ==> 0 < x.k < |c.enc(x.r)| }

  ghost predicate AllOk(c: Codec, xs: seq<Chunk>) { forall i :: 0 <= i < |xs| ==> ChunkOk(c, xs[i]) }

  ghost function BytesOf(c: Codec, xs: seq<Chunk>): Bytes
    requires AllOk(c, xs)
  {
    if xs == [] then [] else BytesOf(c, xs[..|xs| - 1]) + ChunkBytes(c, xs[|xs| - 1])
  }

  function Told(xs: seq<Chunk>): seq<Record> {
    if xs == [] then []
    else Told(xs[..|xs| - 1]) + match xs[|xs| - 1] case Full(r) => [r] case Torn(_, _) => []
  }

  ghost predicate Built(c: Codec, data: Bytes, xs: seq<Chunk>) {
    AllOk(c, xs) && data == BytesOf(c, xs)
  }

  lemma {:induction false} BuiltReads(c: Codec, data: Bytes, xs: seq<Chunk>)
    requires Faithful(c) && Built(c, data, xs)
    ensures Records(c, data) == Told(xs) && Whole(data)
    decreases |xs|
  {
    hide Records, Faithful, Parse;
    if xs == [] { FaithfulGives(c); EmptyReads(c, data); } else {
      var init, x := xs[..|xs| - 1], xs[|xs| - 1];
      var head := BytesOf(c, init);
      BuiltReads(c, head, init);
      match x
      case Full(r) => AppendReads(c, head, r);
      case Torn(r, k) =>
        FaithfulGives(c);
        BrokenLineReads(c, head, r, k);
        TornEnds(c, r, k);
        assert head + c.enc(r)[..k] + [NL] == head + ChunkBytes(c, x);
        assert Terminated(head + c.enc(r)[..k]) == head + ChunkBytes(c, x);
    }
  }

  lemma FaithfulGives(c: Codec)
    requires Faithful(c)
    ensures c.dec([]).None?
  {
  }

  // A torn line does not happen to end in a newline.
  lemma TornEnds(c: Codec, r: Record, k: nat)
    requires Faithful(c) && 0 < k <= |c.enc(r)|
    ensures c.enc(r)[k - 1] != NL
  {
    assert c.enc(r)[k - 1] in c.enc(r);
  }

  // The bytes of the first m lines.
  ghost function BytesTo(c: Codec, xs: seq<Chunk>, m: nat): Bytes
    requires AllOk(c, xs) && m <= |xs|
  {
    BytesOf(c, xs[..m])
  }

  /** The lines that end within the first n bytes, the newline of the last one not counted. */
  ghost predicate Within(c: Codec, xs: seq<Chunk>, n: nat, m: nat)
    requires AllOk(c, xs)
  {
    m <= |xs| && |BytesTo(c, xs, m)| <= n + 1 && (m < |xs| ==> n + 1 < |BytesTo(c, xs, m + 1)|)
  }

  lemma WithinInit(c: Codec, xs: seq<Chunk>, n: nat, m: nat)
    requires AllOk(c, xs) && xs != [] && Within(c, xs[..|xs| - 1], n, m) && n + 1 < |BytesOf(c, xs)|
    ensures Within(c, xs, n, m)
  {
    var init := xs[..|xs| - 1];
    assert init[..m] == xs[..m] && (m < |init| ==> init[..m + 1] == xs[..m + 1]);
    assert xs[..|xs|] == xs;
  }

  lemma WithinAll(c: Codec, xs: seq<Chunk>, n: nat)
    requires AllOk(c, xs) && |BytesOf(c, xs)| <= n + 1
    ensures Within(c, xs, n, |xs|)
  {
    assert xs[..|xs|] == xs;
  }

  /** Cut a file after any number of bytes: exactly the lines that end within them survive - the last one
      even if only its newline is gone - and perhaps a torn line that decodes to nothing. */
  lemma {:induction false} CutBuilt(c: Codec, data: Bytes, xs: seq<Chunk>, n: nat) returns (ys: seq<Chunk>, m: nat)
    requires Faithful(c) && Built(c, data, xs) && n <= |data|
    ensures Built(c, Terminated(data[..n]), ys) && Within(c, xs, n, m) && Told(ys) == Told(xs[..m])
    decreases |xs|
  {
    hide Faithful, Within;
    if xs == [] {
      ys, m := [], 0;
      WithinAll(c, xs, n);
    } else {
      var init, x := xs[..|xs| - 1], xs[|xs| - 1];
      var head := BytesOf(c, init);
      if n <= |head| {
        ys, m := CutBuilt(c, head, init, n);
        assert data[..n] == head[..n];
        LineIsLong(c, x);
        WithinIs(c, init, n, m);
        WithinInit(c, xs, n, m);
        assert init[..m] == xs[..m];
      } else {
        if n == |data| {
          ys := xs;
          assert data[..n] == data;
          BuiltReads(c, data, xs);
        } else {
          ys := CutLine(c, init, x, n - |head|);
          assert data[..n] == head + ChunkBytes(c, x)[..n - |head|];
        }
        if n + 1 >= |data| {
          m := |xs|;
          WithinAll(c, xs, n);
          assert xs[..m] == xs;
        } else {
          m := |init|;
          WithinAll(c, init, n);
          WithinInit(c, xs, n, m);
        }
      }
    }
  }

  lemma LineIsLong(c: Codec, x: Chunk)
    requires Faithful(c) && ChunkOk(c, x)
    ensures |ChunkBytes(c, x)| > 1
  {
    match x case Full(r) => assert Flawless(c.enc(r)); case Torn(_, _) =>
  }

  lemma WithinIs(c: Codec, xs: seq<Chunk>, n: nat, m: nat)
    requires AllOk(c, xs) && Within(c, xs, n, m)
    ensures m <= |xs|
  {
  }

  lemma BuiltNext(c: Codec, init: seq<Chunk>, x: Chunk)
    requires AllOk(c, init) && ChunkOk(c, x)
    ensures AllOk(c, init + [x]) && BytesOf(c, init + [x]) == BytesOf(c, init) + ChunkBytes(c, x)
    ensures Told(init + [x]) == Told(init) + (if x.Full? then [x.r] else [])
  {
    var xs := init + [x];
    assert xs[..|xs| - 1] == init && xs[|xs| - 1] == x;
  }

  lemma FinishesLine(head: Bytes, part: Bytes)
    requires part != [] && part[|part| - 1] != NL
    ensures Terminated(head + part) == head + (part + [NL])
  {
    assert (head + part)[|head + part| - 1] == part[|part| - 1];
  }

  lemma CutLine(c: Codec, init: seq<Chunk>, x: Chunk, m: nat) returns (ys: seq<Chunk>)
    requires Faithful(c) && AllOk(c, init) && ChunkOk(c, x) && 0 < m < |ChunkBytes(c, x)|
    ensures Built(c, Terminated(BytesOf(c, init) + ChunkBytes(c, x)[..m]), ys)
    ensures Told(ys) == Told(if m + 1 == |ChunkBytes(c, x)| then init + [x] else init)
  {
    hide Faithful, BytesOf, Told, Terminated;
    var r, part := x.r, ChunkBytes(c, x)[..m];
    assert part == c.enc(r)[..m];
    TornEnds(c, r, m);
    FinishesLine(BytesOf(c, init), part);
    var last := if m == |c.enc(r)| then Full(r) else Torn(r, m);
    if m == |c.enc(r)| { assert c.enc(r)[..m] == c.enc(r) && x.Full?; }
    assert ChunkBytes(c, last) == part + [NL];
    ys := init + [last];
    BuiltNext(c, init, last);
    BuiltNext(c, init, x);
  }

  // ------------------------------------------------------------------ all retained files

  function Present(c: Codec, data: Option<Bytes>): seq<seq<Record>> {
    match data case None => [] case Some(d) => [Records(c, d)]
  }

  /** The rotated files from the oldest to the newest, as the verifier reads them. */
  function Older(c: Codec, rotated: map<nat, Bytes>, max: nat): seq<seq<Record>> {
    if max == 0 then [] else Present(c, Get(rotated, max)) + Older(c, rotated, max - 1)
  }

  function Files(g: Config, r: Recorder): seq<seq<Record>> { Older(g.c, r.rotated, g.maxFiles) + [Records(g.c, r.current)] }

  /** Every record on disk, oldest first. */
  function Kept(g: Config, r: Recorder): seq<Record> { Flat(Older(g.c, r.rotated, g.maxFiles)) + Records(g.c, r.current) }

  lemma {:induction false} FlatJoin(a: seq<seq<Record>>, b: seq<seq<Record>>)
    ensures Flat(a + b) == Flat(a) + Flat(b)
  {
    if b == [] { assert a + b == a; } else {
      assert (a + b)[..|a + b| - 1] == a + b[..|b| - 1];
      FlatJoin(a, b[..|b| - 1]);
    }
  }

  lemma FilesAreKept(g: Config, r: Recorder)
    ensures Flat(Files(g, r)) == Kept(g, r)
  {
    FlatJoin(Older(g.c, r.rotated, g.maxFiles), [Records(g.c, r.current)]);
    assert [Records(g.c, r.current)][..0] == [];
  }

  lemma OlderStep(c: Codec, rotated: map<nat, Bytes>, k: nat)
    requires k > 0
    ensures Flat(Older(c, rotated, k)) == Flat(Present(c, Get(rotated, k))) + Flat(Older(c, rotated, k - 1))
    ensures Flat(Present(c, Get(rotated, k))) == if k in rotated then Records(c, rotated[k]) else []
  {
    hide Records;
    FlatJoin(Present(c, Get(rotated, k)), Older(c, rotated, k - 1));
    FlatOne(Present(c, Get(rotated, k)));
  }

  lemma {:induction false} OlderShift(c: Codec, rotated: map<nat, Bytes>, current: Bytes, max: nat, k: nat)
    requires k < max
    ensures Flat(Older(c, Shifted(rotated, current, max), k + 1)) == Flat(Older(c, rotated, k)) + Records(c, current)
  {
    hide Records, Older, Flat, Shifted, Present;
    var s := Shifted(rotated, current, max);
    ShiftedAt(rotated, current, max, k + 1);
    OlderStep(c, s, k + 1);
    if k == 0 {
      OlderNone(c, rotated);
      OlderNone(c, s);
    } else {
      OlderShift(c, rotated, current, max, k - 1);
      OlderStep(c, rotated, k);
    }
  }

  lemma ShiftedAt(rotated: map<nat, Bytes>, current: Bytes, max: nat, k: nat)
    requires k <= max
    ensures Get(Shifted(rotated, current, max), k) == Moved(rotated, current, k)
  {
  }

  lemma OlderNone(c: Codec, rotated: map<nat, Bytes>)
    ensures Older(c, rotated, 0) == [] && Flat(Older(c, rotated, 0)) == []
  {
  }

  lemma FlatOne(files: seq<seq<Record>>)
    requires |files| <= 1
    ensures Flat(files) == if files == [] then [] else files[0]
  {
    if files != [] { assert files[..0] == []; }
  }

  /** Rotation keeps every record except those of the file that falls out. */
  lemma RotationKeeps(g: Config, r: Recorder)
    requires g.maxFiles > 0 && g.c.dec([]).None?
    ensures var s := r.(rotated := Shifted(r.rotated, r.current, g.maxFiles), current := []);
            Kept(g, r) == (if g.maxFiles in r.rotated then Records(g.c, r.rotated[g.maxFiles]) else []) + Kept(g, s)
  {
    hide Records, Older, Flat, Shifted, Present;
    var m := g.maxFiles;
    OlderShift(g.c, r.rotated, r.current, m, m - 1);
    EmptyReads(g.c, []);
    OlderStep(g.c, r.rotated, m);
  }

  // ------------------------------------------------------------------ the invariant

  ghost predicate Suffix(a: seq<Record>, b: seq<Record>) { |a| <= |b| && b[|b| - |a|..] == a }

  lemma SuffixAppend(a: seq<Record>, b: seq<Record>, r: Record)
    requires Suffix(a, b)
    ensures Suffix(a + [r], b + [r])
  {
    assert (b + [r])[|b| - |a|..] == b[|b| - |a|..] + [r];
  }

  lemma SuffixDrop(a: seq<Record>, b: seq<Record>, gone: seq<Record>)
    requires Suffix(gone + a, b)
    ensures Suffix(a, b)
  {
    assert b[|b| - |a|..] == (gone + a)[|gone|..];
  }

  /** What is on disk is the end of one unbroken chain. */
  ghost predicate OnDisk(g: Config, r: Recorder, xs: seq<Chunk>) {
    && Built(g.c, r.current, xs) && Chained(g.h, r.log, "", 1) && Suffix(Kept(g, r), r.log)
    && (forall i :: i in r.rotated ==> 1 <= i <= g.maxFiles)
  }

  ghost predicate Linked(r: Recorder) { r.open ==> r.seqno == |r.log| && r.prev == LastHash(r.log, "") }

  ghost predicate Proper(g: Config) { Faithful(g.c) && Injective(g.h) && g.maxFiles > 0 }

  ghost predicate ChainInv(g: Config, r: Recorder) { exists xs :: OnDisk(g, r, xs) && Linked(r) }

  lemma ChainedAppend(h: Hasher, log: seq<Record>, r: Record)
    requires Chained(h, log, "", 1) && Follows(h, r, LastHash(log, ""), 1 + |log|)
    ensures Chained(h, log + [r], "", 1)
  {
    ChainedSplit(h, log, [r], "", 1);
  }

  lemma AppendBuilt(c: Codec, data: Bytes, xs: seq<Chunk>, r: Record)
    requires Faithful(c) && Built(c, data, xs)
    ensures Built(c, data + Line(c, r), xs + [Full(r)]) && Records(c, data + Line(c, r)) == Records(c, data) + [r]
  {
    hide Records, Faithful;
    assert (xs + [Full(r)])[..|xs|] == xs;
    BuiltReads(c, data, xs);
    AppendReads(c, data, r);
  }

  lemma AppendKeeps(g: Config, r: Recorder, ev: Event, why: Purpose, io: Io)
    requires Proper(g) && ChainInv(g, r)
    ensures ChainInv(g, AppendOn(g, r, ev, why, io)) && AppendOn(g, r, ev, why, io).rotated == r.rotated
  {
    hide Records, Built, Faithful, Injective, Suffix, Chained, Older;
    var xs :| OnDisk(g, r, xs) && Linked(r);
    var r' := AppendOn(g, r, ev, why, io);
    if r.open && io.ok {
      var rec := NewRecord(g.h, r.seqno + 1, r.prev, io.now, ev);
      AppendBuilt(g.c, r.current, xs, rec);
      ChainedAppend(g.h, r.log, rec);
      assert Kept(g, r') == Kept(g, r) + [rec];
      SuffixAppend(Kept(g, r), r.log, rec);
      assert OnDisk(g, r', xs + [Full(rec)]);
    } else {
      assert OnDisk(g, r', xs);
    }
  }

  lemma RotateKeeps(g: Config, r: Recorder, reopened: bool, io: Io)
    requires Proper(g) && ChainInv(g, r)
    ensures ChainInv(g, RotateOn(g, r, reopened, io))
  {
    hide Records, Faithful, Injective, Chained, Older, AppendOn, Suffix;
    if r.open && |r.current| >= g.maxBytes {
      var xs :| OnDisk(g, r, xs) && Linked(r);
      var moved := r.(rotated := Shifted(r.rotated, r.current, g.maxFiles), current := []);
      FaithfulGives(g.c);
      RotationKeeps(g, r);
      var gone := if g.maxFiles in r.rotated then Records(g.c, r.rotated[g.maxFiles]) else [];
      SuffixDrop(Kept(g, moved), r.log, gone);
      assert Built(g.c, [], []);
      assert OnDisk(g, moved, []);
      AppendKeeps(g, moved, Kernel(ROTATED, false), Internal, io);
      assert OnDisk(g, moved.(open := false), []);
    }
  }

  lemma FlushKeeps(g: Config, r: Recorder, io: Io)
    requires Proper(g) && ChainInv(g, r)
    ensures ChainInv(g, FlushGapOn(g, r, io))
  {
    hide Built, Proper, Suffix, Chained, AppendOn, Kept;
    var xs :| OnDisk(g, r, xs) && Linked(r);
    var p := r.(pending := r.dropped);
    KeptSame(g, r, p);
    assert OnDisk(g, p, xs);
    if r.dropped > r.pending { AppendKeeps(g, p, Kernel(GAP, true), Losses(r.dropped - r.pending), io); }
  }

  lemma KeptSame(g: Config, r: Recorder, s: Recorder)
    requires s.current == r.current && s.rotated == r.rotated
    ensures Kept(g, s) == Kept(g, r)
  {
  }

  lemma Carry(g: Config, r: Recorder, s: Recorder)
    requires ChainInv(g, r) && s.current == r.current && s.rotated == r.rotated && s.log == r.log
    requires s.open ==> r.open && s.seqno == r.seqno && s.prev == r.prev
    ensures ChainInv(g, s)
  {
    hide Built, Suffix, Chained, Kept;
    var xs :| OnDisk(g, r, xs) && Linked(r);
    KeptSame(g, r, s);
    assert OnDisk(g, s, xs);
  }

  lemma WriteRecordKeeps(g: Config, r: Recorder, ev: Event, why: Purpose, e: Env)
    requires Proper(g) && ChainInv(g, r)
    ensures ChainInv(g, WriteRecordOn(g, r, ev, why, e))
  {
    hide ChainInv, Proper, FlushGapOn, RotateOn, AppendOn;
    FlushKeeps(g, r, e.gap);
    RotateKeeps(g, FlushGapOn(g, r, e.gap), e.reopened, e.header);
    AppendKeeps(g, RotateOn(g, FlushGapOn(g, r, e.gap), e.reopened, e.header), ev, why, e.own);
  }

  lemma WriteNextKeeps(g: Config, r: Recorder, e: Env)
    requires Proper(g) && ChainInv(g, r)
    ensures ChainInv(g, WriteNextOn(g, r, e))
  {
    hide ChainInv, Proper, WriteRecordOn;
    if r.queue != [] {
      var p := r.(queue := r.queue[1..]);
      Carry(g, r, p);
      WriteRecordKeeps(g, p, r.queue[0], Submitted, e);
    }
  }

  lemma {:induction false} DrainKeeps(g: Config, r: Recorder, envs: seq<Env>)
    requires Proper(g) && ChainInv(g, r)
    ensures ChainInv(g, DrainOn(g, r, envs))
  {
    hide ChainInv, Proper, WriteNextOn;
    if envs != [] {
      DrainKeeps(g, r, envs[..|envs| - 1]);
      WriteNextKeeps(g, DrainOn(g, r, envs[..|envs| - 1]), envs[|envs| - 1]);
    }
  }

  lemma CloseKeeps(g: Config, r: Recorder, envs: seq<Env>, gap: Io, last: Io)
    requires Proper(g) && ChainInv(g, r)
    ensures ChainInv(g, CloseOn(g, r, envs, gap, last))
  {
    hide ChainInv, Proper, DrainOn, FlushGapOn, AppendOn;
    var d := DrainOn(g, r, envs);
    DrainKeeps(g, r, envs);
    FlushKeeps(g, d, gap);
    AppendKeeps(g, FlushGapOn(g, d, gap), Kernel(CLOSED, false), Internal, last);
    Carry(g, AppendOn(g, FlushGapOn(g, d, gap), Kernel(CLOSED, false), Internal, last), CloseOn(g, r, envs, gap, last));
  }

  /** What the verifier of all files concludes from the invariant. */
  lemma KeptIsConsistent(g: Config, r: Recorder)
    requires ChainInv(g, r)
    ensures Consistent(g.h, Flat(Files(g, r))) && Suffix(Flat(Files(g, r)), r.log)
  {
    hide Records, Built, Older;
    var xs :| OnDisk(g, r, xs) && Linked(r);
    var k := Kept(g, r);
    FilesAreKept(g, r);
    SuffixConsistent(g.h, k, r.log);
  }

  lemma SuffixConsistent(h: Hasher, k: seq<Record>, log: seq<Record>)
    requires Chained(h, log, "", 1) && Suffix(k, log)
    ensures Consistent(h, k)
    ensures k != [] ==> k[|k| - 1].body.seqno == |log| && k[|k| - 1].hash == LastHash(log, "")
  {
    var n := |log| - |k|;
    ChainedPrefix(h, log, n, "", 1);
    if k != [] {
      assert FollowsAt(h, k, 0, LastHash(log[..n], ""), 1 + n);
      LastSeq(h, k, LastHash(log[..n], ""), 1 + n);
      assert k[|k| - 1] == log[|log| - 1];
    }
  }

  // ------------------------------------------------------------------ crash and restart

  lemma PrefixSuffix(a: seq<Record>, b: seq<Record>, n: nat)
    requires Suffix(a, b) && n <= |a|
    ensures Suffix(a[..n], b[..|b| - (|a| - n)])
  {
    var m := |b| - (|a| - n);
    assert b[..m][m - n..] == b[|b| - |a|..][..n];
  }

  lemma ToldIs(c: Codec, data: Bytes, xs: seq<Chunk>)
    requires Faithful(c) && Built(c, Terminated(data), xs)
    ensures Records(c, data) == Told(xs) == Records(c, Terminated(data))
  {
    hide Faithful, Records;
    FaithfulGives(c);
    TerminatedReads(c, data);
    BuiltReads(c, Terminated(data), xs);
  }

  // On disk after a crash, before the next start has finished the torn line.
  ghost predicate AfterCrash(g: Config, r: Recorder) {
    !r.open && exists xs :: OnDisk(g, r.(current := Terminated(r.current)), xs) && Records(g.c, r.current) == Told(xs)
  }

  lemma {:induction false} ToldPrefix(xs: seq<Chunk>, m: nat)
    requires m <= |xs|
    ensures Told(xs[..m]) <= Told(xs)
  {
    if m < |xs| {
      ToldPrefix(xs[..|xs| - 1], m);
      assert xs[..|xs| - 1][..m] == xs[..m];
    } else { assert xs[..m] == xs; }
  }

  lemma CrashKeeps(g: Config, r: Recorder, n: nat)
    requires Proper(g) && ChainInv(g, r) && n <= |r.current|
    ensures AfterCrash(g, CrashOn(g, r, n)) && CrashOn(g, r, n).log <= r.log
  {
    hide Records, Faithful, Injective, Older, Flat, Suffix, Terminated;
    var xs :| OnDisk(g, r, xs) && Linked(r);
    var d := CrashOn(g, r, n);
    var ys, m := CutBuilt(g.c, r.current, xs, n);
    BuiltReads(g.c, r.current, xs);
    ToldIs(g.c, d.current, ys);
    ToldPrefix(xs, m);
    var older, old0, cut := Flat(Older(g.c, r.rotated, g.maxFiles)), Records(g.c, r.current), Records(g.c, d.current);
    var keep := |older| + |cut|;
    assert (older + old0)[..keep] == older + cut;
    SuffixLength(older + old0, r.log);
    PrefixSuffix(older + old0, r.log, keep);
    ChainedPrefix(g.h, r.log, |r.log| - (|old0| - |cut|), "", 1);
    assert OnDisk(g, d.(current := Terminated(d.current)), ys);
  }

  lemma SuffixLength(a: seq<Record>, b: seq<Record>)
    requires Suffix(a, b)
    ensures |a| <= |b|
  {
  }

  lemma StopIsCrash(g: Config, r: Recorder)
    requires Proper(g) && ChainInv(g, r) && !r.open
    ensures AfterCrash(g, r)
  {
    hide Records, Faithful, Suffix, Older, Flat;
    var xs :| OnDisk(g, r, xs) && Linked(r);
    BuiltReads(g.c, r.current, xs);
    assert Terminated(r.current) == r.current;
    assert r.(current := Terminated(r.current)) == r;
  }

  /** The next start finds the end of the chain in the current file, or there is no chain yet. */
  predicate Resumable(g: Config, r: Recorder) {
    Records(g.c, r.current) != [] || Flat(Older(g.c, r.rotated, g.maxFiles)) == []
  }

  // All records of the chain carry a hash, so the last one is the last link.
  lemma LastIsLink(h: Hasher, k: seq<Record>, a: seq<Record>)
    requires Injective(h) && Consistent(h, k) && a != [] && Suffix(a, k)
    ensures LastLinked(a) == Some(k[|k| - 1])
  {
    assert FollowsAt(h, k, |k| - 1, k[0].body.prev, k[0].body.seqno);
    assert a[|a| - 1] == k[|k| - 1];
  }

  // The recorder that has found its link, before it says anything.
  function Found(r: Recorder, seqno: nat, prev: string): Recorder {
    r.(current := Terminated(r.current), open := true, dropped := 0, pending := 0, queue := [], books := NoBooks,
       seqno := seqno, prev := prev)
  }

  lemma FoundKeeps(g: Config, r: Recorder)
    requires Proper(g) && AfterCrash(g, r) && Records(g.c, r.current) != []
    ensures LastLinked(Records(g.c, r.current)).Some?
    ensures var last := LastLinked(Records(g.c, r.current)).value;
            ChainInv(g, Found(r, last.body.seqno, last.hash)) && last.body.seqno == |r.log| && r.log != [] && last == r.log[|r.log| - 1]
  {
    hide Faithful, Older, Flat, Records, Built;
    var xs :| OnDisk(g, r.(current := Terminated(r.current)), xs) && Records(g.c, r.current) == Told(xs);
    var d := r.(current := Terminated(r.current));
    ToldIs(g.c, r.current, xs);
    var k := Kept(g, d);
    SuffixConsistent(g.h, k, r.log);
    assert k[|k| - |Records(g.c, r.current)|..] == Records(g.c, r.current);
    LastIsLink(g.h, k, Records(g.c, r.current));
    var f := Found(r, k[|k| - 1].body.seqno, k[|k| - 1].hash);
    KeptSame(g, d, f);
    assert OnDisk(g, f, xs) && Linked(f);
    assert k[|k| - 1] == r.log[|r.log| - 1];
  }

  lemma FreshKeeps(g: Config, r: Recorder)
    requires Proper(g) && AfterCrash(g, r) && Records(g.c, r.current) == [] && Flat(Older(g.c, r.rotated, g.maxFiles)) == []
    ensures ChainInv(g, Found(r, 0, "").(log := []))
  {
    hide Faithful, Older, Flat, Records, Built;
    var xs :| OnDisk(g, r.(current := Terminated(r.current)), xs) && Records(g.c, r.current) == Told(xs);
    ToldIs(g.c, r.current, xs);
    var f := Found(r, 0, "").(log := []);
    assert OnDisk(g, f, xs);
  }

  /** A start that can find the end of the chain continues it; without any records it begins one. */
  lemma OpenKeeps(g: Config, r: Recorder, e: Env)
    requires Proper(g) && AfterCrash(g, r) && Resumable(g, r)
    ensures ChainInv(g, OpenOn(g, r, e))
  {
    hide AfterCrash, ChainInv, Proper, WriteRecordOn, Records, LastLinked, Terminated, Older, Flat;
    ReadsAlike(g, r);
    var last := LastLinked(Records(g.c, r.current));
    if Records(g.c, r.current) != [] {
      FoundKeeps(g, r);
      var f := Found(r, last.value.body.seqno, last.value.hash);
      if last.value.body.action != CLOSED { WriteRecordKeeps(g, f, Kernel(UNCLEAN, true), Internal, e); }
    } else {
      NoLastLink();
      FreshKeeps(g, r);
      WriteRecordKeeps(g, Found(r, 0, "").(log := []), Kernel(STARTED, false), Internal, e);
    }
  }

  lemma NoLastLink()
    ensures LastLinked([]) == None
  {
  }

  lemma ReadsAlike(g: Config, r: Recorder)
    requires Proper(g)
    ensures Records(g.c, Terminated(r.current)) == Records(g.c, r.current)
  {
    hide Records;
    FaithfulGives(g.c);
    TerminatedReads(g.c, r.current);
  }

  // A start whose writes land, in a file below the rotation threshold.
  predicate Smooth(g: Config, r: Recorder, e: Env) { e.own.ok && |Terminated(r.current)| < g.maxBytes }

  lemma OpenedFiles(g: Config, r: Recorder, e: Env)
    requires Proper(g) && AfterCrash(g, r) && Smooth(g, r, e) && Records(g.c, r.current) == []
    ensures var s := OpenOn(g, r, e);
            && Kept(g, s) == Flat(Older(g.c, r.rotated, g.maxFiles)) + [NewRecord(g.h, 1, "", e.own.now, Kernel(STARTED, false))]
  {
    hide Records, Older, Flat, Faithful, Injective, Chained, Suffix, Built;
    ReadsAlike(g, r);
    NoLastLink();
    var xs :| OnDisk(g, r.(current := Terminated(r.current)), xs) && Records(g.c, r.current) == Told(xs);
    AppendBuilt(g.c, Terminated(r.current), xs, NewRecord(g.h, 1, "", e.own.now, Kernel(STARTED, false)));
  }

  lemma RestartBreaks(h: Hasher, older: seq<Record>, r: Record)
    requires older != [] && CountsFromOne(h, older) && r.body.seqno == 1
    ensures !Consistent(h, older + [r])
  {
    var k := older + [r];
    assert k[0] == older[0] && k[|k| - 1] == r;
    if Consistent(h, k) { LastSeq(h, k, k[0].body.prev, k[0].body.seqno); }
  }

  // Records of a chain that starts at 1.
  ghost predicate CountsFromOne(h: Hasher, k: seq<Record>) { k != [] ==> k[0].body.seqno >= 1 }

  lemma KeptStarts(g: Config, r: Recorder)
    requires AfterCrash(g, r)
    ensures CountsFromOne(g.h, Flat(Older(g.c, r.rotated, g.maxFiles)))
  {
    hide Records, Older, Flat, Built;
    var xs :| OnDisk(g, r.(current := Terminated(r.current)), xs) && Records(g.c, r.current) == Told(xs);
    var k := Kept(g, r.(current := Terminated(r.current)));
    var older := Flat(Older(g.c, r.rotated, g.maxFiles));
    if older != [] {
      var n := |r.log| - |k|;
      assert older[0] == k[0] == r.log[n];
      assert FollowsAt(g.h, r.log, n, "", 1);
    }
  }

  /** After a crash that cut the current file anywhere, the restarted recorder's files verify if and only
      if the cut left a readable record in the current file or no older file holds any: the new chain
      that it starts otherwise does not join the rotated files. */
  lemma RestartVerifiesIff(g: Config, r: Recorder, n: nat, e: Env)
    requires Proper(g) && ChainInv(g, r) && n <= |r.current| && Smooth(g, CrashOn(g, r, n), e)
    ensures var d := CrashOn(g, r, n);
            Consistent(g.h, Flat(Files(g, OpenOn(g, d, e)))) <==> Resumable(g, d)
  {
    hide ChainInv, AfterCrash, Proper, OpenOn, Records, Older, Flat, Smooth, CrashOn, Kept, Files, CountsFromOne, Consistent;
    var d := CrashOn(g, r, n);
    CrashKeeps(g, r, n);
    FilesAreKept(g, OpenOn(g, d, e));
    if Resumable(g, d) {
      OpenKeeps(g, d, e);
      KeptIsConsistent(g, OpenOn(g, d, e));
    } else {
      OpenedFiles(g, d, e);
      KeptStarts(g, d);
      RestartBreaks(g.h, Flat(Older(g.c, d.rotated, g.maxFiles)), NewRecord(g.h, 1, "", e.own.now, Kernel(STARTED, false)));
    }
  }

  /** What a crash leaves of the current file, exactly: the records of the lines that end within the bytes
      kept, the newline of the last one not counted. */
  lemma CutIsExact(g: Config, r: Recorder, n: nat) returns (xs: seq<Chunk>, m: nat)
    requires Proper(g) && ChainInv(g, r) && n <= |r.current|
    ensures Built(g.c, r.current, xs) && Told(xs) == Records(g.c, r.current)
    ensures Within(g.c, xs, n, m) && Records(g.c, CrashOn(g, r, n).current) == Told(xs[..m])
  {
    hide Records, Faithful, Injective, Older, Flat, Suffix, Within;
    xs :| OnDisk(g, r, xs) && Linked(r);
    var ys;
    ys, m := CutBuilt(g.c, r.current, xs, n);
    BuiltReads(g.c, r.current, xs);
    ToldIs(g.c, r.current[..n], ys);
    WithinIs(g.c, xs, n, m);
  }

  /** What a restart adds to what survived: nothing after the closing record of a clean stop, else one record
      that follows the last surviving one and says that the shutdown was unclean; and if nothing survived, the
      first record of a chain. */
  function Restarted(g: Config, was: seq<Record>, now: int): seq<Record> {
    if was == [] then [NewRecord(g.h, 1, "", now, Kernel(STARTED, false))]
    else
      var last := was[|was| - 1];
      if last.body.action == CLOSED then was
      else was + [NewRecord(g.h, last.body.seqno + 1, last.hash, now, Kernel(UNCLEAN, true))]
  }

  // One record appended to what the start has found.
  lemma OpenedWith(g: Config, d: Recorder, seqno: nat, prev: string, ev: Event, e: Env, r: Recorder)
    requires Proper(g) && AfterCrash(g, d) && Smooth(g, d, e)
    requires r.current == Terminated(d.current) && r.open && r.dropped == r.pending && r.seqno == seqno && r.prev == prev
    ensures var x := NewRecord(g.h, seqno + 1, prev, e.own.now, ev);
            Records(g.c, WriteRecordOn(g, r, ev, Internal, e).current) == Records(g.c, d.current) + [x]
  {
    hide Records, Built, Faithful, Injective, Kept, Chained, Suffix;
    ReadsAlike(g, d);
    var xs :| OnDisk(g, d.(current := Terminated(d.current)), xs) && Records(g.c, d.current) == Told(xs);
    AppendBuilt(g.c, Terminated(d.current), xs, NewRecord(g.h, seqno + 1, prev, e.own.now, ev));
  }

  /** So it is, wherever the crash cut the file. */
  lemma UncleanIsReported(g: Config, r: Recorder, n: nat, e: Env)
    requires Proper(g) && ChainInv(g, r) && n <= |r.current| && Smooth(g, CrashOn(g, r, n), e)
    ensures var d := CrashOn(g, r, n);
            Records(g.c, OpenOn(g, d, e).current) == Restarted(g, Records(g.c, d.current), e.own.now)
  {
    hide Records, Older, Flat, Proper, ChainInv, AfterCrash, WriteRecordOn, Smooth, CrashOn, Terminated, NewRecord;
    var d := CrashOn(g, r, n);
    CrashKeeps(g, r, n);
    ReadsAlike(g, d);
    var was := Records(g.c, d.current);
    if was == [] {
      NoLastLink();
      OpenedWith(g, d, 0, "", Kernel(STARTED, false), e, Found(d, 0, "").(log := []));
    } else {
      FoundKeeps(g, d);
      LinkIsLast(g, d);
      var last := was[|was| - 1];
      OpenedWith(g, d, last.body.seqno, last.hash, Kernel(UNCLEAN, true), e, Found(d, last.body.seqno, last.hash));
    }
  }

  /** A crash inside the last line: after the restart every earlier record is there, the last one exactly if
      all bytes of its record were kept, and then the record of the restart. */
  lemma LastLineCut(g: Config, r: Recorder, head: Bytes, last: Record, k: nat, e: Env)
    requires Proper(g) && ChainInv(g, r) && Whole(head) && r.current == head + Line(g.c, last) && k <= |Line(g.c, last)|
    requires Smooth(g, CrashOn(g, r, |head| + k), e)
    ensures var was := Records(g.c, head) + if k >= |g.c.enc(last)| then [last] else [];
            Records(g.c, OpenOn(g, CrashOn(g, r, |head| + k), e).current) == Restarted(g, was, e.own.now)
    ensures Records(g.c, r.current) == Records(g.c, head) + [last]
  {
    hide Records, ChainInv, Faithful, Injective, OpenOn, Restarted, Smooth;
    UncleanIsReported(g, r, |head| + k, e);
    AppendReads(g.c, head, last);
    assert Records(g.c, head) + [] == Records(g.c, head);
    if k <= |g.c.enc(last)| {
      BrokenLineReads(g.c, head, last, k);
      assert r.current[..|head| + k] == head + g.c.enc(last)[..k];
    } else {
      assert r.current[..|head| + k] == r.current;
    }
  }

  lemma LinkIsLast(g: Config, r: Recorder)
    requires Proper(g) && AfterCrash(g, r) && Records(g.c, r.current) != []
    ensures var was := Records(g.c, r.current); LastLinked(was) == Some(was[|was| - 1])
  {
    hide Faithful, Older, Flat, Records, Built;
    var xs :| OnDisk(g, r.(current := Terminated(r.current)), xs) && Records(g.c, r.current) == Told(xs);
    var d := r.(current := Terminated(r.current));
    ToldIs(g.c, r.current, xs);
    var k := Kept(g, d);
    SuffixConsistent(g.h, k, r.log);
    assert k[|k| - |Records(g.c, r.current)|..] == Records(g.c, r.current);
    LastIsLink(g.h, k, Records(g.c, r.current));
  }
}
