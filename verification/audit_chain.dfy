/** The audit hash chain: what it means for records to follow each other, and what the verifier of one
    file and of all retained files decides. The hash is a parameter; where it matters it is assumed to
    be injective on the hashed fields and never empty. */
module AuditChain {

  // Everything but the hash: what the hash is computed from.
  datatype Content = Content(
    v: int, seqno: nat, prev: string, time: int, action: string, subject: string, denied: bool, err: string, detail: string)

  datatype Record = Record(body: Content, hash: string)

  type Hasher = Content -> string

  const CHAIN_VERSION: int := 1

  ghost predicate Injective(h: Hasher) {
    (forall a, b :: h(a) == h(b) ==> a == b) && forall a :: h(a) != ""
  }

  /** One record after (prev, seqno). */
  predicate Follows(h: Hasher, r: Record, prev: string, seqno: nat) {
    r.body.v == CHAIN_VERSION && r.body.seqno == seqno && r.body.prev == prev && h(r.body) == r.hash
  }

  function LastHash(rs: seq<Record>, prev: string): string { if rs == [] then prev else rs[|rs| - 1].hash }

  predicate FollowsAt(h: Hasher, rs: seq<Record>, i: nat, prev: string, seqno: nat)
    requires i < |rs|
  {
    Follows(h, rs[i], if i == 0 then prev else rs[i - 1].hash, seqno + i)
  }

  /** A contiguous stretch of the chain that starts after (prev, seqno). */
  ghost predicate Chained(h: Hasher, rs: seq<Record>, prev: string, seqno: nat) {
    forall i :: 0 <= i < |rs| ==> FollowsAt(h, rs, i, prev, seqno)
  }

  /** Walk the records; -1, or the index of the first one that does not fit. */
  method VerifyChain(h: Hasher, rs: seq<Record>, expectedPrev: string, expectedSeq: nat) returns (bad: int)
    ensures -1 <= bad < |rs|
    ensures bad == -1 <==> Chained(h, rs, expectedPrev, expectedSeq)
    ensures bad >= 0 ==> Chained(h, rs[..bad], expectedPrev, expectedSeq) &&
                         !Follows(h, rs[bad], LastHash(rs[..bad], expectedPrev), expectedSeq + bad)
  {
    var prev, seqno, i := expectedPrev, expectedSeq, 0;
    while i < |rs|
      invariant 0 <= i <= |rs|
      invariant prev == LastHash(rs[..i], expectedPrev) && seqno == expectedSeq + i
      invariant Chained(h, rs[..i], expectedPrev, expectedSeq)
    {
      var r := rs[i];
      if r.body.v != CHAIN_VERSION || r.body.seqno != seqno || r.body.prev != prev || h(r.body) != r.hash {
        assert !FollowsAt(h, rs, i, expectedPrev, expectedSeq);
        return i;
      }
      ghost var more := rs[..i + 1];
      assert more == rs[..i] + [r];
      forall k | 0 <= k < |more| ensures FollowsAt(h, more, k, expectedPrev, expectedSeq) {
        if k < i { assert FollowsAt(h, rs[..i], k, expectedPrev, expectedSeq); }
      }
      prev, seqno, i := r.hash, seqno + 1, i + 1;
    }
    assert rs[..i] == rs;
    return -1;
  }

  /** Verification is compositional. */
  lemma {:induction false} ChainedSplit(h: Hasher, a: seq<Record>, b: seq<Record>, prev: string, seqno: nat)
    ensures Chained(h, a + b, prev, seqno) <==> Chained(h, a, prev, seqno) && Chained(h, b, LastHash(a, prev), seqno + |a|)
  {
    var ab := a + b;
    if Chained(h, ab, prev, seqno) {
      forall i | 0 <= i < |a| ensures FollowsAt(h, a, i, prev, seqno) { assert FollowsAt(h, ab, i, prev, seqno); }
      var last, next := LastHash(a, prev), seqno + |a|;
      forall i | 0 <= i < |b| ensures FollowsAt(h, b, i, last, next) {
        assert FollowsAt(h, ab, |a| + i, prev, seqno);
      }
    }
    if Chained(h, a, prev, seqno) && Chained(h, b, LastHash(a, prev), seqno + |a|) {
      forall i | 0 <= i < |ab| ensures FollowsAt(h, ab, i, prev, seqno) {
        if i < |a| { assert FollowsAt(h, a, i, prev, seqno); }
        else { assert FollowsAt(h, b, i - |a|, LastHash(a, prev), seqno + |a|); }
      }
    }
  }

  /** Tamper evidence: the final hash pins the whole stretch. Two accepted stretches from the same
      start with the same final hash are identical, so no edit, removal, insertion or reordering
      before the end survives. */
  lemma {:induction false} FinalHashPinsAll(h: Hasher, a: seq<Record>, b: seq<Record>, prev: string, seqno: nat)
    requires Injective(h) && Chained(h, a, prev, seqno) && Chained(h, b, prev, seqno)
    requires a != [] && b != [] && a[|a| - 1].hash == b[|b| - 1].hash
    ensures a == b
    decreases |a|
  {
    var i, j := |a| - 1, |b| - 1;
    assert FollowsAt(h, a, i, prev, seqno) && FollowsAt(h, b, j, prev, seqno);
    assert a[i].body == b[j].body && i == j && a[i] == b[j];
    if i > 0 {
      ChainedPrefix(h, a, i, prev, seqno);
      ChainedPrefix(h, b, i, prev, seqno);
      FinalHashPinsAll(h, a[..i], b[..i], prev, seqno);
      assert a == a[..i] + [a[i]] && b == b[..i] + [b[i]];
    }
  }

  lemma ChainedPrefix(h: Hasher, rs: seq<Record>, n: nat, prev: string, seqno: nat)
    requires Chained(h, rs, prev, seqno) && n <= |rs|
    ensures Chained(h, rs[..n], prev, seqno) && Chained(h, rs[n..], LastHash(rs[..n], prev), seqno + n)
  {
    assert rs == rs[..n] + rs[n..];
    ChainedSplit(h, rs[..n], rs[n..], prev, seqno);
  }

  // ------------------------------------------------------------------ the verifier of all retained files

  function Flat(files: seq<seq<Record>>): seq<Record> {
    if files == [] then [] else Flat(files[..|files| - 1]) + files[|files| - 1]
  }

  // The anchor is the first record there is: the retention policy drops the oldest files.
  ghost predicate Consistent(h: Hasher, rs: seq<Record>) {
    rs != [] ==> Chained(h, rs, rs[0].body.prev, rs[0].body.seqno)
  }

  /** `Panics`: the final report reads the first record of the oldest file without a check. */
  datatype Verdict = NoFiles | NoRecords | Broken(file: nat, index: nat) | Panics | Verified(total: nat, first: nat, next: nat)

  // The state of the fold: what is expected next, once there is an anchor.
  ghost predicate Folded(h: Hasher, done: seq<Record>, prev: string, seqno: nat) {
    Consistent(h, done) && (done != [] ==> prev == LastHash(done, "") && seqno == done[0].body.seqno + |done|)
  }

  method VerifyFiles(h: Hasher, files: seq<seq<Record>>) returns (v: Verdict)
    ensures v == NoFiles <==> files == []
    ensures v == NoRecords <==> files != [] && Flat(files) == []
    ensures v.Broken? <==> !Consistent(h, Flat(files))
    ensures v == Panics <==> Flat(files) != [] && Consistent(h, Flat(files)) && files[0] == []
    ensures v.Verified? ==> v.total == |Flat(files)| && v.first == Flat(files)[0].body.seqno && v.next == v.first + v.total
    ensures v.Broken? ==> v.file < |files| && v.index < |files[v.file]| && Consistent(h, Flat(files[..v.file]) + files[v.file][..v.index])
  {
    hide Consistent, Chained, Folded, Flat;
    FlatEnds(files);
    FoldStarts(h);
    if files == [] { return NoFiles; }
    var prev, seqno: nat, anchored, total, n := "", 0, false, 0, 0;
    assert files[..0] == [];
    while n < |files|
      invariant 0 <= n <= |files|
      invariant total == |Flat(files[..n])| && anchored == (total > 0) && Folded(h, Flat(files[..n]), prev, seqno)
    {
      var rs := files[n];
      ghost var done := Flat(files[..n]);
      FlatNext(files, n);
      if !anchored && |rs| > 0 {
        prev, seqno, anchored := rs[0].body.prev, rs[0].body.seqno, true;
      }
      var bad := VerifyChain(h, rs, prev, seqno);
      FoldFile(h, done, rs, prev, seqno);
      if bad != -1 {
        BadPart(h, done, rs, prev, seqno, bad);
        BrokenStays(h, done + rs, Flat(files));
        return Broken(n, bad);
      }
      if |rs| > 0 {
        prev, seqno := rs[|rs| - 1].hash, rs[|rs| - 1].body.seqno + 1;
      }
      total := total + |rs|;
      n := n + 1;
    }
    assert files[..n] == files;
    FoldEnds(h, Flat(files), prev, seqno);
    if !anchored { return NoRecords; }
    if files[0] == [] { return Panics; }
    return Verified(total, files[0][0].body.seqno, seqno);
  }

  lemma FlatEnds(files: seq<seq<Record>>)
    ensures Flat([]) == [] && (files == [] ==> Flat(files) == [])
    ensures files != [] && files[0] != [] ==> Flat(files) != [] && Flat(files)[0] == files[0][0]
  {
    if files != [] { FlatPrefix(files, |files|); assert files[..|files|] == files; }
  }

  lemma FlatNext(files: seq<seq<Record>>, n: nat)
    requires n < |files|
    ensures Flat(files[..n + 1]) == Flat(files[..n]) + files[n] && Flat(files[..n + 1]) <= Flat(files)
  {
    assert files[..n + 1][..n] == files[..n];
    FlatPrefix(files, n + 1);
  }

  lemma FoldStarts(h: Hasher)
    ensures Folded(h, Flat([]), "", 0) && Flat([]) == [] && Consistent(h, [])
  {
  }

  lemma FoldEnds(h: Hasher, done: seq<Record>, prev: string, seqno: nat)
    requires Folded(h, done, prev, seqno)
    ensures Consistent(h, done) && (done != [] ==> seqno == done[0].body.seqno + |done|)
  {
  }

  lemma FoldFile(h: Hasher, done: seq<Record>, rs: seq<Record>, prev: string, seqno: nat)
    requires if done == [] then Consistent(h, done) && (rs != [] ==> prev == rs[0].body.prev && seqno == rs[0].body.seqno)
             else Folded(h, done, prev, seqno)
    ensures Consistent(h, done + rs) <==> Chained(h, rs, prev, seqno)
    ensures Chained(h, rs, prev, seqno) ==>
              if rs == [] then done + rs == done
              else Folded(h, done + rs, rs[|rs| - 1].hash, rs[|rs| - 1].body.seqno + 1)
  {
    if rs == [] { assert done + rs == done; } else {
      JoinFile(h, done, rs, prev, seqno);
      if Chained(h, rs, prev, seqno) { LastSeq(h, rs, prev, seqno); }
      if done == [] { assert done + rs == rs; }
    }
  }

  lemma {:induction false} FlatPrefix(files: seq<seq<Record>>, n: nat)
    requires n <= |files|
    ensures Flat(files[..n]) <= Flat(files) && (n > 0 && files[0] != [] ==> Flat(files[..n]) != [] && Flat(files[..n])[0] == files[0][0])
    decreases |files|
  {
    if n == |files| { assert files[..n] == files; }
    if files != [] {
      var init := files[..|files| - 1];
      if n < |files| {
        FlatPrefix(init, n);
        assert init[..n] == files[..n];
      } else {
        FlatPrefix(init, |init|);
        assert init[..|init|] == init;
        if |files| > 1 { assert init[0] == files[0]; }
      }
    }
  }

  lemma JoinFile(h: Hasher, done: seq<Record>, rs: seq<Record>, prev: string, seqno: nat)
    requires Consistent(h, done) && done + rs != []
    requires if done == [] then prev == rs[0].body.prev && seqno == rs[0].body.seqno
             else prev == LastHash(done, "") && seqno == done[0].body.seqno + |done|
    ensures Consistent(h, done + rs) <==> Chained(h, rs, prev, seqno)
  {
    if done == [] { assert done + rs == rs; } else { ChainedSplit(h, done, rs, done[0].body.prev, done[0].body.seqno); }
  }

  lemma BadPart(h: Hasher, done: seq<Record>, rs: seq<Record>, prev: string, seqno: nat, bad: nat)
    requires bad < |rs| && Chained(h, rs[..bad], prev, seqno)
    requires if done == [] then prev == rs[0].body.prev && seqno == rs[0].body.seqno else Folded(h, done, prev, seqno)
    ensures Consistent(h, done + rs[..bad])
  {
    if done + rs[..bad] != [] { JoinFile(h, done, rs[..bad], prev, seqno); }
  }

  lemma BrokenStays(h: Hasher, a: seq<Record>, all: seq<Record>)
    requires a <= all && !Consistent(h, a)
    ensures !Consistent(h, all)
  {
    if Consistent(h, all) {
      assert all[..|a|] == a;
      ChainedPrefix(h, all, |a|, all[0].body.prev, all[0].body.seqno);
    }
  }

  lemma LastSeq(h: Hasher, rs: seq<Record>, prev: string, seqno: nat)
    requires rs != [] && Chained(h, rs, prev, seqno)
    ensures rs[|rs| - 1].body.seqno == seqno + |rs| - 1
  {
    assert FollowsAt(h, rs, |rs| - 1, prev, seqno);
  }

  // ------------------------------------------------------------------ the order of rotated files

  /** The number behind `audit.jsonl.`; anything that is not a number counts as the oldest. */
  method RotationIndex(suffix: string) returns (n: nat)
    ensures n == (if forall i :: 0 <= i < |suffix| ==> '0' <= suffix[i] <= '9' then Number(suffix) else 0x4000_0000)
  {
    n := 0;
    var i := 0;
    assert suffix[..0] == "";
    while i < |suffix|
      invariant 0 <= i <= |suffix| && n == Number(suffix[..i])
      invariant forall k :: 0 <= k < i ==> '0' <= suffix[k] <= '9'
    {
      if suffix[i] < '0' || suffix[i] > '9' { return 0x4000_0000; }
      assert suffix[..i + 1][..i] == suffix[..i];
      n := n * 10 + Digit(suffix[i]);
      i := i + 1;
    }
    assert suffix[..i] == suffix;
  }

  function Digit(c: char): nat { if '0' <= c <= '9' then (c - '0') as nat else 0 }

  function Number(s: string): nat {
    if s == "" then 0 else 10 * Number(s[..|s| - 1]) + Digit(s[|s| - 1])
  }

  function DigitChar(d: nat): (c: char)
    requires d < 10
    ensures '0' <= c <= '9' && Digit(c) == d
  {
    "0123456789"[d]
  }

  // How the recorder names a rotated file.
  function Decimal(n: nat): (s: string)
    ensures forall i :: 0 <= i < |s| ==> '0' <= s[i] <= '9'
  {
    (if n < 10 then "" else Decimal(n / 10)) + [DigitChar(n % 10)]
  }

  /** The verifier reads back exactly the index the recorder wrote. */
  lemma {:induction false} IndexRoundTrip(n: nat)
    ensures Number(Decimal(n)) == n
  {
    hide Digit, DigitChar;
    var s := Decimal(n);
    if n < 10 {
      assert s[..|s| - 1] == "";
    } else {
      assert s[..|s| - 1] == Decimal(n / 10);
      IndexRoundTrip(n / 10);
    }
  }
}
