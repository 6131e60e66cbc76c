/** Audit files as bytes: lines, the forward reader, the backward scan for the last link, and what a
    truncated last line does to them. Line decoding is a parameter. */
module AuditFile {
  import opened Wrappers
  import opened AuditChain

  type Bytes = seq<bv8>

  const NL: bv8 := 10
  const CR: bv8 := 13

  /** json.Marshal and json.Unmarshal of a record. */
  datatype Codec = Codec(enc: Record -> Bytes, dec: Bytes -> Option<Record>)

  predicate Flawless(b: Bytes) { b != [] && NL !in b && b[|b| - 1] != CR }

  /** A record's line decodes to it, holds no newline, and no proper part from its start decodes. */
  ghost predicate Faithful(c: Codec) {
    && c.dec([]).None?
    && (forall r :: c.dec(c.enc(r)) == Some(r) && Flawless(c.enc(r)))
    && (forall r, k :: 0 <= k < |c.enc(r)| ==> c.dec(Trim(c.enc(r)[..k])).None?)
  }

  /** A line without the newlines and carriage returns at its end. */
  function Trim(b: Bytes): (t: Bytes)
    ensures t <= b && (t == [] || (t[|t| - 1] != 10 && t[|t| - 1] != 13))
    ensures forall k :: |t| <= k < |b| ==> b[k] == 10 || b[k] == 13
  {
    if b != [] && (b[|b| - 1] == NL || b[|b| - 1] == CR) then Trim(b[..|b| - 1]) else b
  }

  // What one line contributes, and whether it counts as skipped.
  function Parse(c: Codec, line: Bytes): seq<Record> {
    var t := Trim(line);
    if t == [] || c.dec(t).None? then [] else [c.dec(t).value]
  }

  function Skip(c: Codec, line: Bytes): nat {
    var t := Trim(line);
    if t != [] && c.dec(t).None? then 1 else 0
  }

  predicate NoNewline(data: Bytes, lo: nat, hi: nat)
    requires hi <= |data|
  {
    forall k :: lo <= k < hi ==> data[k] != NL
  }

  predicate LineAt(data: Bytes, start: nat) {
    start <= |data| && (start > 0 ==> data[start - 1] == NL) && NoNewline(data, start, |data|)
  }

  // Where the last line starts.
  function LastStart(data: Bytes): (k: nat)
    ensures LineAt(data, k)
  {
    if data == [] then 0
    else if data[|data| - 1] == NL then |data|
    else LastStart(data[..|data| - 1])
  }

  /** The records of a file, line by line, and the number of lines that decode to nothing. */
  function Records(c: Codec, data: Bytes): seq<Record> {
    var k := LastStart(data);
    (if k == 0 then [] else Records(c, data[..k - 1])) + Parse(c, data[k..])
  }

  function Skipped(c: Codec, data: Bytes): nat {
    var k := LastStart(data);
    (if k == 0 then 0 else Skipped(c, data[..k - 1])) + Skip(c, data[k..])
  }

  lemma LastStartIs(data: Bytes, k: nat)
    requires LineAt(data, k)
    ensures LastStart(data) == k
  {
    assert LineAt(data, LastStart(data));
  }

  // Reading is line by line from the end.
  lemma RecordsAt(c: Codec, data: Bytes, start: nat)
    requires LineAt(data, start)
    ensures Records(c, data) == (if start == 0 then [] else Records(c, data[..start - 1])) + Parse(c, data[start..])
    ensures Skipped(c, data) == (if start == 0 then 0 else Skipped(c, data[..start - 1])) + Skip(c, data[start..])
  {
    LastStartIs(data, start);
  }

  // ------------------------------------------------------------------ the forward reader

  // What the reader has when it stands at a line start.
  ghost predicate ReadTo(c: Codec, data: Bytes, start: nat, records: seq<Record>, skipped: nat)
    requires start <= |data|
  {
    && records == (if start == 0 then [] else Records(c, data[..start - 1]))
    && skipped == (if start == 0 then 0 else Skipped(c, data[..start - 1]))
  }

  lemma ReadLine(c: Codec, data: Bytes, start: nat, i: nat, records: seq<Record>, skipped: nat)
    requires start <= i <= |data| && NoNewline(data, start, i) && (start > 0 ==> data[start - 1] == NL)
    requires ReadTo(c, data, start, records, skipped)
    ensures Records(c, data[..i]) == records + Parse(c, data[start..i]) && Skipped(c, data[..i]) == skipped + Skip(c, data[start..i])
  {
    hide Records, Skipped, Parse, Skip;
    var head := data[..i];
    RecordsAt(c, head, start);
    assert head[start..] == data[start..i];
    assert start > 0 ==> head[..start - 1] == data[..start - 1];
  }

  method ReadFile(c: Codec, data: Bytes) returns (records: seq<Record>, skipped: nat)
    ensures records == Records(c, data) && skipped == Skipped(c, data)
  {
    hide Records, Skipped, Trim;
    records, skipped := [], 0;
    var start, i := 0, 0;
    while i <= |data|
      invariant 0 <= start <= i <= |data| + 1
      invariant i <= |data| ==> NoNewline(data, start, i) && (start > 0 ==> data[start - 1] == NL)
      invariant i <= |data| ==> ReadTo(c, data, start, records, skipped)
      invariant i == |data| + 1 ==> records == Records(c, data) && skipped == Skipped(c, data)
    {
      if i != |data| && data[i] != NL {
        i := i + 1;
        continue;
      }
      ReadLine(c, data, start, i, records, skipped);
      assert i == |data| ==> data[..i] == data;
      var line := Trim(data[start..i]);
      start := i + 1;
      if |line| != 0 {
        var rec := c.dec(line);
        if rec.None? { skipped := skipped + 1; } else { records := records + [rec.value]; }
      }
      i := i + 1;
    }
  }

  // ------------------------------------------------------------------ the backward scan

  /** The last record that carries a hash. */
  function LastLinked(rs: seq<Record>): Option<Record> {
    if rs == [] then None
    else if rs[|rs| - 1].hash != "" then Some(rs[|rs| - 1])
    else LastLinked(rs[..|rs| - 1])
  }

  lemma {:induction false} LastLinkedJoin(a: seq<Record>, b: seq<Record>)
    ensures LastLinked(a + b) == if LastLinked(b).Some? then LastLinked(b) else LastLinked(a)
  {
    if b == [] { assert a + b == a; } else {
      assert (a + b)[..|a + b| - 1] == a + b[..|b| - 1];
      LastLinkedJoin(a, b[..|b| - 1]);
    }
  }

  lemma TrimNewline(line: Bytes)
    ensures Trim(line + [NL]) == Trim(line)
  {
    assert (line + [NL])[..|line|] == line;
  }

  // A final newline changes nothing.
  lemma EndNewline(c: Codec, data: Bytes)
    requires c.dec([]).None? && data != [] && data[|data| - 1] == NL
    ensures Records(c, data) == Records(c, data[..|data| - 1])
  {
    hide Records, Skipped;
    RecordsAt(c, data, |data|);
    assert data[|data|..] == [] && Trim([]) == [];
  }

  // The line at the end of data, with or without its newline.
  lemma LastLine(c: Codec, data: Bytes, start: nat)
    requires c.dec([]).None? && start < |data| && NoNewline(data, start, |data| - 1) && (start > 0 ==> data[start - 1] == NL)
    ensures Records(c, data) == (if start == 0 then [] else Records(c, data[..start - 1])) + Parse(c, data[start..])
  {
    hide Records, Skipped, Parse, Skip;
    var n := |data| - 1;
    if data[n] == NL {
      EndNewline(c, data);
      RecordsAt(c, data[..n], start);
      assert data[start..] == data[..n][start..] + [NL];
      ParseNewline(c, data[..n][start..]);
      assert start > 0 ==> data[..n][..start - 1] == data[..start - 1];
    } else {
      RecordsAt(c, data, start);
    }
  }

  lemma ParseNewline(c: Codec, line: Bytes)
    ensures Parse(c, line + [NL]) == Parse(c, line)
  {
    TrimNewline(line);
  }

  // The records before a line start; the newline there may be read or not.
  function Before(c: Codec, data: Bytes, start: nat): seq<Record>
    requires start <= |data|
  {
    if start == 0 then [] else Records(c, data[..start - 1])
  }

  lemma ScanLine(c: Codec, data: Bytes, start: nat, end: nat)
    requires c.dec([]).None? && start < end <= |data| && NoNewline(data, start, end - 1) && (start > 0 ==> data[start - 1] == NL)
    ensures Records(c, data[..end]) == Before(c, data, start) + Parse(c, data[start..end])
  {
    hide Records, Skipped, Parse, Skip;
    var part := data[..end];
    LastLine(c, part, start);
    assert part[start..] == data[start..end];
    assert start > 0 ==> part[..start - 1] == data[..start - 1];
  }

  lemma BeforeIs(c: Codec, data: Bytes, end: nat)
    requires c.dec([]).None? && end <= |data| && (end > 0 ==> data[end - 1] == NL)
    ensures Records(c, data[..end]) == Before(c, data, end)
  {
    hide Records, Skipped, Parse, Skip;
    if end == 0 { EmptyReads(c, data[..0]); } else {
      EndNewline(c, data[..end]);
      assert data[..end][..end - 1] == data[..end - 1];
    }
  }

  lemma EmptyReads(c: Codec, data: Bytes)
    requires data == []
    ensures Records(c, data) == []
  {
    assert Trim([]) == [];
  }

  // Whether the scanned line holds the link.
  lemma LinkHere(c: Codec, before: seq<Record>, line: Bytes)
    ensures var rec := c.dec(Trim(line));
            c.dec([]).None? ==>
              LastLinked(before + Parse(c, line)) == if rec.Some? && rec.value.hash != "" then rec else LastLinked(before)
  {
    var rec := c.dec(Trim(line));
    LastLinkedJoin(before, Parse(c, line));
    assert rec.Some? ==> LastLinked([rec.value]) == (if rec.value.hash != "" then rec else LastLinked([rec.value][..0]));
  }

  /** Scan from the end, line by line, for a decodable record with a hash. It finds exactly the last one
      that the forward reader would deliver, and nothing if there is none. */
  method LastLink(c: Codec, data: Bytes) returns (last: Option<Record>)
    requires c.dec([]).None?
    ensures last == LastLinked(Records(c, data))
  {
    hide Records, LastLinked, Parse, Trim;
    var end := |data|;
    assert data[..end] == data;
    while end > 0
      invariant 0 <= end <= |data|
      invariant LastLinked(Records(c, data)) == LastLinked(Records(c, data[..end]))
    {
      var start := end - 1;
      while start > 0 && data[start - 1] != NL
        invariant 0 <= start < end && NoNewline(data, start, end - 1)
      {
        start := start - 1;
      }
      var rec := c.dec(Trim(data[start..end]));
      ScanLine(c, data, start, end);
      LinkHere(c, Before(c, data, start), data[start..end]);
      if rec.Some? && rec.value.hash != "" { return rec; }
      BeforeIs(c, data, start);
      end := start;
      while end > 0 && data[end - 1] == NL
        invariant 0 <= end <= start
        invariant LastLinked(Records(c, data)) == LastLinked(Records(c, data[..end]))
      {
        BeforeIs(c, data, end);
        end := end - 1;
      }
    }
    NothingLinked(c, data[..0]);
    return None;
  }

  lemma NothingLinked(c: Codec, data: Bytes)
    requires data == []
    ensures LastLinked(Records(c, data)) == None
  {
    EmptyReads(c, data);
  }

  // ------------------------------------------------------------------ appending and breaking off

  predicate Whole(data: Bytes) { data == [] || data[|data| - 1] == NL }

  /** terminateDanglingLine. */
  function Terminated(data: Bytes): Bytes { if Whole(data) then data else data + [NL] }

  function Line(c: Codec, r: Record): Bytes { c.enc(r) + [NL] }

  lemma TrimFlawless(b: Bytes)
    requires Flawless(b)
    ensures Trim(b) == b
  {
    assert b[|b| - 1] in b;
  }

  // Reading data, then one more line.
  lemma LineReads(c: Codec, data: Bytes, line: Bytes)
    requires c.dec([]).None? && Whole(data) && line != [] && NoNewline(line, 0, |line| - 1)
    ensures Records(c, data + line) == Records(c, data) + Parse(c, line)
  {
    hide Records, Skipped, Parse, Skip;
    var all := data + line;
    ScanLine(c, all, |data|, |all|);
    assert all[..|all|] == all && all[|data|..|all|] == line && all[..|data|] == data;
    BeforeIs(c, all, |data|);
  }

  lemma ParseOwn(c: Codec, r: Record)
    requires Faithful(c)
    ensures Parse(c, c.enc(r)) == [r] && Parse(c, Line(c, r)) == [r] && NoNewline(c.enc(r), 0, |c.enc(r)|)
  {
    TrimFlawless(c.enc(r));
    ParseNewline(c, c.enc(r));
    forall k | 0 <= k < |c.enc(r)| ensures c.enc(r)[k] != NL { assert c.enc(r)[k] in c.enc(r); }
  }

  /** A record appended to a file that ends with a line is read back behind what was there. */
  lemma AppendReads(c: Codec, data: Bytes, r: Record)
    requires Faithful(c) && Whole(data)
    ensures Records(c, data + Line(c, r)) == Records(c, data) + [r] && Whole(data + Line(c, r))
  {
    hide Records, Skipped, Parse, Skip;
    ParseOwn(c, r);
    LineReads(c, data, Line(c, r));
  }

  lemma TerminatedReads(c: Codec, data: Bytes)
    requires c.dec([]).None?
    ensures Records(c, Terminated(data)) == Records(c, data) && Whole(Terminated(data))
  {
    hide Records;
    if !Whole(data) {
      EndNewline(c, Terminated(data));
      assert Terminated(data)[..|data|] == data;
    }
  }

  lemma ParseTorn(c: Codec, r: Record, k: nat)
    requires Faithful(c) && k < |c.enc(r)|
    ensures Parse(c, c.enc(r)[..k]) == []
  {
  }

  /** What is left of a line broken off before its end decodes to nothing; the newline that the next
      start adds keeps it apart. A line that only lost its newline is still read. */
  lemma BrokenLineReads(c: Codec, data: Bytes, r: Record, k: nat)
    requires Faithful(c) && Whole(data) && k <= |c.enc(r)|
    ensures var torn := data + c.enc(r)[..k];
            && Records(c, Terminated(torn)) == Records(c, torn) && Whole(Terminated(torn))
            && Records(c, torn) == if k == |c.enc(r)| then Records(c, data) + [r] else Records(c, data)
  {
    hide Records, Skipped, Parse, Skip;
    var part := c.enc(r)[..k];
    TerminatedReads(c, data + part);
    ParseOwn(c, r);
    if k == |c.enc(r)| { assert part == c.enc(r); } else { ParseTorn(c, r, k); }
    if k == 0 { assert data + part == data; } else { LineReads(c, data, part); }
  }
}
