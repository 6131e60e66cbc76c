/** The shared motion gate: a Safety state and a 56-bit motion epoch packed in one 64-bit word.

    Every operation of the gate is a load / compare-and-swap retry loop on that word. `Apply` is
    the atomic meaning of each operation; class `Gate` is the loop, run against a schedule of
    other threads' operations, and is proved to be exactly one `Apply` at one instant.
 */
module MotionGate {

  const EPOCH_MODULUS: nat := 0x100_0000_0000_0000 // 2^56
  const WORD_MODULUS: nat := 0x1_0000_0000_0000_0000 // 2^64

  // State codes of the high byte.
  const INVALID: nat := 0
  const NORMAL: nat := 1
  const LATCHED: nat := 2
  const RECOVERY: nat := 3
  const REARM: nat := 4

  type Word = w: nat | w < WORD_MODULUS witness 0
  type Epoch = e: nat | e < EPOCH_MODULUS witness 0
  type StateCode = s: nat | s < 256 witness 0

  /** `uint64(s)<<56 | epoch&mask`: the two fields occupy disjoint bits, so `|` is a sum. */
  function Pack(s: StateCode, epoch: nat): Word {
    s * EPOCH_MODULUS + epoch % EPOCH_MODULUS
  }

  function StateOf(w: Word): StateCode { w / EPOCH_MODULUS }

  function EpochOf(w: Word): Epoch { w % EPOCH_MODULUS }

  /** Packing is exact on 8 + 56 bits, in both directions. */
  lemma PackExact(s: StateCode, e: Epoch, w: Word)
    ensures StateOf(Pack(s, e)) == s && EpochOf(Pack(s, e)) == e
    ensures Pack(StateOf(w), EpochOf(w)) == w
  {
  }

  /** The next epoch: wraps in 56 bits and skips 0, the invalid generation. */
  function IncEpoch(e: Epoch): Epoch {
    var ne := (e + 1) % EPOCH_MODULUS;
    if ne == 0 then 1 else ne
  }

  datatype Op = Trip | Bump | BumpIfNormal | BeginRecovery | RequireRearm | Rearm

  /** One operation on an unchanging word: the word it leaves, and whether it took effect. */
  function Apply(w: Word, op: Op): (Word, bool) {
    var s, e := StateOf(w), EpochOf(w);
    match op
    case Trip => if s == LATCHED then (w, false) else (Pack(LATCHED, IncEpoch(e)), true)
    case Bump => (Pack(s, IncEpoch(e)), true)
    case BumpIfNormal => if s != NORMAL then (w, false) else (Pack(s, IncEpoch(e)), true)
    case BeginRecovery => if s != LATCHED then (w, false) else (Pack(RECOVERY, e), true)
    case RequireRearm => if s != LATCHED && s != RECOVERY then (w, false) else (Pack(REARM, e), true)
    case Rearm => if s != REARM then (w, false) else (Pack(NORMAL, IncEpoch(e)), true)
  }

  function Run(w: Word, ops: seq<Op>): Word {
    if ops == [] then w else Apply(Run(w, ops[..|ops| - 1]), ops[|ops| - 1]).0
  }

  const Fresh: Word := Pack(NORMAL, 1)

  // ------------------------------------------------------------------ runs

  /** The gate never shows epoch 0 nor an invalid state, even if the epoch wraps. */
  lemma {:induction false} NeverInvalid(ops: seq<Op>)
    ensures EpochOf(Run(Fresh, ops)) != 0
    ensures StateOf(Run(Fresh, ops)) in {NORMAL, LATCHED, RECOVERY, REARM}
  {
    if ops != [] {
      var w := Run(Fresh, ops[..|ops| - 1]);
      NeverInvalid(ops[..|ops| - 1]);
      PackExact(LATCHED, IncEpoch(EpochOf(w)), w);
      PackExact(NORMAL, IncEpoch(EpochOf(w)), w);
      PackExact(RECOVERY, EpochOf(w), w);
      PackExact(REARM, EpochOf(w), w);
      PackExact(StateOf(w), IncEpoch(EpochOf(w)), w);
    }
  }

  function Rank(s: StateCode): nat {
    if s == NORMAL then 0 else if s == LATCHED then 1 else if s == RECOVERY then 2 else 3
  }

  /** Where a word stands in the gate's life: epochs only grow, and inside one epoch the state
      only moves LATCHED, RECOVERY, REARM. */
  function Age(w: Word): nat { 4 * EpochOf(w) + Rank(StateOf(w)) }

  /** Short of 2^56 boundaries an effective operation always makes the word strictly older, so a
      word that has been left is never shown again. */
  lemma {:induction false} EffectiveOpAges(w: Word, op: Op)
    requires EpochOf(w) + 1 < EPOCH_MODULUS
    requires StateOf(w) in {NORMAL, LATCHED, RECOVERY, REARM}
    ensures var (w', took) := Apply(w, op);
            if took then Age(w) < Age(w') && StateOf(w') in {NORMAL, LATCHED, RECOVERY, REARM}
            else w' == w
    ensures var (w', took) := Apply(w, op);
            EpochOf(w') == EpochOf(w) + if took && (op in {Trip, Bump, BumpIfNormal, Rearm}) then 1 else 0
  {
    PackExact(LATCHED, IncEpoch(EpochOf(w)), w);
    PackExact(NORMAL, IncEpoch(EpochOf(w)), w);
    PackExact(RECOVERY, EpochOf(w), w);
    PackExact(REARM, EpochOf(w), w);
    PackExact(StateOf(w), IncEpoch(EpochOf(w)), w);
  }

  /** A word seen twice in a run means that nothing took effect in between. */
  lemma {:induction false} NoAba(w: Word, ops: seq<Op>)
    requires StateOf(w) in {NORMAL, LATCHED, RECOVERY, REARM}
    requires EpochOf(w) + |ops| < EPOCH_MODULUS
    ensures StateOf(Run(w, ops)) in {NORMAL, LATCHED, RECOVERY, REARM}
    ensures EpochOf(Run(w, ops)) <= EpochOf(w) + |ops|
    ensures Age(w) <= Age(Run(w, ops))
    ensures Run(w, ops) == w ==> forall n :: 0 <= n <= |ops| ==> Run(w, ops[..n]) == w
  {
    if ops != [] {
      var init := ops[..|ops| - 1];
      NoAba(w, init);
      EffectiveOpAges(Run(w, init), ops[|ops| - 1]);
      if Run(w, ops) == w {
        assert Run(w, init) == w;
        forall n | 0 <= n <= |ops| ensures Run(w, ops[..n]) == w {
          if n < |ops| { assert init[..n] == ops[..n]; } else { assert ops[..n] == ops; }
        }
      }
    } else {
      assert ops[..0] == ops;
    }
  }

  /** From a Trip until the next Trip or Rearm the epoch is frozen: every lease operation that
      would advance it is refused. */
  lemma {:induction false} FrozenAfterTrip(w: Word, ops: seq<Op>)
    requires StateOf(w) in {LATCHED, RECOVERY, REARM}
    requires forall i :: 0 <= i < |ops| ==> ops[i] !in {Trip, Rearm, Bump}
    ensures StateOf(Run(w, ops)) in {LATCHED, RECOVERY, REARM}
    ensures EpochOf(Run(w, ops)) == EpochOf(w)
  {
    if ops != [] {
      var w1 := Run(w, ops[..|ops| - 1]);
      FrozenAfterTrip(w, ops[..|ops| - 1]);
      PackExact(RECOVERY, EpochOf(w1), w1);
      PackExact(REARM, EpochOf(w1), w1);
    }
  }

  // ------------------------------------------------------------ the retry loops

  function Flatten(sched: seq<seq<Op>>): seq<Op> {
    if sched == [] then [] else Flatten(sched[..|sched| - 1]) + sched[|sched| - 1]
  }

  lemma {:induction false} RunAppend(w: Word, a: seq<Op>, b: seq<Op>)
    ensures Run(w, a + b) == Run(Run(w, a), b)
  {
    if b == [] {
      assert a + b == a;
    } else {
      RunAppend(w, a, b[..|b| - 1]);
      assert (a + b)[..|a + b| - 1] == a + b[..|b| - 1];
    }
  }

  /** The gate object. `sched[i]` is what other threads do to the word between the load and the
      compare-and-swap of attempt i; after the schedule runs out they are quiet. `log` records
      every operation, by whomever, in the order in which it took its effect. */
  class Gate {
    var word: Word
    ghost var log: seq<Op>

    ghost predicate Valid()
      reads this
    {
      word == Run(Fresh, log)
    }

    constructor ()
      ensures Valid() && log == [] && word == Fresh
    {
      word := Fresh;
      log := [];
    }

    method Others(ops: seq<Op>)
      requires Valid()
      modifies this
      ensures Valid() && log == old(log) + ops
    {
      var w := word;
      var i := 0;
      assert ops[..0] == [];
      while i < |ops|
        invariant 0 <= i <= |ops|
        invariant w == Run(old(word), ops[..i])
      {
        w := Apply(w, ops[i]).0;
        i := i + 1;
        assert ops[..i][..i - 1] == ops[..i - 1];
      }
      assert ops[..i] == ops;
      RunAppend(Fresh, log, ops);
      word, log := w, log + ops;
    }

    /** The single compare-and-swap of an attempt that loaded `seen` and wants `next`. */
    method CompareAndSwap(seen: Word, next: Word, ghost op: Op) returns (ok: bool)
      requires Valid() && Apply(seen, op) == (next, true)
      modifies this
      ensures Valid() && ok == (old(word) == seen)
      ensures ok ==> word == next && log == old(log) + [op]
      ensures ok ==> Apply(Run(Fresh, old(log)), op).1
      ensures !ok ==> word == old(word) && log == old(log)
    {
      ok := word == seen;
      if ok {
        RunAppend(Fresh, log, [op]);
        assert [op][..0] == [];
        word, log := next, log + [op];
      }
    }

    /** Latch: exactly one atomic Trip, after some prefix of the interference. */
    method Trip(sched: seq<seq<Op>>) returns (took: bool)
      requires Valid()
      modifies this
      ensures Valid()
      ensures exists n :: 0 <= n <= |sched| && OneAtomicOp(old(log), sched[..n], Op.Trip, log, took)
    {
      var n := 0;
      assert sched[..0] == [];
      while true
        invariant Valid() && 0 <= n <= |sched|
        invariant log == old(log) + Flatten(sched[..n])
        decreases |sched| - n
      {
        var seen := word;
        if StateOf(seen) == LATCHED {
          Refused(old(log), sched[..n], Op.Trip);
          log := log + [Op.Trip];
          return false;
        }
        if n < |sched| {
          FlattenNext(sched, n);
          Others(sched[n]);
          n := n + 1;
        }
        ghost var before := log;
        took := CompareAndSwap(seen, Pack(LATCHED, IncEpoch(EpochOf(seen))), Op.Trip);
        if took {
          assert before == old(log) + Flatten(sched[..n]) && OneAtomicOp(old(log), sched[..n], Op.Trip, log, took);
          return true;
        }
      }
    }

    /** Allocate the next token, only while Normal: test and increment are one instant. */
    method BumpEpochIfNormal(sched: seq<seq<Op>>) returns (epoch: Epoch, took: bool)
      requires Valid()
      modifies this
      ensures Valid()
      ensures exists n :: 0 <= n <= |sched| && OneAtomicOp(old(log), sched[..n], Op.BumpIfNormal, log, took)
      ensures took ==> StateOf(word) == NORMAL && EpochOf(word) == epoch
      ensures !took ==> StateOf(word) != NORMAL && EpochOf(word) == epoch
    {
      var n := 0;
      assert sched[..0] == [];
      while true
        invariant Valid() && 0 <= n <= |sched|
        invariant log == old(log) + Flatten(sched[..n])
        decreases |sched| - n
      {
        var seen := word;
        if StateOf(seen) != NORMAL {
          Refused(old(log), sched[..n], Op.BumpIfNormal);
          log := log + [Op.BumpIfNormal];
          return EpochOf(seen), false;
        }
        if n < |sched| {
          FlattenNext(sched, n);
          Others(sched[n]);
          n := n + 1;
        }
        ghost var before := log;
        took := CompareAndSwap(seen, Pack(NORMAL, IncEpoch(EpochOf(seen))), Op.BumpIfNormal);
        if took {
          PackExact(NORMAL, IncEpoch(EpochOf(seen)), seen);
          assert before == old(log) + Flatten(sched[..n]) && OneAtomicOp(old(log), sched[..n], Op.BumpIfNormal, log, took);
          return IncEpoch(EpochOf(seen)), true;
        }
      }
    }

    /** Require an explicit re-arm, from the latch or from OEM recovery. */
    method RequireRearm(sched: seq<seq<Op>>) returns (took: bool)
      requires Valid()
      modifies this
      ensures Valid()
      ensures exists n :: 0 <= n <= |sched| && OneAtomicOp(old(log), sched[..n], Op.RequireRearm, log, took)
    {
      var n := 0;
      assert sched[..0] == [];
      while true
        invariant Valid() && 0 <= n <= |sched|
        invariant log == old(log) + Flatten(sched[..n])
        decreases |sched| - n
      {
        var seen := word;
        if StateOf(seen) != LATCHED && StateOf(seen) != RECOVERY {
          Refused(old(log), sched[..n], Op.RequireRearm);
          log := log + [Op.RequireRearm];
          return false;
        }
        if n < |sched| {
          FlattenNext(sched, n);
          Others(sched[n]);
          n := n + 1;
        }
        ghost var before := log;
        took := CompareAndSwap(seen, Pack(REARM, EpochOf(seen)), Op.RequireRearm);
        if took {
          assert before == old(log) + Flatten(sched[..n]) && OneAtomicOp(old(log), sched[..n], Op.RequireRearm, log, took);
          return true;
        }
      }
    }

    /** The single-source transitions: BeginRecovery keeps the epoch, Rearm advances it. */
    method Cas1(op: Op, sched: seq<seq<Op>>) returns (took: bool)
      requires Valid()
      requires op == BeginRecovery || op == Op.Rearm
      modifies this
      ensures Valid()
      ensures exists n :: 0 <= n <= |sched| && OneAtomicOp(old(log), sched[..n], op, log, took)
    {
      var n := 0;
      assert sched[..0] == [];
      while true
        invariant Valid() && 0 <= n <= |sched|
        invariant log == old(log) + Flatten(sched[..n])
        decreases |sched| - n
      {
        var seen := word;
        if StateOf(seen) != (if op == BeginRecovery then LATCHED else REARM) {
          Refused(old(log), sched[..n], op);
          log := log + [op];
          return false;
        }
        if n < |sched| {
          FlattenNext(sched, n);
          Others(sched[n]);
          n := n + 1;
        }
        ghost var before := log;
        took := CompareAndSwap(seen, if op == BeginRecovery then Pack(RECOVERY, EpochOf(seen)) else Pack(NORMAL, IncEpoch(EpochOf(seen))), op);
        if took {
          assert before == old(log) + Flatten(sched[..n]) && OneAtomicOp(old(log), sched[..n], op, log, took);
          return true;
        }
      }
    }
  }

  /** The log after one operation: the others' prefix, then the operation, once, with the result
      it has at that very point. */
  ghost predicate OneAtomicOp(before: seq<Op>, others: seq<seq<Op>>, op: Op, after: seq<Op>, took: bool) {
    && after == before + Flatten(others) + [op]
    && took == Apply(Run(Fresh, before + Flatten(others)), op).1
  }

  lemma FlattenNext(sched: seq<seq<Op>>, n: nat)
    requires n < |sched|
    ensures Flatten(sched[..n + 1]) == Flatten(sched[..n]) + sched[n]
  {
    assert sched[..n + 1][..n] == sched[..n];
  }

  lemma Refused(before: seq<Op>, others: seq<seq<Op>>, op: Op)
    requires !Apply(Run(Fresh, before + Flatten(others)), op).1
    ensures Run(Fresh, before + Flatten(others) + [op]) == Run(Fresh, before + Flatten(others))
  {
    RunAppend(Fresh, before + Flatten(others), [op]);
    assert [op][..0] == [];
  }
}
