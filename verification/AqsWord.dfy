/** The lock word of AQS: the byte `locked` and the byte `no_stealing` share 32 bits that are read and written at three
    widths. */
module AqsWord {
  import opened AqsProtocol
  import opened Memory

  const NOSTEAL_VAL: bv32 := 0x100

  /** The byte `locked`. */
  function LockedByte(v: bv32): bv32 {
    v & 0xff
  }

  /** The two bytes `locked_no_stealing`. */
  function LowHalf(v: bv32): bv32 {
    v & 0xffff
  }

  /** The word after a store of `b` to the byte `locked`. */
  function StoreLocked(v: bv32, b: bv32): bv32 {
    (v & 0xffff_ff00) | (b & 0xff)
  }

  /** `smp_cas(&locked, 0, 1)` */
  function CasLockedByte(v: bv32): bv32 {
    if LockedByte(v) == 0 then StoreLocked(v, 1) else v
  }

  /** `smp_cas(&locked_no_stealing, 0, 1)` */
  function CasLowHalf(v: bv32): bv32 {
    if LowHalf(v) == 0 then (v & 0xffff_0000) | 1 else v
  }

  /** `atomic_andnot` on the whole word */
  function AllowStealing(v: bv32): bv32 {
    v & !NOSTEAL_VAL
  }

  /** `atomic_fetch_or_acquire` on the whole word */
  function ForbidStealing(v: bv32): bv32 {
    v | NOSTEAL_VAL
  }

  /** The word holds the two flags of the protocol, and nothing else. */
  predicate Packs(v: bv32, m: Shared) {
    v == (if m.locked then 1 else 0) | (if m.noStealing then NOSTEAL_VAL else 0)
  }

  /** The word after the step of a thread at `pc`. */
  function WordStep(v: bv32, pc: Pc, c: Choice): bv32 {
    match pc
    case Away(off) =>
      if off.Idle? then (if c.tryLock then CasLockedByte(v) else CasLowHalf(v))
      else if off.EnableStealing? then AllowStealing(v)
      else if off.Holding? then StoreLocked(v, 0)
      else v
    case Queued(q) => if q.DisableStealing? then ForbidStealing(v) else if q.CasLocked? then CasLockedByte(v) else v
    case Shuffle(_, _) => v
  }

  /** What the code reads of the word is what the protocol reads of the flags. */
  lemma ReadsAgree(v: bv32, m: Shared)
    requires Packs(v, m)
    ensures LockedByte(v) == (if m.locked then 1 else 0) && (LockedByte(v) == 0 <==> !m.locked)
    ensures LowHalf(v) == 0 <==> !m.locked && !m.noStealing
  {
  }

  /** The read-modify-writes of the stealing bit keep the lock byte, and the byte accesses keep the stealing bit: on the
      packed word every step has the effect that it has on the two flags. */
  lemma WordRefines(v: bv32, m: Shared, t: Tid, pc: Pc, c: Choice)
    requires Packs(v, m)
    ensures Packs(WordStep(v, pc, c), Act(m, t, pc, c).m)
  {
    match pc {
      case Away(off) => AwayWord(v, m, t, off, c);
      case Queued(q) => QueueWord(v, m, t, q, c);
      case Shuffle(vn, at) => ShuffleFlags(m, t, vn, at, c);
    }
  }

  lemma ShuffleFlags(m: Shared, t: Tid, vn: bool, at: ShufflePc, c: Choice)
    ensures ShuffleStep(m, t, vn, at, c).m.locked == m.locked &&
      ShuffleStep(m, t, vn, at, c).m.noStealing == m.noStealing
  {
  }

  lemma AwayWord(v: bv32, m: Shared, t: Tid, off: AwayPc, c: Choice)
    requires Packs(v, m)
    ensures Packs(WordStep(v, Away(off), c), AwayStep(m, t, off, c).m)
  {
    ReadsAgree(v, m);
  }

  lemma QueueWord(v: bv32, m: Shared, t: Tid, q: QueuePc, c: Choice)
    requires Packs(v, m)
    ensures Packs(WordStep(v, Queued(q), c), QueueStep(m, t, q).m)
  {
    ReadsAgree(v, m);
  }

  /** The word along a run of steps. */
  function WordAfter(v: bv32, s: State, steps: seq<(Tid, Choice)>): bv32
    decreases |steps|
  {
    if steps == [] then v
    else WordAfter(WordStep(v, s.pc(steps[0].0), steps[0].1), Step(s, steps[0].0, steps[0].1), steps[1..])
  }

  function After(s: State, steps: seq<(Tid, Choice)>): State
    decreases |steps|
  {
    if steps == [] then s else After(Step(s, steps[0].0, steps[0].1), steps[1..])
  }

  /** From an unlocked word on, the packed word and the protocol agree for ever. */
  lemma {:induction false} WordRuns(v: bv32, s: State, steps: seq<(Tid, Choice)>)
    requires Packs(v, s.m)
    ensures Packs(WordAfter(v, s, steps), After(s, steps).m)
    decreases |steps|
  {
    if steps != [] {
      var t, c := steps[0].0, steps[0].1;
      WordRefines(v, s.m, t, s.pc(t), c);
      WordRuns(WordStep(v, s.pc(t), c), Step(s, t, c), steps[1..]);
    }
  }
}
