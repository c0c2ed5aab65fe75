/** The kernel reader-writer semaphore: one 64-bit word holds the writer's byte and the readers' count. */
module RwsemWord {
  import opened Counting
  import opened Memory

  const W_LOCKED: nat := 0xbf
  const R_BIAS: nat := 512
  const WORD: nat := 0x1_0000_0000_0000_0000

  /** Where a thread is. Each constructor is the next access to the word or to `wait_lock`. */
  datatype Pc =
    | Idle
    | ReadAdd | ReadUndo | ReadLock | ReadAgain | ReadSpin | ReadUnlock | Reading
    | TryReadLoad | TryReadAdd | TryReadUndo
    | WriteCas | WriteLock | WriteLoad | WriteFirst | WriteSpin | WriteRetry | WriteUnlock | Writing
    | TryWriteLoad | TryWriteCas
    | Downgrade

  /** The word, and who holds the lock that serialises the slow paths. */
  datatype State = State(pc: Tid -> Pc, cnts: nat, waitLock: Option<Tid>)

  datatype Call = DownRead | DownReadTry | DownWrite | DownWriteTry

  /** What the code takes from outside: which call an idle thread makes, and whether a writer downgrades. */
  datatype Choice = Choice(call: Call, downgrade: bool)

  ghost predicate Init(n: nat, s: State) {
    n * R_BIAS + W_LOCKED < WORD && (forall t: Tid :: s.pc(t) == Idle) && s.cnts == 0 && s.waitLock == None
  }

  function Add(v: nat): nat {
    (v + R_BIAS) % WORD
  }

  function Sub(v: nat): nat {
    (v + WORD - R_BIAS) % WORD
  }

  /** `v & mask` is not 0; the masks have nothing above bit 8. */
  predicate Masked(v: nat, mask: bv16) {
    ((v % 512) as bv16) & mask != 0
  }

  /** RWAQM_W_WMASK, which also covers a waiting bit that nobody sets. */
  predicate WriterSeen(v: nat) {
    Masked(v, 0x1bf)
  }

  /** RWAQM_W_LOCKED as a mask. */
  predicate WriterLocked(v: nat) {
    Masked(v, 0x0bf)
  }

  /** The word after its low byte `wlocked` was stored as 0. */
  function ClearByte(v: nat): nat {
    v - v % 256
  }

  /** Result of one step: the word, `wait_lock`, and the thread's new program counter. */
  datatype Effect = Effect(cnts: nat, waitLock: Option<Tid>, pc: Pc)

  function ReadStep(v: nat, w: Option<Tid>, t: Tid, pc: Pc): Effect
    requires pc.ReadAdd? || pc.ReadUndo? || pc.ReadLock? || pc.ReadAgain? || pc.ReadSpin? || pc.ReadUnlock? ||
      pc.Reading?
      || pc.TryReadLoad? || pc.TryReadAdd? || pc.TryReadUndo?
  {
    match pc
    case ReadAdd => Effect(Add(v), w, if WriterSeen(Add(v)) then ReadUndo else Reading)
    case ReadUndo => Effect(Sub(v), w, ReadLock)
    case ReadLock => if w.None? then Effect(v, Some(t), ReadAgain) else Effect(v, w, ReadLock)
    case ReadAgain => Effect(Add(v), w, ReadSpin)
    case ReadSpin => Effect(v, w, if WriterLocked(v) then ReadSpin else ReadUnlock)
    case ReadUnlock => Effect(v, None, Reading)
    case Reading => Effect(Sub(v), w, Idle)
    case TryReadLoad => Effect(v, w, if WriterSeen(v) then Idle else TryReadAdd)
    case TryReadAdd => Effect(Add(v), w, if WriterSeen(Add(v)) then TryReadUndo else Reading)
    case TryReadUndo => Effect(Sub(v), w, Idle)
  }

  function Act(v: nat, w: Option<Tid>, t: Tid, pc: Pc, c: Choice): Effect {
    match pc
    case Idle =>
      Effect(v, w, match c.call
                   case DownRead => ReadAdd
                   case DownReadTry => TryReadLoad
                   case DownWrite => WriteCas
                   case DownWriteTry => TryWriteLoad)
    case WriteCas => if v == 0 then Effect(W_LOCKED, w, Writing) else Effect(v, w, WriteLock)
    case WriteLock => if w.None? then Effect(v, Some(t), WriteLoad) else Effect(v, w, WriteLock)
    case WriteLoad => Effect(v, w, if v == 0 then WriteFirst else WriteSpin)
    case WriteFirst => if v == 0 then Effect(W_LOCKED, w, WriteUnlock) else Effect(v, w, WriteSpin)
    case WriteSpin => Effect(v, w, if v == 0 then WriteRetry else WriteSpin)
    case WriteRetry => if v == 0 then Effect(W_LOCKED, w, WriteUnlock) else Effect(v, w, WriteSpin)
    case WriteUnlock => Effect(v, None, Writing)
    case Writing => if c.downgrade then Effect(Add(v), w, Downgrade) else Effect(ClearByte(v), w, Idle)
    case TryWriteLoad => Effect(v, w, if v == 0 then TryWriteCas else Idle)
    case TryWriteCas => if v == 0 then Effect(W_LOCKED, w, Writing) else Effect(v, w, Idle)
    case Downgrade => Effect(ClearByte(v), w, Reading)
    case _ => ReadStep(v, w, t, pc)
  }

  function Step(s: State, t: Tid, c: Choice): State {
    var e := Act(s.cnts, s.waitLock, t, s.pc(t), c);
    State(Store(s.pc, t, e.pc), e.cnts, e.waitLock)
  }

  // ---------- the invariant ----------

  /** The thread's reader bias is in the word, perhaps only for a moment. */
  predicate Biased(pc: Pc) {
    pc.ReadUndo? || pc.ReadSpin? || pc.ReadUnlock? || pc.Reading? || pc.TryReadUndo? || pc.Downgrade?
  }

  /** The writer's byte is this thread's. */
  predicate Locks(pc: Pc) {
    pc.WriteUnlock? || pc.Writing? || pc.Downgrade?
  }

  /** The thread has the lock for reading. */
  predicate Reads(pc: Pc) {
    pc.ReadUnlock? || pc.Reading?
  }

  /** Between taking and releasing `wait_lock`. */
  predicate Serial(pc: Pc) {
    pc.ReadAgain? || pc.ReadSpin? || pc.ReadUnlock? || pc.WriteLoad? || pc.WriteFirst? || pc.WriteSpin? ||
      pc.WriteRetry?
    || pc.WriteUnlock?
  }

  function BiasedOf(n: nat, s: State): set<Tid> {
    set t: Tid | 0 <= t < n && Biased(s.pc(t))
  }

  function LockersOf(n: nat, s: State): set<Tid> {
    set t: Tid | 0 <= t < n && Locks(s.pc(t))
  }

  /** The word is 512 for every reader bias, transient ones included, and 0xbf for a writer. */
  ghost predicate Word(n: nat, s: State) {
    && s.cnts == R_BIAS * |BiasedOf(n, s)| + W_LOCKED * |LockersOf(n, s)|
    && |LockersOf(n, s)| <= 1
  }

  ghost predicate Inv(n: nat, s: State) {
    && n * R_BIAS + W_LOCKED < WORD
    && (forall t: Tid :: t >= n ==> s.pc(t) == Idle)
    && Word(n, s)
    && (forall w: Tid, r: Tid :: Locks(s.pc(w)) ==> !Reads(s.pc(r)))
    && (forall t: Tid :: Serial(s.pc(t)) <==> s.waitLock == Some(t))
  }

  lemma MaskZero()
    ensures !Masked(0, 0x1bf) && !Masked(0, 0x0bf)
  {
  }

  lemma MaskLocked()
    ensures Masked(0xbf, 0x1bf) && Masked(0xbf, 0x0bf)
  {
    assert 0xbf % 512 == 0xbf;
    assert (0xbf as bv16) & 0x1bf == 0xbf;
  }

  /** With `b` biases the masks see exactly the writer. */
  lemma MaskTells(v: nat, b: nat, w: bool)
    requires v == R_BIAS * b + (if w then W_LOCKED else 0)
    ensures WriterSeen(v) == w && WriterLocked(v) == w
    ensures v % 256 == (if w then W_LOCKED else 0) && ClearByte(v) == R_BIAS * b
  {
    assert v % 512 == if w then 0xbf else 0;
    assert v % 256 == if w then 0xbf else 0;
    MaskZero();
    MaskLocked();
  }

  // ---------- counting ----------

  function One(b: bool): nat {
    if b then 1 else 0
  }

  lemma BiasedStep(n: nat, s: State, s': State, t: Tid)
    requires t < n && s'.pc == Store(s.pc, t, s'.pc(t))
    ensures |BiasedOf(n, s')| == |BiasedOf(n, s)| - One(Biased(s.pc(t))) + One(Biased(s'.pc(t)))
    ensures |BiasedOf(n, s)| <= n && (Biased(s.pc(t)) ==> |BiasedOf(n, s)| > 0)
  {
    var a, b := BiasedOf(n, s), BiasedOf(n, s');
    Subset(a, AllThreads(n));
    hide Biased;
    assert a - {t} == b - {t};
    assert t in a <==> Biased(s.pc(t));
    assert t in b <==> Biased(s'.pc(t));
    Without(a, t);
    Without(b, t);
  }

  lemma LockersStep(n: nat, s: State, s': State, t: Tid)
    requires t < n && s'.pc == Store(s.pc, t, s'.pc(t))
    ensures |LockersOf(n, s')| == |LockersOf(n, s)| - One(Locks(s.pc(t))) + One(Locks(s'.pc(t)))
    ensures Locks(s.pc(t)) ==> |LockersOf(n, s)| > 0
  {
    var a, b := LockersOf(n, s), LockersOf(n, s');
    Subset(a, AllThreads(n));
    hide Locks;
    assert a - {t} == b - {t};
    assert t in a <==> Locks(s.pc(t));
    assert t in b <==> Locks(s'.pc(t));
    Without(a, t);
    Without(b, t);
  }

  lemma Without(a: set<Tid>, t: Tid)
    ensures |a - {t}| == |a| - One(t in a)
  {
    if t in a { assert a == (a - {t}) + {t}; } else { assert a == a - {t}; }
  }

  lemma AddFits(n: nat, v: nat, b: nat, w: bool)
    requires n * R_BIAS + W_LOCKED < WORD && b < n && v == R_BIAS * b + (if w then W_LOCKED else 0)
    ensures Add(v) == v + R_BIAS
  {
  }

  lemma SubFits(n: nat, v: nat, b: nat, w: bool)
    requires n * R_BIAS + W_LOCKED < WORD && 0 < b <= n && v == R_BIAS * b + (if w then W_LOCKED else 0)
    ensures Sub(v) == v - R_BIAS
  {
    assert v + WORD - R_BIAS == (v - R_BIAS) + WORD;
  }

  /** What a thread can rely on when `b` biases and the writer's byte, if `w`, are in the word. */
  ghost predicate Reliable(v: nat, pc: Pc, w: bool) {
    && WriterSeen(v) == WriterLocked(v) == w && (v == 0 ==> !w)
    && (!Biased(pc) ==> Add(v) == v + R_BIAS && WriterSeen(Add(v)) == w)
    && (Biased(pc) ==> v >= R_BIAS && Sub(v) == v - R_BIAS)
    && (w ==> ClearByte(v) == v - W_LOCKED)
    && (Locks(pc) ==> w)
  }

  lemma WordReliable(n: nat, v: nat, pc: Pc, b: nat, w: bool)
    requires n * R_BIAS + W_LOCKED < WORD && v == R_BIAS * b + (if w then W_LOCKED else 0)
    requires (Biased(pc) ==> b > 0) && (Locks(pc) ==> w) && b + One(!Biased(pc)) <= n
    ensures Reliable(v, pc, w)
  {
    MaskTells(v, b, w);
    if !Biased(pc) {
      AddFits(n, v, b, w);
      MaskTells(v + R_BIAS, b + 1, w);
    } else {
      SubFits(n, v, b, w);
    }
    hide WriterSeen, WriterLocked, ClearByte, Add, Sub, Biased, Locks;
  }

  /** A step changes the word by the bias and the byte of its own thread; it takes the byte only from a word of 0, and
      lets a reader in only when no other thread has the byte. */
  lemma WordStep(v: nat, wl: Option<Tid>, t: Tid, pc: Pc, c: Choice, w: bool)
    requires Reliable(v, pc, w)
    ensures var e := Act(v, wl, t, pc, c);
      && (Locks(e.pc) && !Locks(pc) ==> v == 0)
      && (Reads(e.pc) && !Reads(pc) ==> !w || pc.Downgrade?)
      && e.cnts == v + R_BIAS * (One(Biased(e.pc)) - One(Biased(pc))) + W_LOCKED * (One(Locks(e.pc)) - One(Locks(pc)))
  {
    hide WriterSeen, WriterLocked, ClearByte, Add, Sub;
  }

  lemma SerialStep(s: State, t: Tid, c: Choice)
    requires forall x: Tid :: Serial(s.pc(x)) <==> s.waitLock == Some(x)
    ensures forall x: Tid :: Serial(Step(s, t, c).pc(x)) <==> Step(s, t, c).waitLock == Some(x)
  {
    hide Add, Sub, WriterSeen, WriterLocked, ClearByte;
  }

  lemma LockerIn(n: nat, s: State, w: Tid)
    requires w < n && Locks(s.pc(w)) && |LockersOf(n, s)| <= 1
    ensures |LockersOf(n, s)| == 1 && forall x: Tid :: x < n && Locks(s.pc(x)) ==> x == w
  {
    var a := LockersOf(n, s);
    assert w in a;
    Without(a, w);
    forall x: Tid | x < n && Locks(s.pc(x)) ensures x == w {
      assert x in a;
      assert |a - {w}| == 0;
      assert x !in a - {w};
    }
  }

  lemma NobodyBiased(n: nat, s: State, r: Tid)
    requires r < n && |BiasedOf(n, s)| == 0
    ensures !Biased(s.pc(r))
  {
    assert r !in BiasedOf(n, s);
  }

  /** Every step keeps the meaning of the word, and readers and writers apart. */
  lemma StepInv(n: nat, s: State, t: Tid, c: Choice)
    requires Inv(n, s) && t < n
    ensures Inv(n, Step(s, t, c))
  {
    var s', pc := Step(s, t, c), s.pc(t);
    var b, k := |BiasedOf(n, s)|, |LockersOf(n, s)|;
    BiasedStep(n, s, s', t);
    LockersStep(n, s, s', t);
    Room(n, s, t);
    WordReliable(n, s.cnts, pc, b, k == 1);
    WordStep(s.cnts, s.waitLock, t, pc, c, k == 1);
    SerialStep(s, t, c);
    hide Reliable, Act, BiasedOf, LockersOf, Serial, WriterSeen, WriterLocked, ClearByte, Add, Sub;
    forall w: Tid, r: Tid | Locks(s'.pc(w)) ensures !Reads(s'.pc(r)) {
      Apart(n, s, s', t, w, r);
    }
  }

  lemma Room(n: nat, s: State, t: Tid)
    requires t < n
    ensures |BiasedOf(n, s)| + One(!Biased(s.pc(t))) <= n
  {
    var a := BiasedOf(n, s);
    Subset(a + {t}, AllThreads(n));
    Without(a + {t}, t);
    Without(a, t);
    assert (a + {t}) - {t} == a - {t};
  }

  /** A writer comes in only on a word of 0, a reader only on one without the writer's byte. */
  lemma Apart(n: nat, s: State, s': State, t: Tid, w: Tid, r: Tid)
    requires Inv(n, s) && t < n && s'.pc == Store(s.pc, t, s'.pc(t)) && Locks(s'.pc(w))
    requires Locks(s'.pc(t)) && !Locks(s.pc(t)) ==> s.cnts == 0
    requires Reads(s'.pc(t)) && !Reads(s.pc(t)) ==> |LockersOf(n, s)| != 1 || s.pc(t).Downgrade?
    ensures !Reads(s'.pc(r))
  {
    if w == t && !Locks(s.pc(t)) {
      if r < n { NobodyBiased(n, s, r); }
    } else if w < n {
      LockerIn(n, s, w);
    }
    hide BiasedOf, LockersOf;
  }

  // ---------- all runs ----------

  ghost predicate Steps(n: nat, s: State, s': State, t: Tid, c: Choice) {
    t < n && s' == Step(s, t, c)
  }

  ghost predicate Next(n: nat, s: State, s': State) {
    exists t: Tid, c: Choice :: Steps(n, s, s', t, c)
  }

  /** A run of `n` threads, few enough for the reader count to fit its bits. */
  ghost predicate Run(n: nat, run: seq<State>) {
    run != [] && Init(n, run[0]) && forall i :: 0 <= i < |run| - 1 ==> Next(n, run[i], run[i + 1])
  }

  /** Writers exclude each other and readers; a downgrading writer counts as a writer until it is a reader. */
  ghost predicate Exclusive(s: State) {
    && (forall t: Tid, u: Tid :: Locks(s.pc(t)) && Locks(s.pc(u)) ==> t == u)
    && (forall w: Tid, r: Tid :: Locks(s.pc(w)) ==> !Reads(s.pc(r)))
  }

  /** The store of one byte in `up_write` and `downgrade_write` takes away the writer and nothing else. */
  ghost predicate ByteIsWriter(s: State) {
    forall w: Tid :: Locks(s.pc(w)) ==> s.cnts >= W_LOCKED && ClearByte(s.cnts) == s.cnts - W_LOCKED
  }

  ghost predicate Safe(n: nat, s: State) {
    && Exclusive(s) && ByteIsWriter(s) && Word(n, s)
    && ((forall t: Tid :: s.pc(t) == Idle) ==> s.cnts == 0 && s.waitLock == None)
  }

  lemma InvByte(n: nat, s: State, w: Tid)
    requires Inv(n, s) && Locks(s.pc(w))
    ensures s.cnts >= W_LOCKED && ClearByte(s.cnts) == s.cnts - W_LOCKED
  {
    LockerIn(n, s, w);
    MaskTells(s.cnts, |BiasedOf(n, s)|, true);
  }

  lemma InvQuiet(n: nat, s: State)
    requires Inv(n, s) && forall t: Tid :: s.pc(t) == Idle
    ensures s.cnts == 0 && s.waitLock == None
  {
    assert BiasedOf(n, s) == {} && LockersOf(n, s) == {};
    assert s.waitLock.Some? ==> Serial(s.pc(s.waitLock.value));
  }

  lemma InvSafe(n: nat, s: State)
    requires Inv(n, s)
    ensures Safe(n, s)
  {
    forall t: Tid, u: Tid | Locks(s.pc(t)) && Locks(s.pc(u)) ensures t == u { LockerIn(n, s, t); }
    forall w: Tid | Locks(s.pc(w)) ensures s.cnts >= W_LOCKED && ClearByte(s.cnts) == s.cnts - W_LOCKED {
      InvByte(n, s, w);
    }
    hide Word, ClearByte;
    if forall t: Tid :: s.pc(t) == Idle { InvQuiet(n, s); }
  }

  lemma InitInv(n: nat, s: State)
    requires Init(n, s)
    ensures Inv(n, s)
  {
    assert BiasedOf(n, s) == {} && LockersOf(n, s) == {};
  }

  lemma {:induction false} RunInv(n: nat, run: seq<State>, i: nat)
    requires Run(n, run) && i < |run|
    ensures Inv(n, run[i])
  {
    hide Inv, Init, Step;
    if i == 0 {
      InitInv(n, run[0]);
    } else {
      RunInv(n, run, i - 1);
      assert Next(n, run[i - 1], run[i - 1 + 1]);
      var t: Tid, c: Choice :| Steps(n, run[i - 1], run[i], t, c);
      StepInv(n, run[i - 1], t, c);
    }
  }

  /** Every state of every run is safe. */
  lemma RunSafe(n: nat, run: seq<State>, i: nat)
    requires Run(n, run) && i < |run|
    ensures Safe(n, run[i])
  {
    RunInv(n, run, i);
    InvSafe(n, run[i]);
  }
}
