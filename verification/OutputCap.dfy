/**
 Two threads capture a process's two pipes under one shared byte budget. Every
 access to the shared counter and flag is a step of its own.
 */
module OutputCap {
  import opened Wrappers

  type Bytes = seq<bv8>

  /** What one read of a pipe gives: some bytes, none at its end, or an error. */
  datatype ReadResult = Chunk(bytes: Bytes) | ReadError

  datatype Pc = Reading | Counting(chunk: Bytes) | Retaining(chunk: Bytes, previous: nat) | Marking | Done(ok: bool)

  /** A capture thread; `consumed` is everything it has read. */
  datatype Thread = Thread(pc: Pc, output: Bytes, consumed: Bytes)

  /** What both threads share. */
  datatype Shared = Shared(total: nat, overflow: bool)

  const NEW := Thread(Reading, [], [])

  function Min(a: nat, b: nat): nat { if a < b then a else b }

  /** How much of a chunk is kept when `previous` bytes were counted before it. */
  function Retain(count: nat, previous: nat, limit: nat): nat {
    Min(count, if previous < limit then limit - previous else 0)
  }

  /** One step of a thread; a read takes its result from `r`. */
  function ThreadStep(shared: Shared, t: Thread, limit: nat, r: ReadResult): (Shared, Thread) {
    match t.pc
    case Reading =>
      (match r
       case Chunk(bytes) =>
         if bytes == [] then (shared, t.(pc := Done(true)))
         else (shared, t.(pc := Counting(bytes), consumed := t.consumed + bytes))
       case ReadError => (shared, t.(pc := Done(false))))
    case Counting(chunk) => (shared.(total := shared.total + |chunk|), t.(pc := Retaining(chunk, shared.total)))
    case Retaining(chunk, previous) =>
      var retain := Retain(|chunk|, previous, limit);
      (shared, t.(pc := if retain != |chunk| then Marking else Reading, output := t.output + chunk[..retain]))
    case Marking => (shared.(overflow := true), t.(pc := Reading))
    case Done(_) => (shared, t)
  }

  datatype State = State(shared: Shared, out: Thread, err: Thread)

  const INITIAL := State(Shared(0, false), NEW, NEW)

  /** Which thread moves, and what its read would give. */
  datatype Move = Move(errorPipe: bool, read: ReadResult)

  function Next(s: State, limit: nat, m: Move): State {
    if m.errorPipe then
      var r := ThreadStep(s.shared, s.err, limit, m.read);
      State(r.0, s.out, r.1)
    else
      var r := ThreadStep(s.shared, s.out, limit, m.read);
      State(r.0, r.1, s.err)
  }

  function RunUpTo(limit: nat, moves: seq<Move>, n: nat): State
    requires n <= |moves|
  {
    if n == 0 then INITIAL else Next(RunUpTo(limit, moves, n - 1), limit, moves[n - 1])
  }

  // -------------------------------------------------------------------- invariants

  /** Bytes a thread has read but not counted, and those it was granted but has not kept. */
  function Uncounted(t: Thread): nat {
    if t.pc.Counting? then |t.pc.chunk| else 0
  }

  function Granted(t: Thread, limit: nat): nat {
    if t.pc.Retaining? then Retain(|t.pc.chunk|, t.pc.previous, limit) else 0
  }

  /** Everything read up to the chunk in hand. */
  function Settled(t: Thread): nat {
    |t.consumed| - if t.pc.Counting? || t.pc.Retaining? then Min(|t.pc.chunk|, |t.consumed|) else 0
  }

  ghost predicate ThreadOk(shared: Shared, t: Thread, limit: nat) {
    && (t.pc.Counting? || t.pc.Retaining? ==>
          |t.pc.chunk| <= |t.consumed| && t.consumed[|t.consumed| - |t.pc.chunk|..] == t.pc.chunk)
    && (t.pc.Retaining? ==> t.pc.previous + |t.pc.chunk| <= shared.total)
    && t.output <= t.consumed && |t.output| <= Settled(t)
    // whatever was cut off was cut off beyond the limit, and is or will be marked
    && (|t.output| < Settled(t) ==> limit < shared.total && (shared.overflow || t.pc.Marking?))
    && (|t.output| < Settled(t) && t.pc.Retaining? ==> limit <= t.pc.previous)
    && (t.pc.Marking? ==> |t.output| < Settled(t))
  }

  ghost predicate Inv(s: State, limit: nat) {
    && ThreadOk(s.shared, s.out, limit) && ThreadOk(s.shared, s.err, limit)
    && s.shared.total + Uncounted(s.out) + Uncounted(s.err) == |s.out.consumed| + |s.err.consumed|
    && |s.out.output| + |s.err.output| + Granted(s.out, limit) + Granted(s.err, limit) == Min(s.shared.total, limit)
    && (s.shared.overflow ==> limit < s.shared.total)
  }

  lemma StepKeepsThread(shared: Shared, t: Thread, limit: nat, r: ReadResult)
    requires ThreadOk(shared, t, limit)
    ensures var next := ThreadStep(shared, t, limit, r);
            ThreadOk(next.0, next.1, limit)
  {
    if t.pc.Retaining? {
      var cut := |t.consumed| - |t.pc.chunk|;
      assert t.consumed == t.consumed[..cut] + t.pc.chunk;
    }
  }

  /** A step counts and grants what it should, and the flag is set only beyond the limit. */
  lemma StepConserves(shared: Shared, t: Thread, limit: nat, r: ReadResult)
    requires ThreadOk(shared, t, limit)
    ensures var next := ThreadStep(shared, t, limit, r);
            && next.0.total + Uncounted(next.1) - |next.1.consumed| == shared.total + Uncounted(t) - |t.consumed|
            && |next.1.output| + Granted(next.1, limit) - Min(next.0.total, limit)
               == |t.output| + Granted(t, limit) - Min(shared.total, limit)
            && shared.total <= next.0.total
            && (next.0.overflow ==> shared.overflow || limit < next.0.total)
            && (shared.overflow ==> next.0.overflow)
  {
  }

  lemma OtherKeeps(shared: Shared, later: Shared, t: Thread, limit: nat)
    requires ThreadOk(shared, t, limit)
    requires shared.total <= later.total && (shared.overflow ==> later.overflow)
    ensures ThreadOk(later, t, limit)
  {
  }

  lemma NextKeeps(s: State, limit: nat, m: Move)
    requires Inv(s, limit)
    ensures Inv(Next(s, limit, m), limit)
  {
    var moving, waiting := if m.errorPipe then s.err else s.out, if m.errorPipe then s.out else s.err;
    StepKeepsThread(s.shared, moving, limit, m.read);
    StepConserves(s.shared, moving, limit, m.read);
    OtherKeeps(s.shared, ThreadStep(s.shared, moving, limit, m.read).0, waiting, limit);
  }

  /** In every interleaving both threads keep their invariant. */
  lemma {:induction false} RunKeeps(limit: nat, moves: seq<Move>, n: nat)
    requires n <= |moves|
    ensures Inv(RunUpTo(limit, moves, n), limit)
  {
    if n > 0 {
      RunKeeps(limit, moves, n - 1);
      NextKeeps(RunUpTo(limit, moves, n - 1), limit, moves[n - 1]);
    }
  }

  /** A read is taken whole: some bytes are added to what was read, the pipe's end or an error ends the thread. */
  lemma ReadIsTaken(shared: Shared, t: Thread, limit: nat, r: ReadResult)
    requires t.pc.Reading?
    ensures var next := ThreadStep(shared, t, limit, r);
            && next.0 == shared && next.1.output == t.output
            && match r
               case ReadError => next.1.pc == Done(false) && next.1.consumed == t.consumed
               case Chunk(bytes) => if bytes == [] then next.1.pc == Done(true) && next.1.consumed == t.consumed
                                    else !next.1.pc.Done? && next.1.consumed == t.consumed + bytes
  {
  }

  /** How many steps of its own a thread is from its next read. */
  function StepsToRead(pc: Pc): nat {
    match pc
    case Counting(_) => 3
    case Retaining(_, _) => 2
    case Marking => 1
    case _ => 0
  }

  /** Between two reads a thread takes at most three steps, reads nothing, and a thread that is done stays so. */
  lemma StepsComeToRead(shared: Shared, t: Thread, limit: nat, r: ReadResult)
    requires !t.pc.Reading?
    ensures var next := ThreadStep(shared, t, limit, r);
            && next.1.consumed == t.consumed
            && if t.pc.Done? then next.1 == t else !next.1.pc.Done? && StepsToRead(next.1.pc) < StepsToRead(t.pc)
  {
  }

  // ------------------------------------------------------------------ main results

  predicate BothDone(s: State) {
    s.out.pc.Done? && s.err.pc.Done?
  }

  /** What an otherwise successful run returns: both pipes' bytes, unless the flag is set or a read failed. */
  function Accepted(s: State): Option<(Bytes, Bytes)> {
    if s.shared.overflow || s.out.pc != Done(true) || s.err.pc != Done(true) then None
    else Some((s.out.output, s.err.output))
  }

  /**
   Over every interleaving, once both threads are done: what was kept is exactly as
   much of what was read as the limit allows, a prefix of each pipe, and the flag is
   set exactly when more than the limit was read.
   */
  lemma CapIsExact(limit: nat, moves: seq<Move>, s: State)
    requires s == RunUpTo(limit, moves, |moves|) && BothDone(s)
    ensures s.shared.total == |s.out.consumed| + |s.err.consumed|
    ensures |s.out.output| + |s.err.output| == Min(s.shared.total, limit)
    ensures s.out.output <= s.out.consumed && s.err.output <= s.err.consumed
    ensures s.shared.overflow <==> limit < s.shared.total
  {
    RunKeeps(limit, moves, |moves|);
  }

  /** At any moment no more than the limit is kept, and no more than was counted. */
  lemma NeverBeyondLimit(limit: nat, moves: seq<Move>, s: State)
    requires s == RunUpTo(limit, moves, |moves|)
    ensures |s.out.output| + |s.err.output| <= Min(s.shared.total, limit)
  {
    RunKeeps(limit, moves, |moves|);
  }

  /** A result is accepted exactly when both pipes ended well within the limit, and is then everything they carried. */
  lemma AcceptedIsComplete(limit: nat, moves: seq<Move>, s: State)
    requires s == RunUpTo(limit, moves, |moves|) && BothDone(s)
    ensures Accepted(s).Some? <==>
              s.out.pc == Done(true) && s.err.pc == Done(true) && |s.out.consumed| + |s.err.consumed| <= limit
    ensures Accepted(s).Some? ==> Accepted(s) == Some((s.out.consumed, s.err.consumed))
  {
    CapIsExact(limit, moves, s);
    if Accepted(s).Some? {
      assert |s.out.output| == |s.out.consumed| && |s.err.output| == |s.err.consumed|;
      assert s.out.output == s.out.consumed && s.err.output == s.err.consumed;
    }
  }

  // ---------------------------------------------------------------------- the thread

  class SharedCap {
    var total: nat
    var overflow: bool

    ghost function View(): Shared
      reads this
    {
      Shared(total, overflow)
    }

    constructor ()
      ensures View() == Shared(0, false)
    {
      total, overflow := 0, false;
    }

    /** Add to the total and answer what it was. */
    method FetchAdd(count: nat) returns (previous: nat)
      modifies this`total
      ensures previous == old(total) && total == old(total) + count
    {
      previous := total;
      total := total + count;
    }
  }

  /** The first `n` chunks put together. */
  function ConsumedUpTo(chunks: seq<Bytes>, n: nat): Bytes
    requires n <= |chunks|
  {
    if n == 0 then [] else ConsumedUpTo(chunks, n - 1) + chunks[n - 1]
  }

  /** What the other thread counts in its first `n` turns. */
  function CountedUpTo(others: seq<Shared>, n: nat): nat
    requires n <= |others|
  {
    if n == 0 then 0 else CountedUpTo(others, n - 1) + others[n - 1].total
  }

  /** What is kept of the first `n` chunks when `start` bytes were counted before them. */
  function KeptUpTo(chunks: seq<Bytes>, others: seq<Shared>, start: nat, limit: nat, n: nat): Bytes
    requires n <= |chunks| && n <= |others|
  {
    if n == 0 then []
    else
      var previous := start + |ConsumedUpTo(chunks, n - 1)| + CountedUpTo(others, n);
      KeptUpTo(chunks, others, start, limit, n - 1) + chunks[n - 1][..Retain(|chunks[n - 1]|, previous, limit)]
  }

  /** What a thread keeps is a prefix of what it reads, cut only beyond the limit. */
  lemma {:induction false} KeptIsPrefix(chunks: seq<Bytes>, others: seq<Shared>, start: nat, limit: nat, n: nat)
    requires n <= |chunks| && n <= |others|
    ensures var kept, read := KeptUpTo(chunks, others, start, limit, n), ConsumedUpTo(chunks, n);
            kept <= read && (|kept| < |read| ==> limit < start + |read| + CountedUpTo(others, n))
  {
    if n > 0 {
      KeptIsPrefix(chunks, others, start, limit, n - 1);
      var kept, read := KeptUpTo(chunks, others, start, limit, n - 1), ConsumedUpTo(chunks, n - 1);
      var previous := start + |read| + CountedUpTo(others, n);
      var more := chunks[n - 1][..Retain(|chunks[n - 1]|, previous, limit)];
      if |kept| == |read| { assert kept == read; } else { assert more == []; }
      assert read + more <= read + chunks[n - 1];
    }
  }

  lemma {:induction false} ReadGrows(chunks: seq<Bytes>, m: nat, n: nat)
    requires m <= n <= |chunks|
    ensures |ConsumedUpTo(chunks, m)| <= |ConsumedUpTo(chunks, n)|
  {
    if m < n { ReadGrows(chunks, m, n - 1); }
  }

  /** Byte `j` of chunk `k` is kept. */
  predicate IsKept(chunks: seq<Bytes>, kept: nat, k: nat, j: nat)
    requires k <= |chunks|
  {
    |ConsumedUpTo(chunks, k)| + j < kept
  }

  /** Bytes counted before byte `j` of chunk `k`: those at the start, those read before, and those the other thread counted by then. */
  function CountedBefore(chunks: seq<Bytes>, others: seq<Shared>, start: nat, k: nat, j: nat): nat
    requires k <= |chunks| && k < |others|
  {
    start + |ConsumedUpTo(chunks, k)| + CountedUpTo(others, k + 1) + j
  }

  lemma KeptGrows(chunks: seq<Bytes>, others: seq<Shared>, start: nat, limit: nat, n: nat)
    requires 0 < n <= |chunks| && n <= |others|
    ensures |KeptUpTo(chunks, others, start, limit, n)|
            == |KeptUpTo(chunks, others, start, limit, n - 1)|
               + Retain(|chunks[n - 1]|, CountedBefore(chunks, others, start, n - 1, 0), limit)
  {
  }

  /** A thread keeps a byte exactly if fewer bytes than the limit were counted before it. */
  lemma {:induction false} KeptExactlyWhen(chunks: seq<Bytes>, others: seq<Shared>, start: nat, limit: nat, n: nat, k: nat, j: nat)
    requires k < n <= |chunks| && n <= |others| && j < |chunks[k]|
    ensures IsKept(chunks, |KeptUpTo(chunks, others, start, limit, n)|, k, j)
            <==> CountedBefore(chunks, others, start, k, j) < limit
  {
    KeptGrows(chunks, others, start, limit, n);
    KeptLength(chunks, others, start, limit, n - 1);
    if k < n - 1 {
      KeptExactlyWhen(chunks, others, start, limit, n - 1, k, j);
      ReadGrows(chunks, k + 1, n - 1);
    }
  }

  /** The same for the lengths alone. */
  lemma KeptLength(chunks: seq<Bytes>, others: seq<Shared>, start: nat, limit: nat, n: nat)
    requires n <= |chunks| && n < |others|
    ensures var kept, read := |KeptUpTo(chunks, others, start, limit, n)|, |ConsumedUpTo(chunks, n)|;
            kept <= read && (kept < read ==> limit < CountedBefore(chunks, others, start, n, 0))
  {
    KeptIsPrefix(chunks, others, start, limit, n);
  }

  /**
   One capture thread: it reads these chunks, and then its pipe ends or a read fails.
   Before each of its counts the other thread counts `others[k].total` bytes and may
   set the flag. What was kept is returned unless the read failed; its size always.
   */
  method Capture(shared: SharedCap, limit: nat, chunks: seq<Bytes>, others: seq<Shared>, fails: bool)
    returns (result: Option<Bytes>, retained: nat)
    requires |others| == |chunks|
    requires forall k :: 0 <= k < |chunks| ==> chunks[k] != []
    modifies shared
    ensures var kept := KeptUpTo(chunks, others, old(shared.total), limit, |chunks|);
            && retained == |kept| <= limit && kept <= ConsumedUpTo(chunks, |chunks|)
            && result == (if fails then None else Some(kept))
            && (!shared.overflow ==> kept == ConsumedUpTo(chunks, |chunks|))
    ensures forall k, j :: 0 <= k < |chunks| && 0 <= j < |chunks[k]| ==>
              (IsKept(chunks, retained, k, j) <==> CountedBefore(chunks, others, old(shared.total), k, j) < limit)
    ensures old(shared.overflow) ==> shared.overflow
    ensures shared.total == old(shared.total) + |ConsumedUpTo(chunks, |chunks|)| + CountedUpTo(others, |others|)
    ensures shared.total <= limit && (forall k :: 0 <= k < |others| ==> !others[k].overflow) ==> shared.overflow == old(shared.overflow)
  {
    var output: Bytes := [];
    var k := 0;
    while k < |chunks|
      invariant 0 <= k <= |chunks|
      invariant output == KeptUpTo(chunks, others, old(shared.total), limit, k)
      invariant output <= ConsumedUpTo(chunks, k)
      invariant |output| <= limit && |output| <= shared.total
      invariant output != ConsumedUpTo(chunks, k) ==> shared.overflow && limit < shared.total
      invariant old(shared.overflow) ==> shared.overflow
      invariant shared.total == old(shared.total) + |ConsumedUpTo(chunks, k)| + CountedUpTo(others, k)
      invariant shared.total <= limit && (forall j :: 0 <= j < |others| ==> !others[j].overflow) ==> shared.overflow == old(shared.overflow)
    {
      shared.total := shared.total + others[k].total;
      shared.overflow := shared.overflow || others[k].overflow;
      var count := |chunks[k]|;
      var previous := shared.FetchAdd(count);
      var retain := Retain(count, previous, limit);
      assert output == ConsumedUpTo(chunks, k) ==> output + chunks[k][..retain] <= ConsumedUpTo(chunks, k) + chunks[k];
      output := output + chunks[k][..retain];
      if retain != count {
        shared.overflow := true;
      }
      k := k + 1;
    }
    forall k, j | 0 <= k < |chunks| && 0 <= j < |chunks[k]|
      ensures IsKept(chunks, |output|, k, j) <==> CountedBefore(chunks, others, old(shared.total), k, j) < limit {
      KeptExactlyWhen(chunks, others, old(shared.total), limit, |chunks|, k, j);
    }
    return if fails then None else Some(output), |output|;
  }
}
