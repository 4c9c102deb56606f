/**
 Delivery over whole runs: one shard, the worker that leases it, its checkpoint and what the sink received. The worker library
 drives the record processor of module Adapter and hands over the records in order, in batches of any size. It cannot know
 that a post failed, nor does the processor learn that a checkpoint write was lost. The library keeps the checkpoint in memory
 as well, and writes it again whenever it renews or takes the lease. A worker starts at the stored checkpoint, or else at the
 one in memory, or else at the tip of the shard. It may stop at any time without a call to the processor, and the process may
 crash at any time and lose its memory.
 */
module Delivery {
  import opened Basics
  import opened Adapter

  datatype Worker = Idle | Running(next: nat)

  /** A batch that was handed to the processor: the records log[lo..hi]. */
  datatype Attempt = Attempt(lo: nat, hi: nat, reply: Reply)

  /**
   stored is the checkpoint in the lease table, cached the one in the memory of the process, and start the position where the
   worker started, or the last one did. attempts and origin are history: all batches handed over so far, and the position
   where the worker had started whose checkpoint was the first to be stored.
   */
  datatype Shard = Shard(
    log: seq<Record>,
    closed: bool,
    stored: Checkpoint,
    cached: Checkpoint,
    worker: Worker,
    start: nat,
    received: seq<seq<Record>>,
    attempts: seq<Attempt>,
    origin: Option<nat>)

  /** Renew writes the cached checkpoint along with the lease. Leave is a worker that stops without calling the processor. */
  datatype Step =
    | Append(record: Record)
    | Close
    | Start
    | Process(n: nat, reply: Reply, landed: bool)
    | Stop(reason: ShutdownReason, landed: bool)
    | Renew
    | Leave
    | Crash

  ghost predicate Increasing(log: seq<Record>)
  {
    forall i, j | 0 <= i < j < |log| :: log[i].sequenceNumber < log[j].sequenceNumber
  }

  /** The position after the last record whose sequence number is at most sn. */
  function PositionAfter(log: seq<Record>, sn: SequenceNumber): nat
  {
    if log == [] then 0
    else
      var n := |log| - 1;
      if log[n].sequenceNumber <= sn then |log| else PositionAfter(log[..n], sn)
  }

  lemma {:induction false} PositionAfterRecord(log: seq<Record>, k: nat)
    requires Increasing(log) && k < |log|
    ensures PositionAfter(log, log[k].sequenceNumber) == k + 1
  {
    var n := |log| - 1;
    if k < n {
      assert log[..n][k] == log[k];
      PositionAfterRecord(log[..n], k);
    }
  }

  /** Where a worker starts for a checkpoint; without one, at the tip. */
  function Position(log: seq<Record>, c: Checkpoint): nat
  {
    match c
    case NoCheckpoint => |log|
    case At(sn) => PositionAfter(log, sn)
    case ShardEnd => |log|
  }

  /** The position up to which the stored checkpoint accounts for the records. */
  function Resume(s: Shard): nat { Position(s.log, s.stored) }

  /** The checkpoint that the process goes by when it takes the lease. */
  function Known(s: Shard): Checkpoint
  {
    if s.stored != NoCheckpoint then s.stored else s.cached
  }

  predicate Valid(s: Shard, step: Step)
  {
    match step
    case Append(r) => !s.closed && (s.log != [] ==> s.log[|s.log| - 1].sequenceNumber < r.sequenceNumber)
    case Close => !s.closed
    case Start => s.worker == Idle && Known(s) != ShardEnd
    case Process(n, _, _) => s.worker.Running? && s.worker.next + n <= |s.log|
    case Stop(reason, _) => s.worker.Running? && (reason == Terminate ==> s.closed && s.worker.next == |s.log|)
    case Renew => s.cached.At? && (s.worker == Idle ==> s.stored == NoCheckpoint)
    case Leave => s.worker.Running?
    case Crash => true
  }

  function Origin(s: Shard, stored: Checkpoint): Option<nat>
  {
    if s.stored == NoCheckpoint && stored != NoCheckpoint then Some(s.start) else s.origin
  }

  function Next(s: Shard, step: Step): Shard
    requires Valid(s, step)
  {
    match step
    case Append(r) => s.(log := s.log + [r])
    case Close => s.(closed := true)
    case Start =>
      var known := Known(s);
      var position := Position(s.log, known);
      s.(stored := known, cached := known, origin := Origin(s, known), worker := Running(position), start := position)
    case Process(n, reply, landed) =>
      var lo := s.worker.next;
      var batch := s.log[lo..lo + n];
      var stored := AfterProcess(s.stored, batch, reply, landed);
      s.(worker := Running(lo + n),
         received := if batch == [] then s.received else AfterSend(s.received, batch, reply),
         attempts := if batch == [] then s.attempts else s.attempts + [Attempt(lo, lo + n, reply)],
         cached := AfterProcess(s.cached, batch, reply, true),
         stored := stored,
         origin := Origin(s, stored))
    case Stop(reason, landed) =>
      var stored := AfterShutdown(s.stored, reason, landed);
      var cached := if reason == Requested then NoCheckpoint else AfterShutdown(s.cached, reason, true);
      s.(worker := Idle, cached := cached, stored := stored, origin := Origin(s, stored))
    case Renew => s.(stored := s.cached, origin := Origin(s, s.cached))
    case Leave => s.(worker := Idle)
    case Crash => s.(worker := Idle, cached := NoCheckpoint)
  }

  ghost predicate ValidRun(s: Shard, run: seq<Step>)
    decreases |run|
  {
    run == [] || (Valid(s, run[0]) && ValidRun(Next(s, run[0]), run[1..]))
  }

  ghost function Final(s: Shard, run: seq<Step>): Shard
    requires ValidRun(s, run)
    decreases |run|
  {
    if run == [] then s else Final(Next(s, run[0]), run[1..])
  }

  /** A shard that nobody has consumed from yet; it may hold records already. */
  ghost predicate Initial(s: Shard)
  {
    && Increasing(s.log) && s.stored == NoCheckpoint && s.cached == NoCheckpoint && s.worker == Idle && s.start == 0
    && s.received == [] && s.attempts == [] && s.origin == None
  }

  // ----- What was attempted and what arrived -----

  predicate Covers(a: Attempt, k: nat) { a.lo <= k < a.hi }

  ghost predicate Attempted(attempts: seq<Attempt>, k: nat)
  {
    exists a :: a in attempts && Covers(a, k)
  }

  /** Record k arrived at the sink in some event. */
  ghost predicate Delivered(s: Shard, k: nat)
    requires k < |s.log|
  {
    exists e :: e in s.received && s.log[k] in e
  }

  /** An attempt that reached the sink and covered k. */
  ghost predicate Carried(attempts: seq<Attempt>, k: nat)
  {
    exists a :: a in attempts && Covers(a, k) && a.reply != Rejected
  }

  ghost predicate WellPlaced(log: seq<Record>, attempts: seq<Attempt>)
  {
    forall a | a in attempts :: a.lo < a.hi <= |log|
  }

  /** The sink holds exactly the batches of the attempts that reached it. */
  ghost predicate SinkMatches(log: seq<Record>, attempts: seq<Attempt>, received: seq<seq<Record>>)
    requires WellPlaced(log, attempts)
  {
    forall e :: e in received <==> exists a :: a in attempts && a.reply != Rejected && e == log[a.lo..a.hi]
  }

  // ----- The invariant of every run -----

  ghost predicate Reach(attempts: seq<Attempt>, lo: nat, hi: nat)
  {
    forall k: nat | lo <= k < hi :: Attempted(attempts, k)
  }

  /** A checkpoint with a sequence number is the last record of a batch that was accepted. */
  ghost predicate OfAccepted(log: seq<Record>, attempts: seq<Attempt>, c: Checkpoint)
    requires WellPlaced(log, attempts)
  {
    c.At? ==> exists a :: a in attempts && a.reply == Accepted && log[a.hi - 1].sequenceNumber == c.sequenceNumber
  }

  /** The stored checkpoint, and what it accounts for. */
  ghost predicate StoredInvariant(s: Shard)
  {
    && (s.stored == ShardEnd ==> s.closed && s.worker == Idle)
    && (s.origin == None <==> s.stored == NoCheckpoint)
    && (s.origin.Some? ==> s.origin.value <= Resume(s) <= |s.log| && Reach(s.attempts, s.origin.value, Resume(s)))
  }

  /** The checkpoint in memory: it is at least as far as the stored one, and accounts for what its worker was handed. */
  ghost predicate CachedInvariant(s: Shard)
  {
    && (s.cached == ShardEnd ==> s.closed && s.worker == Idle)
    && (s.cached != NoCheckpoint ==>
          && s.start <= Position(s.log, s.cached) <= |s.log|
          && Reach(s.attempts, s.start, Position(s.log, s.cached))
          && (s.origin.Some? ==> s.origin.value <= s.start <= Resume(s) <= Position(s.log, s.cached)))
  }

  ghost predicate WorkerInvariant(s: Shard)
  {
    s.worker.Running? ==>
      && s.start <= s.worker.next <= |s.log|
      && Reach(s.attempts, s.start, s.worker.next)
      && (s.stored != NoCheckpoint ==> s.cached != NoCheckpoint)
      && (s.cached != NoCheckpoint ==> Position(s.log, s.cached) <= s.worker.next)
  }

  ghost predicate Invariant(s: Shard)
  {
    && Increasing(s.log)
    && WellPlaced(s.log, s.attempts)
    && SinkMatches(s.log, s.attempts, s.received)
    && OfAccepted(s.log, s.attempts, s.stored) && OfAccepted(s.log, s.attempts, s.cached)
    && StoredInvariant(s) && CachedInvariant(s) && WorkerInvariant(s)
  }

  /** With an increasing log, such a checkpoint is a position just after a record, and appending does not move it. */
  lemma PositionOfAccepted(log: seq<Record>, attempts: seq<Attempt>, c: Checkpoint) returns (k: nat)
    requires Increasing(log) && WellPlaced(log, attempts) && OfAccepted(log, attempts, c) && c.At?
    ensures k < |log| && log[k].sequenceNumber == c.sequenceNumber && Position(log, c) == k + 1
    ensures forall more | log <= more && Increasing(more) :: Position(more, c) == k + 1
  {
    var a :| a in attempts && a.reply == Accepted && log[a.hi - 1].sequenceNumber == c.sequenceNumber;
    k := a.hi - 1;
    PositionAfterRecord(log, k);
    forall more | log <= more && Increasing(more) ensures Position(more, c) == k + 1 {
      assert more[k] == log[k];
      PositionAfterRecord(more, k);
    }
  }

  lemma OfAcceptedGrows(log: seq<Record>, attempts: seq<Attempt>, more: seq<Record>, attempts': seq<Attempt>, c: Checkpoint)
    requires WellPlaced(log, attempts) && WellPlaced(more, attempts') && log <= more && attempts <= attempts'
    requires OfAccepted(log, attempts, c)
    ensures OfAccepted(more, attempts', c)
  {
    if c.At? {
      var a :| a in attempts && a.reply == Accepted && log[a.hi - 1].sequenceNumber == c.sequenceNumber;
      var i :| 0 <= i < |attempts| && attempts[i] == a;
      assert attempts'[i] == a && more[a.hi - 1] == log[a.hi - 1];
    }
  }

  lemma AppendPlaces(s: Shard, r: Record)
    requires Invariant(s) && Valid(s, Append(r))
    ensures var log := s.log + [r];
            Increasing(log) && WellPlaced(log, s.attempts) && SinkMatches(log, s.attempts, s.received)
    ensures OfAccepted(s.log + [r], s.attempts, s.stored) && OfAccepted(s.log + [r], s.attempts, s.cached)
  {
    var log := s.log + [r];
    assert forall i | 0 <= i < |s.log| :: log[i] == s.log[i];
    assert forall a | a in s.attempts :: log[a.lo..a.hi] == s.log[a.lo..a.hi];
    OfAcceptedGrows(s.log, s.attempts, log, s.attempts, s.stored);
    OfAcceptedGrows(s.log, s.attempts, log, s.attempts, s.cached);
    hide StoredInvariant, CachedInvariant, WorkerInvariant, OfAccepted;
  }

  lemma AppendKeeps(s: Shard, r: Record)
    requires Invariant(s) && Valid(s, Append(r))
    ensures Invariant(Next(s, Append(r)))
    ensures s.stored != NoCheckpoint ==> Resume(Next(s, Append(r))) == Resume(s)
    ensures s.cached != NoCheckpoint ==> Position(Next(s, Append(r)).log, s.cached) == Position(s.log, s.cached)
  {
    hide PositionAfter, Increasing, Reach, OfAccepted, SinkMatches, WellPlaced;
    AppendPlaces(s, r);
    assert s.log <= s.log + [r];
    if s.stored.At? {
      var k := PositionOfAccepted(s.log, s.attempts, s.stored);
    }
    if s.cached.At? {
      var k := PositionOfAccepted(s.log, s.attempts, s.cached);
    }
  }

  lemma ReachGrows(attempts: seq<Attempt>, a: Attempt, lo: nat, hi: nat)
    requires Reach(attempts, lo, hi)
    ensures Reach(attempts + [a], lo, hi)
  {
    forall k: nat | lo <= k < hi ensures Attempted(attempts + [a], k) {
      assert Attempted(attempts, k);
      var b :| b in attempts && Covers(b, k);
      assert b in attempts + [a];
    }
  }

  lemma ReachOfAttempt(attempts: seq<Attempt>, a: Attempt)
    ensures Reach(attempts + [a], a.lo, a.hi)
  {
    assert a in attempts + [a];
  }

  /** The checkpoints after a batch, and their positions. */
  lemma ProcessPositions(s: Shard, n: nat, reply: Reply, landed: bool)
    requires Invariant(s) && Valid(s, Process(n, reply, landed)) && n > 0
    ensures var s', lo := Next(s, Process(n, reply, landed)), s.worker.next;
            && s'.attempts == s.attempts + [Attempt(lo, lo + n, reply)] && WellPlaced(s'.log, s'.attempts)
            && OfAccepted(s'.log, s'.attempts, s'.stored) && OfAccepted(s'.log, s'.attempts, s'.cached)
            && (if reply == Accepted then s'.cached.At? && Position(s'.log, s'.cached) == lo + n else s'.cached == s.cached)
            && (if reply == Accepted && landed then s'.stored == s'.cached else s'.stored == s.stored)
  {
    var s' := Next(s, Process(n, reply, landed));
    var lo := s.worker.next;
    var a := Attempt(lo, lo + n, reply);
    var batch := s.log[lo..lo + n];
    assert batch != [] && s'.attempts == s.attempts + [a];
    OfAcceptedGrows(s.log, s.attempts, s.log, s'.attempts, s.stored);
    OfAcceptedGrows(s.log, s.attempts, s.log, s'.attempts, s.cached);
    if reply == Accepted {
      var last := lo + n - 1;
      assert batch[n - 1] == s.log[last];
      PositionAfterRecord(s.log, last);
      assert a in s'.attempts && s.log[a.hi - 1].sequenceNumber == s'.cached.sequenceNumber;
    }
    hide Reach, SinkMatches, StoredInvariant, CachedInvariant, WorkerInvariant;
  }

  /** What was handed over after a batch. */
  lemma ProcessReach(s: Shard, n: nat, reply: Reply, landed: bool)
    requires Invariant(s) && Valid(s, Process(n, reply, landed)) && n > 0
    ensures var s' := Next(s, Process(n, reply, landed));
            StoredInvariant(s') && CachedInvariant(s') && WorkerInvariant(s')
  {
    var s' := Next(s, Process(n, reply, landed));
    ProcessPositions(s, n, reply, landed);
    var a := Attempt(s.worker.next, s.worker.next + n, reply);
    hide PositionAfter, Increasing, SinkMatches, WellPlaced, Attempted, OfAccepted, Reach;
    ReachGrows(s.attempts, a, s.start, s.worker.next);
    ReachOfAttempt(s.attempts, a);
    ReachJoins(s'.attempts, s.start, s.worker.next, s.worker.next, s.worker.next + n);
    if s.origin.Some? {
      ReachGrows(s.attempts, a, s.origin.value, Resume(s));
      ReachJoins(s'.attempts, s.origin.value, Resume(s), s.start, s.worker.next + n);
    }
    if s.cached != NoCheckpoint {
      ReachGrows(s.attempts, a, s.start, Position(s.log, s.cached));
    }
  }

  lemma ProcessKeeps(s: Shard, n: nat, reply: Reply, landed: bool)
    requires Invariant(s) && Valid(s, Process(n, reply, landed)) && n > 0
    ensures Invariant(Next(s, Process(n, reply, landed)))
    ensures var s' := Next(s, Process(n, reply, landed));
            && (s'.stored != s.stored ==> s'.stored.At? && Resume(s') == s.worker.next + n)
            && (s'.stored == s.stored ==> Resume(s') == Resume(s))
            && (reply == Accepted ==> Position(s'.log, s'.cached) == s.worker.next + n)
  {
    ProcessPositions(s, n, reply, landed);
    ProcessReach(s, n, reply, landed);
    SinkAfter(s, Attempt(s.worker.next, s.worker.next + n, reply));
    assert s.log[s.worker.next..s.worker.next + n] != [];
    hide PositionAfter, SinkMatches, WellPlaced, OfAccepted, Reach, StoredInvariant, CachedInvariant, WorkerInvariant;
  }

  lemma SinkAfter(s: Shard, a: Attempt)
    requires WellPlaced(s.log, s.attempts) && SinkMatches(s.log, s.attempts, s.received) && a.lo < a.hi <= |s.log|
    ensures WellPlaced(s.log, s.attempts + [a])
    ensures SinkMatches(s.log, s.attempts + [a], AfterSend(s.received, s.log[a.lo..a.hi], a.reply))
  {
    var attempts, batch := s.attempts + [a], s.log[a.lo..a.hi];
    var received := AfterSend(s.received, batch, a.reply);
    forall e ensures e in received <==> exists b :: b in attempts && b.reply != Rejected && e == s.log[b.lo..b.hi] {
      if e in received {
        if e in s.received {
          var b :| b in s.attempts && b.reply != Rejected && e == s.log[b.lo..b.hi];
          assert b in attempts;
        } else {
          assert a in attempts && e == batch;
        }
      }
    }
  }

  lemma StartKeeps(s: Shard)
    requires Invariant(s) && Valid(s, Start)
    ensures Invariant(Next(s, Start))
  {
    if s.stored.At? {
      var k := PositionOfAccepted(s.log, s.attempts, s.stored);
    }
    hide SinkMatches, WellPlaced, PositionAfter, Increasing, OfAccepted;
    assert Reach(s.attempts, Position(s.log, Known(s)), Position(s.log, Known(s)));
  }

  lemma StopKeeps(s: Shard, reason: ShutdownReason, landed: bool)
    requires Invariant(s) && Valid(s, Stop(reason, landed))
    ensures Invariant(Next(s, Stop(reason, landed)))
  {
    hide SinkMatches, WellPlaced, PositionAfter, Increasing, Attempted, OfAccepted;
    if s.origin.Some? {
      ReachJoins(s.attempts, s.origin.value, Resume(s), s.start, s.worker.next);
    }
    assert OfAccepted(s.log, s.attempts, ShardEnd) && OfAccepted(s.log, s.attempts, NoCheckpoint) by { NotAt(s); }
  }

  lemma NotAt(s: Shard)
    requires WellPlaced(s.log, s.attempts)
    ensures OfAccepted(s.log, s.attempts, ShardEnd) && OfAccepted(s.log, s.attempts, NoCheckpoint)
  {
  }

  lemma RenewKeeps(s: Shard)
    requires Invariant(s) && Valid(s, Renew)
    ensures Invariant(Next(s, Renew))
  {
    hide SinkMatches, WellPlaced, PositionAfter, Increasing, Attempted, OfAccepted;
    if s.origin.Some? {
      ReachJoins(s.attempts, s.origin.value, Resume(s), s.start, Position(s.log, s.cached));
    }
  }

  lemma ReachJoins(attempts: seq<Attempt>, lo: nat, mid: nat, from: nat, hi: nat)
    requires Reach(attempts, lo, mid) && Reach(attempts, from, hi) && from <= mid
    ensures Reach(attempts, lo, hi)
  {
  }

  lemma NextKeeps(s: Shard, step: Step)
    requires Invariant(s) && Valid(s, step)
    ensures Invariant(Next(s, step))
  {
    match step
    case Append(r) => AppendKeeps(s, r);
    case Close => hide SinkMatches, WellPlaced, PositionAfter, Increasing, Reach;
    case Start => StartKeeps(s); hide Invariant, Next;
    case Process(n, reply, landed) =>
      if n > 0 {
        ProcessKeeps(s, n, reply, landed);
        hide Invariant, Next;
      } else {
        hide SinkMatches, WellPlaced, PositionAfter, Increasing, Reach;
        assert Next(s, step) == s;
      }
    case Stop(reason, landed) => StopKeeps(s, reason, landed); hide Invariant, Next;
    case Renew => RenewKeeps(s); hide Invariant, Next;
    case Leave => hide SinkMatches, WellPlaced, PositionAfter, Increasing, Reach, OfAccepted;
    case Crash => NotAt(s); hide SinkMatches, WellPlaced, PositionAfter, Increasing, Reach, OfAccepted;
  }

  lemma {:induction false} FinalKeeps(s: Shard, run: seq<Step>)
    requires Invariant(s) && ValidRun(s, run)
    ensures Invariant(Final(s, run))
    decreases |run|
  {
    if run != [] {
      NextKeeps(s, run[0]);
      FinalKeeps(Next(s, run[0]), run[1..]);
    }
  }

  // ----- Conservation -----

  lemma CarriedArrives(s: Shard, k: nat)
    requires WellPlaced(s.log, s.attempts) && SinkMatches(s.log, s.attempts, s.received) && k < |s.log|
    requires Carried(s.attempts, k)
    ensures Delivered(s, k)
  {
    var a :| a in s.attempts && Covers(a, k) && a.reply != Rejected;
    var e := s.log[a.lo..a.hi];
    assert e in s.received && e[k - a.lo] == s.log[k];
  }

  lemma PositionInBatch(log: seq<Record>, lo: nat, hi: nat, k: nat)
    requires Increasing(log) && lo <= hi <= |log| && k < |log| && log[k] in log[lo..hi]
    ensures lo <= k < hi
  {
    var i :| 0 <= i < hi - lo && log[lo..hi][i] == log[k];
    assert log[lo + i] == log[k];
  }

  lemma ArrivedWasCarried(s: Shard, k: nat)
    requires Increasing(s.log) && WellPlaced(s.log, s.attempts) && SinkMatches(s.log, s.attempts, s.received) && k < |s.log|
    requires Delivered(s, k)
    ensures Carried(s.attempts, k)
  {
    hide Increasing;
    var e :| e in s.received && s.log[k] in e;
    var a :| a in s.attempts && a.reply != Rejected && e == s.log[a.lo..a.hi];
    PositionInBatch(s.log, a.lo, a.hi, k);
    assert Covers(a, k);
  }

  /** A record arrived exactly when some attempt that covered it reached the sink. */
  lemma DeliveredIffCarried(s: Shard, k: nat)
    requires Invariant(s) && k < |s.log|
    ensures Delivered(s, k) <==> Carried(s.attempts, k)
  {
    if Delivered(s, k) {
      ArrivedWasCarried(s, k);
    } else if Carried(s.attempts, k) {
      CarriedArrives(s, k);
    }
  }

  /** The records that the stored checkpoint accounts for. */
  predicate Accounted(s: Shard, k: nat)
  {
    s.origin.Some? && s.origin.value <= k < Resume(s)
  }

  /**
   Conservation, over every run: each record after the start of the worker that wrote the first checkpoint, and up to
   the stored checkpoint, was attempted; and the gap is exact: it did not arrive if and only if every batch that
   contained it was rejected.
   */
  lemma Conservation(s: Shard, run: seq<Step>, k: nat)
    requires Initial(s) && ValidRun(s, run) && Accounted(Final(s, run), k)
    ensures var f := Final(s, run);
            && k < |f.log|
            && Attempted(f.attempts, k)
            && (!Delivered(f, k) <==> forall a | a in f.attempts && Covers(a, k) :: a.reply == Rejected)
  {
    FinalKeeps(s, run);
    DeliveredIffCarried(Final(s, run), k);
  }

  // ----- At least once -----

  /** Whether the running worker has a failed post behind it, after a step. */
  predicate FailedAfter(step: Step, failed: bool)
  {
    match step
    case Process(n, reply, _) => if n == 0 then failed else reply != Accepted
    case Stop(_, _) => false
    case Leave => false
    case Crash => false
    case _ => failed
  }

  /** After a failed post a worker neither takes another batch nor ends the shard. */
  predicate CarefulStep(step: Step, failed: bool)
  {
    failed ==> !(step.Process? && step.n > 0) && !(step.Stop? && step.reason == Terminate)
  }

  /** Every failed post is followed by a restart before the next batch, and before the end of the shard. */
  predicate Careful(run: seq<Step>, failed: bool)
  {
    run == [] || (CarefulStep(run[0], failed) && Careful(run[1..], FailedAfter(run[0], failed)))
  }

  ghost predicate AllDelivered(s: Shard, lo: nat, hi: nat)
  {
    forall k: nat | lo <= k < hi :: Carried(s.attempts, k)
  }

  ghost predicate Gapless(s: Shard, failed: bool)
  {
    && (s.origin.Some? ==> AllDelivered(s, s.origin.value, Resume(s)))
    && (s.cached != NoCheckpoint ==> AllDelivered(s, s.start, Position(s.log, s.cached)))
    && (s.worker.Running? && !failed ==> AllDelivered(s, s.start, s.worker.next))
    && (failed ==> s.worker.Running?)
  }

  lemma CarriedGrows(s: Shard, s': Shard, lo: nat, hi: nat)
    requires AllDelivered(s, lo, hi) && s.attempts <= s'.attempts
    ensures AllDelivered(s', lo, hi)
  {
    forall k: nat | lo <= k < hi ensures Carried(s'.attempts, k) {
      assert Carried(s.attempts, k);
      var a :| a in s.attempts && Covers(a, k) && a.reply != Rejected;
      var i :| 0 <= i < |s.attempts| && s.attempts[i] == a;
      assert s'.attempts[i] == a;
    }
  }

  lemma ProcessGapless(s: Shard, n: nat, reply: Reply, landed: bool)
    requires Invariant(s) && Gapless(s, false) && Valid(s, Process(n, reply, landed)) && n > 0
    ensures Gapless(Next(s, Process(n, reply, landed)), reply != Accepted)
  {
    var s' := Next(s, Process(n, reply, landed));
    var lo := s.worker.next;
    var a := Attempt(lo, lo + n, reply);
    ProcessKeeps(s, n, reply, landed);
    assert s.log[lo..lo + n] != [] && s'.attempts == s.attempts + [a] && a in s'.attempts;
    CarriedGrows(s, s', s.start, lo);
    if s.origin.Some? {
      CarriedGrows(s, s', s.origin.value, Resume(s));
    }
    if s.cached != NoCheckpoint {
      CarriedGrows(s, s', s.start, Position(s.log, s.cached));
    }
    if reply == Accepted {
      assert forall k: nat | lo <= k < lo + n :: Covers(a, k);
    }
    hide PositionAfter, Increasing, SinkMatches, WellPlaced, Reach, OfAccepted;
  }

  lemma GaplessStep(s: Shard, step: Step, failed: bool)
    requires Invariant(s) && Valid(s, step) && CarefulStep(step, failed) && Gapless(s, failed)
    ensures Gapless(Next(s, step), FailedAfter(step, failed))
  {
    hide SinkMatches, WellPlaced, PositionAfter, Increasing, Reach, OfAccepted, Carried;
    if step.Process? && step.n > 0 {
      ProcessGapless(s, step.n, step.reply, step.landed);
      hide Gapless, Invariant, Next;
    } else if step.Append? {
      AppendKeeps(s, step.record);
    }
  }

  lemma {:induction false} CarefulRunsGapless(s: Shard, run: seq<Step>, failed: bool)
    requires Invariant(s) && ValidRun(s, run) && Careful(run, failed) && Gapless(s, failed)
    ensures var f := Final(s, run); f.origin.Some? ==> AllDelivered(f, f.origin.value, Resume(f))
    decreases |run|
  {
    if run != [] {
      hide Invariant, Next, Valid, Gapless;
      NextKeeps(s, run[0]);
      GaplessStep(s, run[0], failed);
      CarefulRunsGapless(Next(s, run[0]), run[1..], FailedAfter(run[0], failed));
    }
  }

  /**
   At least once, conditionally: if every failed post is followed by a restart in time, all that the checkpoint accounts
   for has arrived, without a gap, even if checkpoint writes are lost.
   */
  lemma AtLeastOnce(s: Shard, run: seq<Step>, k: nat)
    requires Initial(s) && ValidRun(s, run) && Careful(run, false) && Accounted(Final(s, run), k)
    ensures k < |Final(s, run).log| && Delivered(Final(s, run), k)
  {
    CarefulRunsGapless(s, run, false);
    FinalKeeps(s, run);
    DeliveredIffCarried(Final(s, run), k);
  }

  // ----- Which records are lost, and which steps lose them -----

  /** The worker is past position k, and so is the position where the next one would start. */
  predicate Passed(s: Shard, k: nat)
  {
    k < Position(s.log, Known(s)) && (s.worker.Running? ==> k < s.worker.next)
  }

  lemma PassedStep(s: Shard, step: Step, k: nat)
    requires Invariant(s) && Valid(s, step) && k < |s.log| && Passed(s, k)
    ensures var s' := Next(s, step);
            && k < |s'.log| && Passed(s', k)
            && (Attempted(s'.attempts, k) <==> Attempted(s.attempts, k))
            && (Carried(s'.attempts, k) <==> Carried(s.attempts, k))
            && (s.origin.Some? ==> s'.origin == s.origin)
  {
    if step.Append? {
      AppendKeeps(s, step.record);
    } else if step.Process? && step.n > 0 {
      ProcessKeeps(s, step.n, step.reply, step.landed);
      var a := Attempt(s.worker.next, s.worker.next + step.n, step.reply);
      assert s.log[a.lo..a.hi] != [];
      AttemptElsewhere(s.attempts, a, k);
    }
    hide PositionAfter, Increasing, SinkMatches, Reach, WellPlaced, Attempted, Carried, OfAccepted;
  }

  lemma AttemptElsewhere(attempts: seq<Attempt>, a: Attempt, k: nat)
    requires !Covers(a, k)
    ensures Attempted(attempts + [a], k) <==> Attempted(attempts, k)
    ensures Carried(attempts + [a], k) <==> Carried(attempts, k)
  {
    assert forall b | b in attempts :: b in attempts + [a];
  }

  /** Once passed, a record is never attempted again. */
  lemma {:induction false} PassedForever(s: Shard, run: seq<Step>, k: nat)
    requires Invariant(s) && ValidRun(s, run) && k < |s.log| && Passed(s, k)
    ensures var f := Final(s, run);
            && k < |f.log| && Passed(f, k)
            && (Attempted(f.attempts, k) <==> Attempted(s.attempts, k))
            && (Carried(f.attempts, k) <==> Carried(s.attempts, k))
            && (s.origin.Some? ==> f.origin == s.origin)
    decreases |run|
  {
    if run != [] {
      hide Next, Valid, Invariant, Passed, Attempted, Carried;
      NextKeeps(s, run[0]);
      PassedStep(s, run[0], k);
      PassedForever(Next(s, run[0]), run[1..], k);
    }
  }

  /** Until then, there is a way to deliver it. */
  lemma WayToDeliver(s: Shard, k: nat) returns (run: seq<Step>)
    requires Invariant(s) && k < |s.log| && !Passed(s, k)
    ensures ValidRun(s, run) && k < |Final(s, run).log| && Carried(Final(s, run).attempts, k)
  {
    if s.worker.Running? && k >= s.worker.next {
      run := HandOver(s, k);
    } else {
      assert Known(s).At?;
      var idle := if s.worker.Running? then Next(s, Leave) else s;
      var started := Next(idle, Start);
      var rest := HandOver(started, k);
      run := [Start] + rest;
      assert run[1..] == rest;
      if s.worker.Running? {
        var all := [Leave] + run;
        assert all[1..] == run;
        run := all;
      }
    }
  }

  /** A running worker that is not past k can be handed everything up to it. */
  lemma HandOver(s: Shard, k: nat) returns (run: seq<Step>)
    requires s.worker.Running? && s.worker.next <= k < |s.log|
    ensures ValidRun(s, run) && k < |Final(s, run).log| && Carried(Final(s, run).attempts, k)
  {
    var lo := s.worker.next;
    var step := Process(k + 1 - lo, Accepted, true);
    run := [step];
    var a := Attempt(lo, k + 1, Accepted);
    assert s.log[lo..k + 1] != [];
    assert Covers(a, k) && a in Next(s, step).attempts;
    assert run[1..] == [];
    assert ValidRun(Next(s, step), []);
  }

  /** In no continuation of s does record k arrive. */
  ghost predicate NeverArrives(s: Shard, k: nat)
  {
    forall run | ValidRun(s, run) :: k < |Final(s, run).log| ==> !Delivered(Final(s, run), k)
  }

  ghost predicate NeverAttempted(s: Shard, k: nat)
  {
    forall run | ValidRun(s, run) :: !Attempted(Final(s, run).attempts, k)
  }

  /**
   Loss, exactly, in every state that a run can reach, before the first checkpoint as well as after it: a record never
   arrives, whatever happens from here on, if and only if it has not arrived, the worker is past it, and so is the position
   where the next worker would start.
   */
  lemma LostIff(s: Shard, k: nat)
    requires Invariant(s) && k < |s.log|
    ensures NeverArrives(s, k) <==> !Delivered(s, k) && Passed(s, k)
  {
    DeliveredIffCarried(s, k);
    assert ValidRun(s, []) && Final(s, []) == s;
    if Passed(s, k) {
      forall run | ValidRun(s, run) ensures k < |Final(s, run).log| && (Delivered(Final(s, run), k) <==> Delivered(s, k)) {
        PassedForever(s, run, k);
        FinalKeeps(s, run);
        DeliveredIffCarried(Final(s, run), k);
      }
    } else {
      var run := WayToDeliver(s, k);
      FinalKeeps(s, run);
      DeliveredIffCarried(Final(s, run), k);
    }
    hide Invariant, Passed, Delivered, Carried;
  }

  /** A record is never even attempted, whatever happens, if and only if it was not, and it is passed. */
  lemma NeverAttemptedIff(s: Shard, k: nat)
    requires Invariant(s) && k < |s.log|
    ensures NeverAttempted(s, k) <==> !Attempted(s.attempts, k) && Passed(s, k)
  {
    assert ValidRun(s, []) && Final(s, []) == s;
    if Passed(s, k) {
      forall run | ValidRun(s, run) ensures Attempted(Final(s, run).attempts, k) <==> Attempted(s.attempts, k) {
        PassedForever(s, run, k);
      }
    } else {
      var run := WayToDeliver(s, k);
    }
  }

  /**
   A start without a checkpoint, stored or in memory, begins at the tip, and skips for good exactly the records in the shard
   that were not attempted, and loses exactly those that have not arrived.
   */
  lemma StartSkipsIff(s: Shard, k: nat)
    requires Invariant(s) && Valid(s, Start) && Known(s) == NoCheckpoint && k < |s.log|
    ensures NeverAttempted(Next(s, Start), k) <==> !Attempted(s.attempts, k)
    ensures NeverArrives(Next(s, Start), k) <==> !Delivered(s, k)
  {
    NextKeeps(s, Start);
    NeverAttemptedIff(Next(s, Start), k);
    LostIff(Next(s, Start), k);
    hide Invariant, NeverAttempted, NeverArrives, Attempted;
  }

  /** Some record is missing although the checkpoint accounts for it. */
  ghost predicate Missing(s: Shard)
  {
    exists k: nat :: Accounted(s, k) && k < |s.log| && !Delivered(s, k)
  }

  /**
   The position up to which a step may account for records that were handed over before it: all of them, if the processor
   sets the checkpoint, and up to the checkpoint in memory, if that is written again.
   */
  function Handed(s: Shard, step: Step): nat
    requires Valid(s, step)
  {
    if step.Process? || step.Stop? then s.worker.next else Position(s.log, s.cached)
  }

  /**
   The step moves the stored checkpoint over a record that the worker was handed before and that never reached the sink.
   */
  ghost predicate Loses(s: Shard, step: Step)
    requires Valid(s, step)
  {
    Next(s, step).stored != s.stored && exists k: nat :: s.start <= k < Handed(s, step) && !Carried(s.attempts, k)
  }

  lemma MissingIff(s: Shard)
    requires Invariant(s)
    ensures Missing(s) <==> s.origin.Some? && !AllDelivered(s, s.origin.value, Resume(s))
  {
    forall k: nat | k < |s.log| ensures Delivered(s, k) <==> Carried(s.attempts, k) {
      DeliveredIffCarried(s, k);
    }
    hide Delivered, Carried, Reach, SinkMatches;
  }

  /** A checkpoint that moves accounts for what the worker was handed, and for the batch of this call, which arrived. */
  lemma CheckpointCovers(s: Shard, step: Step)
    requires Invariant(s) && Valid(s, step) && Next(s, step).stored != s.stored
    ensures var s' := Next(s, step);
            && s'.origin == (if s.origin.Some? then s.origin else Some(s.start))
            && (s.origin.Some? ==> s.start <= Resume(s) <= Handed(s, step))
            && s.start <= Handed(s, step) <= Resume(s')
            && AllDelivered(s', Handed(s, step), Resume(s'))
            && s.attempts <= s'.attempts
            && forall k: nat | k < Handed(s, step) :: Carried(s'.attempts, k) ==> Carried(s.attempts, k)
  {
    if step.Process? {
      var s', lo := Next(s, step), s.worker.next;
      ProcessKeeps(s, step.n, step.reply, step.landed);
      var a := Attempt(lo, lo + step.n, step.reply);
      assert s.log[lo..lo + step.n] != [] && s'.attempts == s.attempts + [a] && a in s'.attempts;
      assert forall k: nat | lo <= k < lo + step.n :: Covers(a, k);
      forall k: nat | k < lo ensures Carried(s'.attempts, k) ==> Carried(s.attempts, k) {
        AttemptElsewhere(s.attempts, a, k);
      }
    }
    hide PositionAfter, Increasing, SinkMatches, WellPlaced, Reach, OfAccepted, Carried;
  }

  lemma LosesWhereMoved(s: Shard, step: Step)
    requires Invariant(s) && Valid(s, step) && Next(s, step).stored != s.stored
    requires s.origin.Some? ==> AllDelivered(s, s.origin.value, Resume(s))
    ensures var s' := Next(s, step); s'.origin.Some? && (AllDelivered(s', s'.origin.value, Resume(s')) <==> !Loses(s, step))
  {
    var s' := Next(s, step);
    CheckpointCovers(s, step);
    var handed := Handed(s, step);
    if s.origin.Some? {
      OriginBeforeStart(s, step);
    }
    hide Next, Carried, Invariant, Position, Handed;
    if Loses(s, step) {
      var k: nat :| s.start <= k < handed && !Carried(s.attempts, k);
      assert !Carried(s'.attempts, k);
    } else {
      CarriedGrows(s, s', s.start, handed);
      if s.origin.Some? {
        CarriedGrows(s, s', s.origin.value, Resume(s));
      }
    }
  }

  lemma OriginBeforeStart(s: Shard, step: Step)
    requires Invariant(s) && Valid(s, step) && Next(s, step).stored != s.stored && s.origin.Some?
    ensures s.origin.value <= s.start
  {
    hide PositionAfter, Increasing, SinkMatches, WellPlaced, Reach, OfAccepted;
  }

  lemma NothingLostWhereKept(s: Shard, step: Step)
    requires Invariant(s) && Valid(s, step) && Next(s, step).stored == s.stored
    requires s.origin.Some? ==> AllDelivered(s, s.origin.value, Resume(s))
    ensures var s' := Next(s, step); s'.origin.Some? ==> AllDelivered(s', s'.origin.value, Resume(s'))
  {
    if step.Append? {
      AppendKeeps(s, step.record);
    }
    if s.origin.Some? {
      CarriedGrows(s, Next(s, step), s.origin.value, Resume(s));
    }
    hide Carried, SinkMatches, Reach, PositionAfter, Increasing, WellPlaced, OfAccepted;
  }

  /** From a state where nothing is missing, exactly these steps lead to one where something is. */
  lemma LosesIff(s: Shard, step: Step)
    requires Invariant(s) && Valid(s, step) && !Missing(s)
    ensures Missing(Next(s, step)) <==> Loses(s, step)
  {
    NextKeeps(s, step);
    MissingIff(s);
    MissingIff(Next(s, step));
    if Next(s, step).stored != s.stored {
      LosesWhereMoved(s, step);
    } else {
      NothingLostWhereKept(s, step);
    }
    hide Next, Invariant, Missing, AllDelivered, Carried;
  }

  /** What is missing stays missing, over every further run. */
  lemma LossIsPermanent(s: Shard, run: seq<Step>)
    requires Invariant(s) && ValidRun(s, run) && Missing(s)
    ensures Missing(Final(s, run))
  {
    var k: nat :| Accounted(s, k) && k < |s.log| && !Delivered(s, k);
    PassedForever(s, run, k);
    FinalKeeps(s, run);
    DeliveredIffCarried(s, k);
    DeliveredIffCarried(Final(s, run), k);
  }

  ghost predicate NeverLoses(s: Shard, run: seq<Step>)
    requires ValidRun(s, run)
    decreases |run|
  {
    run == [] || (!Loses(s, run[0]) && NeverLoses(Next(s, run[0]), run[1..]))
  }

  /** At least once, exactly: after a run nothing that the checkpoint accounts for is missing if and only if no step loses. */
  lemma {:induction false} GaplessIff(s: Shard, run: seq<Step>)
    requires Invariant(s) && ValidRun(s, run) && !Missing(s)
    ensures !Missing(Final(s, run)) <==> NeverLoses(s, run)
    decreases |run|
  {
    if run != [] {
      hide Next, Valid, Invariant, Missing, Loses;
      NextKeeps(s, run[0]);
      LosesIff(s, run[0]);
      if Loses(s, run[0]) {
        LossIsPermanent(Next(s, run[0]), run[1..]);
      } else {
        GaplessIff(Next(s, run[0]), run[1..]);
      }
    }
  }

  lemma InitialKeeps(s: Shard)
    requires Initial(s)
    ensures Invariant(s) && !Missing(s)
  {
  }

  // ----- Where plain at-least-once fails -----

  const EmptyShard := Shard([], false, NoCheckpoint, NoCheckpoint, Idle, 0, [], [], None)
  const R0 := Record(10, "a")
  const R1 := Record(20, "b")

  /** The worker goes on after a failed post, and the next success moves the checkpoint past the lost batch. */
  lemma FailedPostIsSkipped()
    ensures var run := [Start, Append(R0), Append(R1), Process(1, Rejected, true), Process(1, Accepted, true)];
            && ValidRun(EmptyShard, run) && Accounted(Final(EmptyShard, run), 0)
            && |Final(EmptyShard, run).log| == 2 && !Delivered(Final(EmptyShard, run), 0)
  {
    var s1 := Next(EmptyShard, Start);
    var s2 := Next(s1, Append(R0));
    var s3 := Next(s2, Append(R1));
    var s4 := Next(s3, Process(1, Rejected, true));
    var s5 := Next(s4, Process(1, Accepted, true));
    assert s4.log == [R0, R1] && s4.log[1..2] == [R1] && s4.received == [];
    assert s5.log == [R0, R1] && s5.received == [[R1]] && s5.stored == At(20);
    RunOfFive(EmptyShard, Start, Append(R0), Append(R1), Process(1, Rejected, true), Process(1, Accepted, true));
    assert PositionAfter([R0, R1], 20) == 2;
    assert R0 !in [R1];
  }

  /** The end of a shard is checkpointed even if its last batch failed: a restart must come before that as well. */
  lemma FailedPostAtShardEnd()
    ensures var run := [Start, Append(R0), Close, Process(1, Rejected, true), Stop(Terminate, true)];
            && ValidRun(EmptyShard, run) && Accounted(Final(EmptyShard, run), 0)
            && |Final(EmptyShard, run).log| == 1 && !Delivered(Final(EmptyShard, run), 0)
  {
    var s1 := Next(EmptyShard, Start);
    var s2 := Next(s1, Append(R0));
    var s3 := Next(s2, Close);
    assert s3 == Shard([R0], true, NoCheckpoint, NoCheckpoint, Running(0), 0, [], [], None);
    var s4 := Next(s3, Process(1, Rejected, true));
    assert s4 == Shard([R0], true, NoCheckpoint, NoCheckpoint, Running(1), 0, [], [Attempt(0, 1, Rejected)], None);
    var s5 := Next(s4, Stop(Terminate, true));
    assert s5 == Shard([R0], true, ShardEnd, ShardEnd, Idle, 0, [], [Attempt(0, 1, Rejected)], Some(0));
    RunOfFive(EmptyShard, Start, Append(R0), Close, Process(1, Rejected, true), Stop(Terminate, true));
  }

  const PendingShard := Shard([R0, R1], false, NoCheckpoint, At(20), Running(2), 0, [[R1]],
                              [Attempt(0, 1, Rejected), Attempt(1, 2, Accepted)], None)

  lemma PendingRun()
    ensures var run := [Start, Append(R0), Append(R1), Process(1, Rejected, true), Process(1, Accepted, false)];
            ValidRun(EmptyShard, run) && Final(EmptyShard, run) == PendingShard
  {
    var s1 := Next(EmptyShard, Start);
    var s2 := Next(s1, Append(R0));
    var s3 := Next(s2, Append(R1));
    assert s3 == Shard([R0, R1], false, NoCheckpoint, NoCheckpoint, Running(0), 0, [], [], None);
    var s4 := Next(s3, Process(1, Rejected, true));
    assert s4 == Shard([R0, R1], false, NoCheckpoint, NoCheckpoint, Running(1), 0, [], [Attempt(0, 1, Rejected)], None);
    assert s4.log[1..2] == [R1];
    var s5 := Next(s4, Process(1, Accepted, false));
    assert s5 == PendingShard;
    RunOfFive(EmptyShard, Start, Append(R0), Append(R1), Process(1, Rejected, true), Process(1, Accepted, false));
  }

  /** A renewal of the lease can lose a record as well, outside any call of the processor: the write for R1 failed before. */
  lemma RenewalLoses()
    ensures var run := [Start, Append(R0), Append(R1), Process(1, Rejected, true), Process(1, Accepted, false)];
            && ValidRun(EmptyShard, run) && !Missing(Final(EmptyShard, run))
            && Valid(Final(EmptyShard, run), Renew) && Missing(Next(Final(EmptyShard, run), Renew))
  {
    hide ValidRun, Final, Invariant, Missing;
    PendingRun();
    InitialKeeps(EmptyShard);
    FinalKeeps(EmptyShard, [Start, Append(R0), Append(R1), Process(1, Rejected, true), Process(1, Accepted, false)]);
    MissingIff(PendingShard);
    assert PositionAfter([R0, R1], 20) == 2;
    assert !Carried(PendingShard.attempts, 0);
    LosesIff(PendingShard, Renew);
  }

  /** Before the first checkpoint a restart begins at the tip: a record in between is never attempted from then on. */
  lemma RestartAtTipSkips()
    ensures var run := [Start, Append(R0), Crash, Start, Append(R1)];
            && ValidRun(EmptyShard, run) && Final(EmptyShard, run).worker == Running(1)
            && NeverAttempted(Final(EmptyShard, run), 0)
  {
    RunOfFive(EmptyShard, Start, Append(R0), Crash, Start, Append(R1));
    InitialKeeps(EmptyShard);
    var run := [Start, Append(R0), Crash, Start, Append(R1)];
    FinalKeeps(EmptyShard, run);
    NeverAttemptedIff(Final(EmptyShard, run), 0);
  }

  lemma Prepend(s: Shard, step: Step, rest: seq<Step>)
    requires Valid(s, step) && ValidRun(Next(s, step), rest)
    ensures ValidRun(s, [step] + rest) && Final(s, [step] + rest) == Final(Next(s, step), rest)
  {
    assert ([step] + rest)[1..] == rest;
    hide Valid, Next;
  }

  lemma RunOfFive(s: Shard, a: Step, b: Step, c: Step, d: Step, e: Step)
    requires Valid(s, a) && Valid(Next(s, a), b) && Valid(Next(Next(s, a), b), c)
    requires Valid(Next(Next(Next(s, a), b), c), d) && Valid(Next(Next(Next(Next(s, a), b), c), d), e)
    ensures ValidRun(s, [a, b, c, d, e])
    ensures Final(s, [a, b, c, d, e]) == Next(Next(Next(Next(Next(s, a), b), c), d), e)
  {
    hide Valid, Next;
    var s1 := Next(s, a);
    var s2 := Next(s1, b);
    var s3 := Next(s2, c);
    var s4 := Next(s3, d);
    Prepend(s4, e, []);
    hide ValidRun, Final;
    Prepend(s3, d, [e] + []);
    Prepend(s2, c, [d] + ([e] + []));
    Prepend(s1, b, [c] + ([d] + ([e] + [])));
    Prepend(s, a, [b] + ([c] + ([d] + ([e] + []))));
    assert [a] + ([b] + ([c] + ([d] + ([e] + [])))) == [a, b, c, d, e];
  }

  // ----- The order of checkpoints -----

  /** Strictly further along the shard. */
  predicate Before(a: Checkpoint, b: Checkpoint)
  {
    match (a, b)
    case (NoCheckpoint, _) => b != NoCheckpoint
    case (At(x), At(y)) => x < y
    case (At(_), ShardEnd) => true
    case _ => false
  }

  /**
   A stored checkpoint only moves forward. If the processor moves it to a sequence number, that is the last record of the
   batch accepted in that same call; otherwise it is the one in memory, the last record of a batch accepted before. The end of
   the shard is only written once the shard is closed and handed over to its last record.
   */
  lemma CheckpointStep(s: Shard, step: Step)
    requires Invariant(s) && Valid(s, step) && Next(s, step).stored != s.stored
    ensures var s' := Next(s, step);
            && Before(s.stored, s'.stored)
            && (step.Process? ==>
                  && s'.received != [] && s'.received[|s'.received| - 1] != []
                  && s'.received == s.received + [s'.received[|s'.received| - 1]]
                  && step.reply == Accepted
                  && var batch := s'.received[|s'.received| - 1];
                     s'.stored == At(batch[|batch| - 1].sequenceNumber))
            && (!step.Process? && s'.stored.At? ==>
                  && s'.stored == s.cached
                  && exists a :: a in s.attempts && a.reply == Accepted && a.hi <= |s.log| && 0 < a.hi
                                 && s.log[a.hi - 1].sequenceNumber == s'.stored.sequenceNumber)
            && (s'.stored == ShardEnd ==> s.closed && step.Stop? && s.worker.next == |s.log| && s'.worker == Idle)
  {
    if s.stored.At? {
      var k := PositionOfAccepted(s.log, s.attempts, s.stored);
      if step.Process? {
        assert s.log[s.worker.next..s.worker.next + step.n][step.n - 1] == s.log[s.worker.next + step.n - 1];
      } else if s.cached.At? {
        var m := PositionOfAccepted(s.log, s.attempts, s.cached);
      }
    } else if step.Process? {
      assert s.log[s.worker.next..s.worker.next + step.n][step.n - 1] == s.log[s.worker.next + step.n - 1];
    }
  }

  lemma {:induction false} CheckpointsAdvance(s: Shard, run: seq<Step>)
    requires Invariant(s) && ValidRun(s, run)
    ensures Final(s, run).stored == s.stored || Before(s.stored, Final(s, run).stored)
    decreases |run|
  {
    if run != [] {
      NextKeeps(s, run[0]);
      CheckpointsAdvance(Next(s, run[0]), run[1..]);
      if Next(s, run[0]).stored != s.stored {
        CheckpointStep(s, run[0]);
      }
    }
  }
}

/** Many shards at once, their steps interleaved in any way. */
module Shards {
  import opened Delivery

  type ShardId = string

  datatype ShardStep = ShardStep(shard: ShardId, step: Step)

  ghost predicate ValidTogether(shards: map<ShardId, Shard>, run: seq<ShardStep>)
    decreases |run|
  {
    run == [] ||
    (run[0].shard in shards && Valid(shards[run[0].shard], run[0].step) && ValidTogether(After(shards, run[0]), run[1..]))
  }

  function After(shards: map<ShardId, Shard>, s: ShardStep): map<ShardId, Shard>
    requires s.shard in shards && Valid(shards[s.shard], s.step)
  {
    shards[s.shard := Next(shards[s.shard], s.step)]
  }

  ghost function FinalTogether(shards: map<ShardId, Shard>, run: seq<ShardStep>): map<ShardId, Shard>
    requires ValidTogether(shards, run)
    decreases |run|
  {
    if run == [] then shards else FinalTogether(After(shards, run[0]), run[1..])
  }

  /** The steps of one shard, in order. */
  function Project(run: seq<ShardStep>, id: ShardId): seq<Step>
  {
    if run == [] then []
    else if run[0].shard == id then [run[0].step] + Project(run[1..], id)
    else Project(run[1..], id)
  }

  /** Shards do not influence each other: each ends where its own steps alone take it. */
  lemma {:induction false} ShardsIndependent(shards: map<ShardId, Shard>, run: seq<ShardStep>, id: ShardId)
    requires ValidTogether(shards, run) && id in shards
    ensures ValidRun(shards[id], Project(run, id))
    ensures id in FinalTogether(shards, run) && FinalTogether(shards, run)[id] == Final(shards[id], Project(run, id))
    decreases |run|
  {
    if run != [] {
      hide Next, Valid;
      ShardsIndependent(After(shards, run[0]), run[1..], id);
      if run[0].shard == id {
        var own := [run[0].step] + Project(run[1..], id);
        assert own[0] == run[0].step && own[1..] == Project(run[1..], id);
      }
    }
  }
}
