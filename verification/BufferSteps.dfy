/** The usage buffer under concurrency: any number of callers of Add, one consumer,
    a writer that may fail at any time, cancellation and closing at any moment. */
module BufferSteps {
  import opened Basics
  import opened UsageBuffer

  type Record = nat
  type Caller = nat

  /** Where a call of Add is: about to look whether the buffer is closed, about to
      offer the record to the queue, or writing it itself. */
  datatype Add = Checking(r: Record) | Offering(r: Record) | Writing(r: Record)

  datatype Consumer =
    Selecting | Flushing | BackingOff | LastAttempt | Draining | DrainFlushing | FinalFlushing | Stopped

  /** What became of a batch that left the consumer. */
  datatype Fate = Stored(records: seq<Record>) | Dropped(records: seq<Record>)

  datatype Sys = Sys(
    capacity: nat,
    batchSize: nat,
    queue: seq<Record>,
    batch: seq<Record>,
    consumer: Consumer,
    cancelled: bool,
    closed: bool,
    adds: map<Caller, Add>,
    fates: seq<Fate>,        // batches, in the order they left the consumer
    accepted: seq<Record>,   // those whose call returned without an error, in order
    direct: seq<Record>,     // accepted by a synchronous write
    enqueued: seq<Record>,   // accepted by the queue, in order
    late: seq<Record>)       // those of them that came after its last look at the queue

  datatype Step =
    | Call(c: Caller, r: Record)
    | Check(c: Caller)
    | Offer(c: Caller)
    | WriteDirect(c: Caller, ok: bool)
    | Cancel
    | Close
    | Take
    | Tick
    | SeeCancel
    | WriteBatch(ok: bool)
    | Retry
    | GiveUp
    | DrainTake
    | DrainEnd

  predicate Enabled(s: Sys, e: Step) {
    match e
    case Call(c, _) => c !in s.adds
    case Check(c) => c in s.adds && s.adds[c].Checking?
    case Offer(c) => c in s.adds && s.adds[c].Offering?
    case WriteDirect(c, _) => c in s.adds && s.adds[c].Writing?
    case Cancel => true
    case Close => true
    case Take => s.consumer.Selecting? && s.queue != []
    case Tick => s.consumer.Selecting?
    case SeeCancel => s.consumer.Selecting? && s.cancelled
    case WriteBatch(_) =>
      s.consumer.Flushing? || s.consumer.LastAttempt? || s.consumer.DrainFlushing? || s.consumer.FinalFlushing?
    case Retry => s.consumer.BackingOff?
    case GiveUp => s.consumer.BackingOff? && s.cancelled
    case DrainTake => s.consumer.Draining? && s.queue != []
    case DrainEnd => s.consumer.Draining? && s.queue == []
  }

  /** Receiving one record, in Run and while draining. */
  function Received(s: Sys, full: Consumer): Sys
    requires s.queue != []
  {
    var batch := s.batch + [s.queue[0]];
    s.(queue := s.queue[1..], batch := batch, consumer := if |batch| >= s.batchSize then full else s.consumer)
  }

  function AfterBatch(c: Consumer): Consumer {
    match c
    case DrainFlushing => Draining
    case FinalFlushing => Stopped
    case _ => Selecting
  }

  function Next(s: Sys, e: Step): Sys
    requires Enabled(s, e)
  {
    match e
    case Call(c, r) => s.(adds := s.adds[c := Checking(r)])
    case Check(c) =>
      s.(adds := s.adds[c := if s.closed then Writing(s.adds[c].r) else Offering(s.adds[c].r)])
    case Offer(c) =>
      var r := s.adds[c].r;
      if |s.queue| < s.capacity then
        s.(queue := s.queue + [r], enqueued := s.enqueued + [r], accepted := s.accepted + [r], adds := s.adds - {c},
           late := if PastLastLook(s.consumer) then s.late + [r] else s.late)
      else s.(adds := s.adds[c := Writing(r)])
    case WriteDirect(c, ok) =>
      s.(adds := s.adds - {c},
         direct := if ok then s.direct + [s.adds[c].r] else s.direct,
         accepted := if ok then s.accepted + [s.adds[c].r] else s.accepted)
    case Cancel => s.(cancelled := true)
    case Close => s.(closed := true)
    case Take => Received(s, Flushing)
    case Tick => if |s.batch| > 0 then s.(consumer := Flushing) else s
    case SeeCancel => s.(consumer := Draining)
    case WriteBatch(ok) =>
      if ok then s.(fates := s.fates + [Stored(s.batch)], batch := [], consumer := AfterBatch(s.consumer))
      else if s.consumer.LastAttempt? then
        s.(fates := s.fates + [Dropped(s.batch)], batch := [], consumer := Selecting)
      else if s.consumer.Flushing? then s.(consumer := BackingOff)
      else s
    case Retry => s.(consumer := Flushing)
    case GiveUp => s.(consumer := LastAttempt)
    case DrainTake => Received(s, DrainFlushing)
    case DrainEnd => s.(consumer := if |s.batch| > 0 then FinalFlushing else Stopped)
  }

  function Batches(fates: seq<Fate>): seq<seq<Record>> {
    if fates == [] then [] else Batches(fates[..|fates| - 1]) + [fates[|fates| - 1].records]
  }

  /** The consumer has found the queue empty while draining and reads it no more. */
  predicate PastLastLook(c: Consumer) {
    c.FinalFlushing? || c.Stopped?
  }

  predicate ShuttingDown(c: Consumer) {
    c.LastAttempt? || c.Draining? || c.DrainFlushing? || c.FinalFlushing? || c.Stopped?
  }

  /** Writing a batch, or about to write it again. */
  predicate WithBatch(c: Consumer) {
    !c.Selecting? && !c.Draining? && !c.Stopped?
  }

  /** Every record that the queue accepted is in exactly one place, and in order:
      in a batch that has left, in the batch being filled, or in the queue. */
  ghost predicate Conserved(s: Sys) {
    Flatten(Batches(s.fates)) + s.batch + s.queue == s.enqueued
  }

  ghost predicate Bounded(s: Sys) {
    && 0 < s.capacity && 0 < s.batchSize
    && |s.queue| <= s.capacity && |s.batch| <= s.batchSize
    && (s.consumer.Selecting? || s.consumer.Draining? ==> |s.batch| < s.batchSize)
    && (ShuttingDown(s.consumer) ==> s.cancelled)
    && (forall i :: 0 <= i < |s.fates| && s.fates[i].Dropped? ==> s.cancelled)
    && (forall i :: 0 <= i < |s.fates| ==> |s.fates[i].records| <= s.batchSize)
    && (s.consumer.Stopped? ==> s.batch == [])
    && (WithBatch(s.consumer) ==> s.batch != [])
    && (if PastLastLook(s.consumer) then s.queue == s.late else s.late == [])
  }

  /** Every record that was accepted went to the queue or to the writer. */
  ghost predicate Accounted(s: Sys) {
    multiset(s.accepted) == multiset(s.enqueued) + multiset(s.direct)
  }

  ghost predicate Inv(s: Sys) {
    Conserved(s) && Bounded(s) && Accounted(s)
  }

  /** Where an accepted record can be: in a batch that was written or lost, in the
      batch being filled, in the queue, or written by its own call. */
  lemma AcceptedAre(s: Sys)
    requires Inv(s)
    ensures multiset(s.accepted)
         == multiset(Flatten(Batches(s.fates))) + multiset(s.batch) + multiset(s.queue) + multiset(s.direct)
  {
    assert s.enqueued == Flatten(Batches(s.fates)) + s.batch + s.queue;
  }

  lemma BatchesSnoc(fates: seq<Fate>, f: Fate)
    ensures Flatten(Batches(fates + [f])) == Flatten(Batches(fates)) + f.records
  {
    assert (fates + [f])[..|fates|] == fates;
    FlattenSnoc(Batches(fates), f.records);
  }

  lemma ReceiveConserves(s: Sys, full: Consumer)
    requires Conserved(s) && s.queue != []
    ensures Conserved(Received(s, full))
  {
    var s' := Received(s, full);
    var before := Flatten(Batches(s.fates));
    assert s.queue == [s.queue[0]] + s.queue[1..];
    assert before + s'.batch + s'.queue == before + s.batch + s.queue;
  }

  lemma WriteConserves(s: Sys, ok: bool)
    requires Conserved(s) && Enabled(s, WriteBatch(ok))
    ensures Conserved(Next(s, WriteBatch(ok)))
  {
    BatchesSnoc(s.fates, Stored(s.batch));
    BatchesSnoc(s.fates, Dropped(s.batch));
    var before := Flatten(Batches(s.fates));
    assert before + s.batch + [] + s.queue == before + s.batch + s.queue;
  }

  lemma OfferConserves(s: Sys, c: Caller)
    requires Conserved(s) && Enabled(s, Offer(c))
    ensures Conserved(Next(s, Offer(c)))
  {
    var before := Flatten(Batches(s.fates)) + s.batch;
    var r := s.adds[c].r;
    assert before + (s.queue + [r]) == before + s.queue + [r];
  }

  lemma NextConserves(s: Sys, e: Step)
    requires Conserved(s) && Enabled(s, e)
    ensures Conserved(Next(s, e))
  {
    match e
    case Offer(c) => OfferConserves(s, c);
    case Take => ReceiveConserves(s, Flushing);
    case DrainTake => ReceiveConserves(s, DrainFlushing);
    case WriteBatch(ok) => WriteConserves(s, ok);
    case _ =>
  }

  lemma NextStaysAccounted(s: Sys, e: Step)
    requires Accounted(s) && Enabled(s, e)
    ensures Accounted(Next(s, e))
  {
    hide Accounted, Received, AfterBatch;
    match e
    case Offer(c) => AccountedIs(s, Next(s, e), [s.adds[c].r]);
    case WriteDirect(c, ok) => AccountedIs(s, Next(s, e), [s.adds[c].r]);
    case _ =>
      ReceivedKeeps(s);
      AccountedIs(s, Next(s, e), []);
  }

  lemma AccountedIs(s: Sys, s': Sys, r: seq<Record>)
    requires Accounted(s)
    requires (s'.accepted == s.accepted && s'.enqueued == s.enqueued && s'.direct == s.direct)
          || (s'.accepted == s.accepted + r && s'.enqueued == s.enqueued + r && s'.direct == s.direct)
          || (s'.accepted == s.accepted + r && s'.enqueued == s.enqueued && s'.direct == s.direct + r)
    ensures Accounted(s')
  {
  }

  lemma ReceivedKeeps(s: Sys)
    ensures s.queue != [] ==>
      forall full :: Received(s, full).accepted == s.accepted && Received(s, full).enqueued == s.enqueued
                     && Received(s, full).direct == s.direct
  {
  }

  lemma NextKeepsInv(s: Sys, e: Step)
    requires Inv(s) && Enabled(s, e)
    ensures Inv(Next(s, e))
  {
    hide *;
    InvParts(s);
    InvParts(Next(s, e));
    NextStaysAccounted(s, e);
    NextConserves(s, e);
    NextStaysBounded(s, e);
  }

  lemma InvParts(s: Sys)
    ensures Inv(s) <==> Conserved(s) && Bounded(s) && Accounted(s)
  {
  }

  lemma NextStaysBounded(s: Sys, e: Step)
    requires Bounded(s) && Enabled(s, e)
    ensures Bounded(Next(s, e))
  {
    match e
    case Take => ReceiveStaysBounded(s, Flushing);
    case DrainTake => ReceiveStaysBounded(s, DrainFlushing);
    case WriteBatch(ok) => WriteStaysBounded(s, ok);
    case _ => OtherStaysBounded(s, e);
  }

  lemma ReceiveStaysBounded(s: Sys, full: Consumer)
    requires Bounded(s) && s.queue != []
    requires (s.consumer.Selecting? && full.Flushing?) || (s.consumer.Draining? && full.DrainFlushing?)
    ensures Bounded(Received(s, full))
  {
  }

  lemma WriteStaysBounded(s: Sys, ok: bool)
    requires Bounded(s) && Enabled(s, WriteBatch(ok))
    ensures Bounded(Next(s, WriteBatch(ok)))
  {
  }

  lemma OtherStaysBounded(s: Sys, e: Step)
    requires Bounded(s) && Enabled(s, e) && !e.Take? && !e.DrainTake? && !e.WriteBatch?
    ensures Bounded(Next(s, e))
  {
    hide Received, AfterBatch;
  }

  ghost predicate Possible(s: Sys, es: seq<Step>)
    decreases |es|
  {
    es == [] || (Enabled(s, es[0]) && Possible(Next(s, es[0]), es[1..]))
  }

  ghost function Run(s: Sys, es: seq<Step>): Sys
    requires Possible(s, es)
    decreases |es|
  {
    if es == [] then s else Run(Next(s, es[0]), es[1..])
  }

  predicate Fresh(s: Sys) {
    && 0 < s.capacity && 0 < s.batchSize && s.consumer.Selecting?
    && s.queue == [] && s.batch == [] && s.fates == []
    && s.accepted == [] && s.direct == [] && s.enqueued == [] && s.late == []
  }

  /** No interleaving loses, repeats or reorders a record that the queue accepted,
      and the queue and the batch stay within their bounds. */
  lemma {:induction false} NothingGoesMissing(s: Sys, es: seq<Step>)
    requires Inv(s) && Possible(s, es)
    ensures Inv(Run(s, es))
    decreases |es|
  {
    if es != [] {
      NextKeepsInv(s, es[0]);
      NothingGoesMissing(Next(s, es[0]), es[1..]);
    }
  }

  lemma FreshIsFine(s: Sys)
    requires Fresh(s)
    ensures Inv(s)
  {
  }

  /** So from a fresh buffer on. */
  lemma NothingEverGoesMissing(s: Sys, es: seq<Step>)
    requires Fresh(s) && Possible(s, es)
    ensures Inv(Run(s, es))
  {
    FreshIsFine(s);
    NothingGoesMissing(s, es);
  }

  /** A call that is no longer there was accepted, or its own write failed. */
  lemma CallsEnd(s: Sys, e: Step, c: Caller)
    requires Enabled(s, e) && c in s.adds && c !in Next(s, e).adds
    ensures Next(s, e).accepted == s.accepted + [s.adds[c].r] || e == WriteDirect(c, false)
  {
    ReceivedKeepsCalls(s);
  }

  lemma ReceivedKeepsCalls(s: Sys)
    ensures s.queue != [] ==> forall full :: Received(s, full).adds == s.adds
  {
  }

  ghost predicate NoneOffers(s: Sys) {
    forall c :: c in s.adds ==> !s.adds[c].Offering?
  }

  /** Once the buffer is closed, and no call that found it open is under way, the queue
      takes no more: every later record is written by its own call. */
  lemma {:induction false} ClosedTakesNoMore(s: Sys, es: seq<Step>)
    requires s.closed && NoneOffers(s) && Possible(s, es)
    ensures Run(s, es).closed && NoneOffers(Run(s, es)) && Run(s, es).enqueued == s.enqueued
    decreases |es|
  {
    hide Enabled, Next;
    if es != [] {
      StaysClosed(s, es[0]);
      ClosedTakesNoMore(Next(s, es[0]), es[1..]);
    }
  }

  lemma StaysClosed(s: Sys, e: Step)
    requires s.closed && NoneOffers(s) && Enabled(s, e)
    ensures Next(s, e).closed && NoneOffers(Next(s, e)) && Next(s, e).enqueued == s.enqueued
  {
    hide AfterBatch;
  }

  predicate LosesABatch(s: Sys, e: Step) {
    e == WriteBatch(false) && s.consumer.LastAttempt?
  }

  function DroppedCount(fates: seq<Fate>): nat {
    if fates == [] then 0
    else DroppedCount(fates[..|fates| - 1]) + (if fates[|fates| - 1].Dropped? then |fates[|fates| - 1].records| else 0)
  }

  /** A record is lost by the last attempt at shutdown or not at all. */
  lemma OnlyTheLastAttemptLoses(s: Sys, e: Step)
    requires Enabled(s, e)
    ensures DroppedCount(Next(s, e).fates)
         == DroppedCount(s.fates) + (if LosesABatch(s, e) then |s.batch| else 0)
  {
    if e.WriteBatch? {
      var f := Next(s, e).fates;
      if f != s.fates {
        assert f[..|f| - 1] == s.fates;
      }
    }
  }

  /** Once the consumer has stopped, what is left in the queue is exactly what was
      offered after it had last found the queue empty: everything accepted has
      left for the writer if and only if nothing was offered that late. */
  lemma StrandedAre(s: Sys)
    requires Inv(s) && s.consumer.Stopped?
    ensures s.queue == s.late
    ensures s.late == [] <==> Flatten(Batches(s.fates)) == s.enqueued
  {
    assert Flatten(Batches(s.fates)) + [] + s.queue == s.enqueued;
    assert |Flatten(Batches(s.fates))| + |s.queue| == |s.enqueued|;
  }

  /** It does happen: a call that looked before the buffer was closed may offer
      that late, is told that its record is accepted, and no run of any length
      ever takes the record out of the queue again. */
  lemma {:induction false} LateOfferIsStranded(s: Sys, c: Caller, es: seq<Step>)
    requires Inv(s) && PastLastLook(s.consumer) && |s.queue| < s.capacity
    requires Enabled(s, Offer(c)) && Possible(Next(s, Offer(c)), es)
    ensures c !in Next(s, Offer(c)).adds
    ensures s.queue + [s.adds[c].r] <= Run(Next(s, Offer(c)), es).queue
  {
    NextKeepsInv(s, Offer(c));
    StrandedForever(Next(s, Offer(c)), es);
  }

  // ----- what the consumer can do on its own -------------------------------

  /** The consumer's next step if its writes succeed and nobody cancels it. */
  function OwnStep(s: Sys): Step {
    match s.consumer
    case Selecting => if s.queue != [] then Take else Tick
    case Draining => if s.queue != [] then DrainTake else DrainEnd
    case BackingOff => Retry
    case _ => WriteBatch(true)
  }

  predicate OfConsumer(e: Step) {
    e == Take || e == Tick || e == Retry || e == DrainTake || e == DrainEnd || e == WriteBatch(true)
  }

  function Rank(c: Consumer): nat {
    if c.Selecting? || c.Draining? then 2 else if c.BackingOff? then 1 else 0
  }

  lemma OwnStepHelps(s: Sys)
    requires Inv(s) && (PastLastLook(s.consumer) ==> s.queue == []) && (s.queue != [] || s.batch != [])
    ensures Enabled(s, OwnStep(s)) && OfConsumer(OwnStep(s))
    ensures
      var s' := Next(s, OwnStep(s));
      && (PastLastLook(s'.consumer) ==> s'.queue == [])
      && s'.enqueued == s.enqueued && s'.accepted == s.accepted
      && DroppedCount(s'.fates) == DroppedCount(s.fates)
      && (|s'.queue| < |s.queue|
          || (s'.queue == s.queue && |s'.batch| < |s.batch|)
          || (s'.queue == s.queue && s'.batch == s.batch && Rank(s'.consumer) < Rank(s.consumer)))
  {
    hide Conserved, Accounted, DroppedCount;
    OnlyTheLastAttemptLoses(s, OwnStep(s));
  }

  /** The records that go out if the consumer is left to itself. */
  ghost predicate GoesOut(s: Sys, es: seq<Step>) {
    && Possible(s, es) && (forall i :: 0 <= i < |es| ==> OfConsumer(es[i]))
    && Run(s, es).queue == Run(s, es).batch == [] && Flatten(Batches(Run(s, es).fates)) == s.enqueued
    && Run(s, es).accepted == s.accepted && DroppedCount(Run(s, es).fates) == DroppedCount(s.fates)
  }

  lemma {:induction false} ConsumerWritesAll(s: Sys) returns (es: seq<Step>)
    requires Inv(s) && (PastLastLook(s.consumer) ==> s.queue == [])
    ensures GoesOut(s, es)
    decreases |s.queue|, |s.batch|, Rank(s.consumer)
  {
    hide Inv, Enabled, Next, DroppedCount, OwnStep, OfConsumer;
    NothingLeft(s);
    if s.queue == [] && s.batch == [] {
      es := [];
    } else {
      OwnStepHelps(s);
      NextKeepsInv(s, OwnStep(s));
      var rest := ConsumerWritesAll(Next(s, OwnStep(s)));
      Unfolds(s, OwnStep(s), rest);
      es := [OwnStep(s)] + rest;
    }
  }

  lemma NothingLeft(s: Sys)
    requires Inv(s)
    ensures s.queue == [] && s.batch == [] ==> Flatten(Batches(s.fates)) == s.enqueued
  {
    assert Flatten(Batches(s.fates)) + [] + [] == Flatten(Batches(s.fates));
  }

  /** From whatever has happened so far, everything that the queue has accepted can
      still be written, without a loss and by the consumer alone, exactly if nothing
      came after its last look. */
  lemma AllCanBeWrittenExactly(s: Sys)
    requires Inv(s)
    ensures (exists es :: GoesOut(s, es)) <==> !(PastLastLook(s.consumer) && s.queue != [])
  {
    hide Inv, GoesOut;
    if PastLastLook(s.consumer) && s.queue != [] {
      forall es
        ensures !GoesOut(s, es)
      {
        StaysStranded(s, es);
      }
    } else {
      var es := ConsumerWritesAll(s);
    }
  }

  lemma StaysStranded(s: Sys, es: seq<Step>)
    requires PastLastLook(s.consumer) && s.queue != []
    ensures !GoesOut(s, es)
  {
    if Possible(s, es) {
      StrandedForever(s, es);
    }
  }

  lemma Unfolds(s: Sys, e: Step, es: seq<Step>)
    requires Enabled(s, e) && Possible(Next(s, e), es)
    ensures Possible(s, [e] + es) && Run(s, [e] + es) == Run(Next(s, e), es)
  {
    assert ([e] + es)[1..] == es;
  }

  /** A buffer of one place, with what its queue has accepted so far. */
  function Small(consumer: Consumer, cancelled: bool, adds: map<Caller, Add>, queue: seq<Record>): Sys {
    Sys(1, 1, queue, [], consumer, cancelled, false, adds, [], queue, [], queue, queue)
  }

  lemma StrandedStart()
    ensures
      var s, s1 := Small(Selecting, false, map[], []), Small(Selecting, false, map[0 := Checking(7)], []);
      Fresh(s) && Enabled(s, Call(0, 7)) && Next(s, Call(0, 7)) == s1
    ensures
      var s1 := Small(Selecting, false, map[0 := Checking(7)], []);
      var s2 := Small(Selecting, false, map[0 := Offering(7)], []);
      Enabled(s1, Check(0)) && Next(s1, Check(0)) == s2
    ensures
      var s2 := Small(Selecting, false, map[0 := Offering(7)], []);
      var s3 := Small(Selecting, true, map[0 := Offering(7)], []);
      Enabled(s2, Cancel) && Next(s2, Cancel) == s3
  {
  }

  lemma StrandedEnd()
    ensures
      var s3, s4 := Small(Selecting, true, map[0 := Offering(7)], []), Small(Draining, true, map[0 := Offering(7)], []);
      Enabled(s3, SeeCancel) && Next(s3, SeeCancel) == s4
    ensures
      var s4, s5 := Small(Draining, true, map[0 := Offering(7)], []), Small(Stopped, true, map[0 := Offering(7)], []);
      Enabled(s4, DrainEnd) && Next(s4, DrainEnd) == s5
    ensures
      var s5 := Small(Stopped, true, map[0 := Offering(7)], []);
      && Enabled(s5, Offer(0)) && Next(s5, Offer(0)) == Small(Stopped, true, map[], [7])
      && Small(Stopped, true, map[], [7]).consumer.Stopped?
      && Small(Stopped, true, map[], [7]).accepted == Small(Stopped, true, map[], [7]).queue == [7]
  {
    var s5 := Small(Stopped, true, map[0 := Offering(7)], []);
    assert Next(s5, Offer(0)).adds == map[];
  }

  lemma NoSteps(s: Sys)
    ensures Possible(s, []) && Run(s, []) == s
  {
  }

  /** A whole run of it, from a fresh buffer: the call finds the buffer open, the
      consumer is cancelled and finds the queue empty, and then the record goes in. */
  lemma StrandedRun() returns (s: Sys, es: seq<Step>)
    ensures Fresh(s) && Possible(s, es)
    ensures Run(s, es).consumer.Stopped? && Run(s, es).accepted == [7] && Run(s, es).queue == [7]
  {
    hide *;
    s := Small(Selecting, false, map[], []);
    var s1 := Small(Selecting, false, map[0 := Checking(7)], []);
    var s2 := Small(Selecting, false, map[0 := Offering(7)], []);
    var s3 := Small(Selecting, true, map[0 := Offering(7)], []);
    var s4 := Small(Draining, true, map[0 := Offering(7)], []);
    var s5 := Small(Stopped, true, map[0 := Offering(7)], []);
    StrandedStart();
    StrandedEnd();
    NoSteps(Next(s5, Offer(0)));
    Unfolds(s5, Offer(0), []);
    Unfolds(s4, DrainEnd, [Offer(0)] + []);
    Unfolds(s3, SeeCancel, [DrainEnd] + ([Offer(0)] + []));
    Unfolds(s2, Cancel, [SeeCancel] + ([DrainEnd] + ([Offer(0)] + [])));
    Unfolds(s1, Check(0), [Cancel] + ([SeeCancel] + ([DrainEnd] + ([Offer(0)] + []))));
    es := [Call(0, 7)] + ([Check(0)] + ([Cancel] + ([SeeCancel] + ([DrainEnd] + ([Offer(0)] + [])))));
    Unfolds(s, Call(0, 7), [Check(0)] + ([Cancel] + ([SeeCancel] + ([DrainEnd] + ([Offer(0)] + [])))));
  }

  lemma {:induction false} StrandedForever(s: Sys, es: seq<Step>)
    requires PastLastLook(s.consumer) && Possible(s, es)
    ensures PastLastLook(Run(s, es).consumer) && s.queue <= Run(s, es).queue
    decreases |es|
  {
    if es != [] {
      StrandedForever(Next(s, es[0]), es[1..]);
    }
  }
}
