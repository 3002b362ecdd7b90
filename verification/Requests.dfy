/** A request between its reserve and its end: every path settles, once. */
module Requests {
  import opened Basics
  import opened Ledger
  import opened Store

  /** What pricing says of a finished response. */
  datatype Price = Priced(cost: Usd) | Unpriced

  /** How the provider call goes. */
  datatype Reply = NoStreaming | Failed | Answered(price: Price)

  /** Where the handler panics, if it does. */
  datatype Panic = Nowhere | InCall | InRelay | InPricing | InRecording | InResponse

  datatype Plan = Plan(streaming: bool, reply: Reply, panic: Panic)

  /** One row of usage_records, as far as reconciliation reads it. */
  datatype UsageRecord = UsageRecord(key: KeyId, window: Month, cost: Option<nat>)

  /** A panic before the cost is settled leaves the deferred release to do it. */
  predicate Paid(plan: Plan) {
    plan.reply.Answered? && !plan.panic.InCall? && !plan.panic.InPricing? && !(plan.streaming && plan.panic.InRelay?)
  }

  function Amount(plan: Plan): Usd {
    if Paid(plan) && plan.reply.price.Priced? then plan.reply.price.cost else 0.0
  }

  predicate Recorded(plan: Plan) {
    Paid(plan) && !plan.panic.InRecording?
  }

  /** Whether the path makes its own settle, of the price or of zero. Where the
      provider cannot stream the error is written before that settle, and where it
      failed after it. */
  predicate SettlesItself(plan: Plan) {
    if plan.reply.Answered? then Paid(plan)
    else !plan.panic.InCall? && !(plan.streaming && plan.reply.NoStreaming? && plan.panic.InResponse?)
  }

  /** A panic that a stream does not survive to say that it was settled. */
  predicate StreamPanics(plan: Plan) {
    plan.streaming && (if plan.reply.Answered? then !plan.panic.Nowhere? else plan.panic.InResponse?)
  }

  /** Whether the deferred settle runs: after a panic that came before the path knew
      that it had settled. */
  predicate Defers(plan: Plan) {
    !SettlesItself(plan) || StreamPanics(plan)
  }

  /** What the settles of a request leave, `first` being what happens to its own one
      and `deferred` to the other. */
  function Outcome(db: Db, id: ResId, plan: Plan, first: Fault, deferred: Fault): Db {
    if SettlesItself(plan) && first == NoFault then Settlement(db, id, Amount(plan))
    else if Defers(plan) && deferred == NoFault then Settlement(db, id, 0.0)
    else db
  }

  predicate TakesEffect(plan: Plan, first: Fault, deferred: Fault) {
    (SettlesItself(plan) && first == NoFault) || (Defers(plan) && deferred == NoFault)
  }

  function RecordOf(key: KeyId, window: Month, plan: Plan): UsageRecord
    requires Paid(plan)
  {
    UsageRecord(key, window, if plan.reply.price.Priced? then Some(Quantise(plan.reply.price.cost)) else None)
  }

  function RecordsOf(key: KeyId, window: Month, plan: Plan): seq<UsageRecord> {
    if Recorded(plan) then [RecordOf(key, window, plan)] else []
  }

  /** As long as its settles commit, every request is settled with effect, once, at
      its price or at zero. */
  lemma CommittedSettles(db: Db, id: ResId, plan: Plan)
    ensures TakesEffect(plan, NoFault, NoFault)
    ensures Outcome(db, id, plan, NoFault, NoFault) == Settlement(db, id, Amount(plan))
  {
  }

  /** A settle that fails leaves the reservation to the sweep, unless the request was
      a stream that panicked: then the deferred one releases it at zero, even if the
      request was answered. */
  lemma FailedSettles(db: Db, id: ResId, plan: Plan, first: Fault, deferred: Fault)
    requires SettlesItself(plan) && first != NoFault
    ensures Outcome(db, id, plan, first, deferred)
         == if StreamPanics(plan) && deferred == NoFault then Settlement(db, id, 0.0) else db
  {
  }

  /** Who settles, path by path. A request that has no answer yet when it panics, in the
      call or, for a stream, in the relay or the pricing, is left to the deferred settle,
      and so is one that panics before the error of an unsupported stream is written. Any
      other settles itself; and only a stream that panics after that tries again. */
  lemma OutcomeExactly(db: Db, id: ResId, plan: Plan, first: Fault, deferred: Fault)
    ensures
      var itself := Settlement(db, id,
        if plan.reply.Answered? && plan.reply.price.Priced? then plan.reply.price.cost else 0.0);
      var released := if deferred == NoFault then Settlement(db, id, 0.0) else db;
      Outcome(db, id, plan, first, deferred)
      == match (plan.reply, plan.panic)
         case (_, InCall) => released
         case (Answered(_), InPricing) => released
         case (Answered(_), InRelay) =>
           if plan.streaming then released else if first == NoFault then itself else db
         case (Answered(_), Nowhere) => if first == NoFault then itself else db
         case (Answered(_), _) => if first == NoFault then itself else if plan.streaming then released else db
         case (NoStreaming, InResponse) =>
           if plan.streaming then released else if first == NoFault then itself else db
         case (Failed, InResponse) => if first == NoFault then itself else if plan.streaming then released else db
         case (_, _) => if first == NoFault then itself else db
  {
  }

  /** As long as settles commit, an answered request ends settled at its price, or at
      zero if it has none, and any other at zero, streamed or not; and it leaves a record
      of its price exactly if it does not panic before the record is made. */
  lemma EndsSettledAt(db: Db, id: ResId, key: KeyId, window: Month, plan: Plan)
    requires Settles(db, id)
    ensures
      var log, records := Outcome(db, id, plan, NoFault, NoFault).log, RecordsOf(key, window, plan);
      var late := plan.panic.InCall? || plan.panic.InPricing? || (plan.panic.InRelay? && plan.streaming);
      && id in log && log[id].state == Settled
      && (match plan.reply
          case Answered(Priced(cost)) => log[id].actual == if late then 0 else Quantise(cost)
          case _ => log[id].actual == 0)
      && (match plan.reply
          case Answered(Priced(cost)) =>
            records == if late || plan.panic.InRecording? then [] else [UsageRecord(key, window, Some(Quantise(cost)))]
          case Answered(Unpriced) =>
            records == if late || plan.panic.InRecording? then [] else [UsageRecord(key, window, None)]
          case _ => records == [])
  {
    assert Quantise(0.0) == 0;
  }

  /** Without a panic the settle and the record of an answer are those of its price. */
  lemma AnsweredEndsSettled(db: Db, id: ResId, key: KeyId, window: Month, plan: Plan, first: Fault, deferred: Fault)
    requires Settles(db, id)
    ensures plan.reply.Answered? && plan.panic.Nowhere? && first == NoFault ==>
      var log := Outcome(db, id, plan, first, deferred).log;
      var cost := if plan.reply.price.Priced? then Some(Quantise(plan.reply.price.cost)) else None;
      && id in log && log[id].state == Settled && log[id].actual == (if cost.Some? then cost.value else 0)
      && RecordsOf(key, window, plan) == [UsageRecord(key, window, cost)]
  {
    assert Quantise(0.0) == 0;
  }

  class Handler {
    const store: Store
    var records: seq<UsageRecord>
    /** How many of this handler's settles took effect. */
    ghost var effective: nat

    constructor (store: Store)
      ensures this.store == store && records == [] && effective == 0
    {
      this.store := store;
      records := [];
      effective := 0;
    }

    method Settle(id: ResId, cost: Usd, fault: Fault)
      requires Constrained(store.Contents())
      modifies this`effective, store
      ensures fault == NoFault ==> store.Contents() == Settlement(old(store.Contents()), id, cost)
      ensures fault == NoFault ==> effective == old(effective) + (if Settles(old(store.Contents()), id) then 1 else 0)
      ensures fault != NoFault ==> store.Contents() == old(store.Contents()) && effective == old(effective)
    {
      var r := store.Settle(id, cost, fault);
      if r.Ran? && r.applied {
        effective := effective + 1;
      }
    }

    /** Everything after an admitted reserve. */
    method ServeReserved(id: ResId, key: KeyId, window: Month, plan: Plan, first: Fault, deferred: Fault)
      requires Constrained(store.Contents()) && Settles(store.Contents(), id)
      modifies this, store
      ensures store.Contents() == Outcome(old(store.Contents()), id, plan, first, deferred)
      ensures effective == old(effective) + (if TakesEffect(plan, first, deferred) then 1 else 0)
      ensures records == old(records) + RecordsOf(key, window, plan)
      ensures plan.reply.Answered? && plan.panic.Nowhere? && first == NoFault ==>
        var cost := if plan.reply.price.Priced? then Some(Quantise(plan.reply.price.cost)) else None;
        && id in store.log && store.log[id].state == Settled
        && store.log[id].actual == (if cost.Some? then cost.value else 0)
        && records == old(records) + [UsageRecord(key, window, cost)]
    {
      hide Settlement, Constrained;
      ghost var before := store.Contents();
      AnsweredEndsSettled(before, id, key, window, plan, first, deferred);
      var settled;
      if plan.streaming {
        settled := ServeStream(id, key, window, plan, first);
      } else {
        settled := Complete(id, key, window, plan, first);
      }
      // runs on return and on a panic alike
      if !settled {
        SettledOnce(before, id, Amount(plan), 0.0);
        Settle(id, 0.0, deferred);
      }
    }

    method Complete(id: ResId, key: KeyId, window: Month, plan: Plan, fault: Fault) returns (settled: bool)
      requires Constrained(store.Contents()) && Settles(store.Contents(), id) && !plan.streaming
      modifies this, store
      ensures settled == SettlesItself(plan)
      ensures store.Contents()
           == if settled && fault == NoFault then Settlement(old(store.Contents()), id, Amount(plan))
              else old(store.Contents())
      ensures effective == old(effective) + (if settled && fault == NoFault then 1 else 0)
      ensures records == old(records) + RecordsOf(key, window, plan)
    {
      hide Settlement, Constrained;
      settled := false;
      if plan.panic.InCall? {
        return;
      }
      if !plan.reply.Answered? {
        settled := true;
        Settle(id, 0.0, fault);
        return;
      }
      if plan.panic.InPricing? {
        return;
      }
      settled := true;
      Settle(id, Amount(plan), fault);
      if plan.panic.InRecording? {
        return;
      }
      records := records + [RecordOf(key, window, plan)];
    }

    method ServeStream(id: ResId, key: KeyId, window: Month, plan: Plan, fault: Fault) returns (settled: bool)
      requires Constrained(store.Contents()) && Settles(store.Contents(), id) && plan.streaming
      modifies this, store
      ensures settled <==> !Defers(plan)
      ensures store.Contents()
           == if SettlesItself(plan) && fault == NoFault then Settlement(old(store.Contents()), id, Amount(plan))
              else old(store.Contents())
      ensures effective == old(effective) + (if SettlesItself(plan) && fault == NoFault then 1 else 0)
      ensures records == old(records) + RecordsOf(key, window, plan)
    {
      hide Settlement, Constrained;
      settled := false;
      if plan.panic.InCall? {
        return;
      }
      if plan.reply.NoStreaming? && plan.panic.InResponse? {
        return;
      }
      if !plan.reply.Answered? {
        Settle(id, 0.0, fault);
        settled := !plan.panic.InResponse?;
        return;
      }
      if plan.panic.InRelay? || plan.panic.InPricing? {
        return;
      }
      Settle(id, Amount(plan), fault);
      if plan.panic.InRecording? {
        return;
      }
      records := records + [RecordOf(key, window, plan)];
      settled := plan.panic.Nowhere?;
    }
  }

  /** A settled reservation keeps the tables within their constraints and is not
      settled again. */
  lemma SettledOnce(db: Db, id: ResId, cost: Usd, again: Usd)
    requires Constrained(db) && Settles(db, id)
    ensures Constrained(Settlement(db, id, cost))
    ensures !Settles(Settlement(db, id, cost), id)
    ensures Settlement(Settlement(db, id, cost), id, again) == Settlement(db, id, cost)
  {
  }
}
