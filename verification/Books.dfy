/** The budget ledger and the usage records side by side, and the reconciliation
    that compares them. */
module Books {
  import opened Basics
  import opened Ledger
  import opened Requests
  import opened Store
  import LedgerRuns

  /** How the settles of a request came out: at its cost, at zero although it may
      have one, or not at all, so that the reservation is still open. */
  datatype Closing = AtCost | AtZero | Never

  /** Where the accounting of one admitted request stands. A record is owed while
      it is in its handler or in the usage buffer; a request that failed never has
      one. */
  datatype Paper =
    | Running
    | Owed(record: UsageRecord, how: Closing)
    | Written(record: UsageRecord, how: Closing)
    | Lost(record: UsageRecord, how: Closing)
    | NoRecord(how: Closing)

  datatype Books = Books(db: Db, papers: map<ResId, Paper>)

  datatype BookEvent =
    | Admit(reserve: Event)
    | Administer(change: Event)
    | Sweep(ids: seq<ResId>, at: Instant)
    | Finish(id: ResId, plan: Plan, first: Fault, deferred: Fault)
    | Write(id: ResId)
    | Lose(id: ResId)

  predicate Possible(b: Books, e: BookEvent) {
    match e
    case Admit(r) => r.Reserve? && Enabled(b.db, r)
    case Administer(c) => (c.CreateKey? || c.SetLimit? || c.Revoke?) && Enabled(b.db, c)
    case Sweep(ids, at) => Enabled(b.db, Reap(ids, at))
    case Finish(id, _, _, _) => id in b.papers && b.papers[id].Running? && id in b.db.log
    case Write(id) => id in b.papers && b.papers[id].Owed?
    case Lose(id) => id in b.papers && b.papers[id].Owed?
  }

  function ClosingOf(plan: Plan, first: Fault, deferred: Fault): Closing {
    if SettlesItself(plan) && first == NoFault then AtCost
    else if Defers(plan) && deferred == NoFault then AtZero
    else Never
  }

  /** What is left of a request when its handler returns. A settle that failed is
      only logged: the record is made all the same. */
  function PaperOf(r: Reservation, plan: Plan, how: Closing): Paper {
    if Recorded(plan) then Owed(RecordOf(r.key, r.window, plan), how)
    else if Paid(plan) then Lost(RecordOf(r.key, r.window, plan), how)
    else NoRecord(how)
  }

  function After(b: Books, e: BookEvent): Books
    requires Possible(b, e)
  {
    match e
    case Admit(r) => Books(Step(b.db, r), b.papers[r.id := Running])
    case Administer(c) => b.(db := Step(b.db, c))
    case Sweep(ids, at) => b.(db := Step(b.db, Reap(ids, at)))
    case Finish(id, plan, first, deferred) =>
      Books(Outcome(b.db, id, plan, first, deferred),
        b.papers[id := PaperOf(b.db.log[id], plan, ClosingOf(plan, first, deferred))])
    case Write(id) => b.(papers := b.papers[id := Written(b.papers[id].record, b.papers[id].how)])
    case Lose(id) => b.(papers := b.papers[id := Lost(b.papers[id].record, b.papers[id].how)])
  }

  // ----- sums of recorded cost ---------------------------------------------

  function Cost(u: UsageRecord, k: KeyId, w: Month): nat {
    if u.key == k && u.window == w && u.cost.Some? then u.cost.value else 0
  }

  function CostIn(k: KeyId, w: Month): UsageRecord -> int {
    (u: UsageRecord) => Cost(u, k, w)
  }

  predicate HasRecord(p: Paper) {
    p.Owed? || p.Written? || p.Lost?
  }

  function CostOf(p: Paper, k: KeyId, w: Month): nat {
    if HasRecord(p) then Cost(p.record, k, w) else 0
  }

  /** The cost of a record whose request was not settled at it. */
  function UnpaidOf(p: Paper, k: KeyId, w: Month): nat {
    if HasRecord(p) && !p.how.AtCost? then CostOf(p, k, w) else 0
  }

  function PaperCostIn(k: KeyId, w: Month): Paper -> int {
    (p: Paper) => CostOf(p, k, w)
  }

  function UnpaidIn(k: KeyId, w: Month): Paper -> int {
    (p: Paper) => UnpaidOf(p, k, w)
  }

  ghost predicate OnePaperEach(b: Books) {
    && b.papers.Keys == b.db.log.Keys
    && forall id :: id in b.papers ==>
         (b.db.log[id].state == Settled <==> !b.papers[id].Running? && !b.papers[id].how.Never?)
  }

  ghost predicate SumsAgree(b: Books, k: KeyId, w: Month) {
    Total(b.papers, PaperCostIn(k, w)) == Total(b.db.log, SettledIn(k, w)) + Total(b.papers, UnpaidIn(k, w))
  }

  ghost predicate BooksInv(b: Books) {
    Inv(b.db) && OnePaperEach(b) && forall k, w :: SumsAgree(b, k, w)
  }

  lemma PapersKept(b: Books, e: BookEvent)
    requires OnePaperEach(b) && Possible(b, e)
    ensures OnePaperEach(After(b, e))
  {
    match e
    case Admit(c) => OtherRowsKept(b.db, c);
    case Administer(c) => OtherRowsKept(b.db, c);
    case Sweep(ids, at) => OtherRowsKept(b.db, Reap(ids, at));
    case Finish(id, plan, first, deferred) => FinishKeepsPapers(b, id, plan, first, deferred);
    case _ =>
  }

  /** No event but a settle makes a reservation settled. */
  lemma OtherRowsKept(db: Db, c: Event)
    requires Enabled(db, c) && !c.Settle?
    ensures Step(db, c).log.Keys == db.log.Keys + (if c.Reserve? then {c.id} else {})
    ensures c.Reserve? ==> Step(db, c).log[c.id].state == Pending
    ensures forall id :: id in db.log ==> (Step(db, c).log[id].state == Settled <==> db.log[id].state == Settled)
  {
    hide Claimed, Reserved, Admits, Allows;
  }

  /** The row of a reservation whose request has ended. */
  function ClosedAs(r: Reservation, plan: Plan, how: Closing): Reservation {
    match how
    case AtCost => Closed(r, Amount(plan))
    case AtZero => Closed(r, 0.0)
    case Never => r
  }

  lemma OutcomeLog(db: Db, id: ResId, plan: Plan, first: Fault, deferred: Fault)
    requires Settles(db, id)
    ensures Outcome(db, id, plan, first, deferred).log
         == db.log[id := ClosedAs(db.log[id], plan, ClosingOf(plan, first, deferred))]
  {
    hide Charged, Closed, Amount, SettlesItself, Defers;
  }

  lemma FinishKeepsPapers(b: Books, id: ResId, plan: Plan, first: Fault, deferred: Fault)
    requires OnePaperEach(b) && Possible(b, Finish(id, plan, first, deferred))
    ensures OnePaperEach(After(b, Finish(id, plan, first, deferred)))
  {
    hide Outcome, Amount, ClosingOf, Paid, Recorded;
    OutcomeLog(b.db, id, plan, first, deferred);
  }

  lemma StoreStepKeepsSums(db: Db, c: Event, k: KeyId, w: Month)
    requires Enabled(db, c) && !c.Settle?
    ensures Total(Step(db, c).log, SettledIn(k, w)) == Total(db.log, SettledIn(k, w))
  {
    if c.Reserve? {
      TotalWrite(db.log, SettledIn(k, w), c.id, Step(db, c).log[c.id]);
    } else if c.Reap? {
      LedgerRuns.ExpireAllTotals(db.log, c.ids, k, w);
    }
  }

  /** The record states the amount the reservation was settled at, if it was; a
      request without a record, and one without a price, is settled at zero. */
  lemma PaperMatchesSettlement(r: Reservation, plan: Plan, first: Fault, deferred: Fault, k: KeyId, w: Month)
    requires Open(r)
    ensures
      var how := ClosingOf(plan, first, deferred);
      PaperCostIn(k, w)(PaperOf(r, plan, how))
      == SettledIn(k, w)(ClosedAs(r, plan, how)) + UnpaidIn(k, w)(PaperOf(r, plan, how))
  {
    hide Defers;
    assert Quantise(0.0) == 0;
    if Paid(plan) {
      var u := RecordOf(r.key, r.window, plan);
      assert CostOf(PaperOf(r, plan, AtCost), k, w) == CostIn(k, w)(u);
    }
  }

  /** What a step adds to the recorded costs it adds to the settled amounts or to the
      costs that were not settled. */
  lemma StepKeepsSums(b: Books, e: BookEvent, k: KeyId, w: Month)
    requires OnePaperEach(b) && Possible(b, e)
    ensures Total(After(b, e).papers, PaperCostIn(k, w)) - Total(b.papers, PaperCostIn(k, w))
         == Total(After(b, e).db.log, SettledIn(k, w)) - Total(b.db.log, SettledIn(k, w))
            + Total(After(b, e).papers, UnpaidIn(k, w)) - Total(b.papers, UnpaidIn(k, w))
  {
    hide Outcome, ClosingOf, PaperOf, Step, Enabled, Total;
    match e
    case Admit(c) =>
      StoreStepKeepsSums(b.db, c, k, w);
      NewRow(b.db, c);
      PaperWritten(b, c.id, Running, k, w);
    case Administer(c) => StoreStepKeepsSums(b.db, c, k, w);
    case Sweep(ids, at) => StoreStepKeepsSums(b.db, Reap(ids, at), k, w);
    case Finish(id, plan, first, deferred) => FinishKeepsSums(b, id, plan, first, deferred, k, w);
    case Write(id) => PaperWritten(b, id, Written(b.papers[id].record, b.papers[id].how), k, w);
    case Lose(id) => PaperWritten(b, id, Lost(b.papers[id].record, b.papers[id].how), k, w);
  }

  lemma NewRow(db: Db, c: Event)
    requires c.Reserve? && Enabled(db, c)
    ensures c.id !in db.log
  {
  }

  /** What writing one paper does to the two sums over papers. */
  lemma PaperWritten(b: Books, id: ResId, p: Paper, k: KeyId, w: Month)
    ensures Total(b.papers[id := p], PaperCostIn(k, w))
         == Total(b.papers, PaperCostIn(k, w))
            - (if id in b.papers then PaperCostIn(k, w)(b.papers[id]) else 0) + PaperCostIn(k, w)(p)
    ensures Total(b.papers[id := p], UnpaidIn(k, w))
         == Total(b.papers, UnpaidIn(k, w))
            - (if id in b.papers then UnpaidIn(k, w)(b.papers[id]) else 0) + UnpaidIn(k, w)(p)
  {
    hide *;
    TotalWrite(b.papers, PaperCostIn(k, w), id, p);
    TotalWrite(b.papers, UnpaidIn(k, w), id, p);
  }

  lemma FinishKeepsSums(b: Books, id: ResId, plan: Plan, first: Fault, deferred: Fault, k: KeyId, w: Month)
    requires OnePaperEach(b) && Possible(b, Finish(id, plan, first, deferred))
    ensures
      var b' := After(b, Finish(id, plan, first, deferred));
      Total(b'.papers, PaperCostIn(k, w)) - Total(b.papers, PaperCostIn(k, w))
      == Total(b'.db.log, SettledIn(k, w)) - Total(b.db.log, SettledIn(k, w))
         + Total(b'.papers, UnpaidIn(k, w)) - Total(b.papers, UnpaidIn(k, w))
  {
    hide *;
    var how := ClosingOf(plan, first, deferred);
    var r := RunningRow(b, id, plan, first, deferred);
    OutcomeLog(b.db, id, plan, first, deferred);
    PaperMatchesSettlement(r, plan, first, deferred, k, w);
    TotalWrite(b.db.log, SettledIn(k, w), id, ClosedAs(r, plan, how));
    PaperWritten(b, id, PaperOf(r, plan, how), k, w);
    NothingYet(r, k, w);
  }

  /** The row of a request that is about to end, and what ending it does. */
  lemma RunningRow(b: Books, id: ResId, plan: Plan, first: Fault, deferred: Fault) returns (r: Reservation)
    requires OnePaperEach(b) && Possible(b, Finish(id, plan, first, deferred))
    ensures id in b.papers && b.papers[id] == Running && Settles(b.db, id) && r == b.db.log[id] && Open(r)
    ensures After(b, Finish(id, plan, first, deferred))
         == Books(Outcome(b.db, id, plan, first, deferred),
              b.papers[id := PaperOf(r, plan, ClosingOf(plan, first, deferred))])
  {
    hide Outcome, ClosingOf, PaperOf;
    r := b.db.log[id];
  }

  lemma NothingYet(r: Reservation, k: KeyId, w: Month)
    requires Open(r)
    ensures PaperCostIn(k, w)(Running) == UnpaidIn(k, w)(Running) == SettledIn(k, w)(r) == 0
  {
  }

  ghost predicate CanRun(b: Books, es: seq<BookEvent>)
    decreases |es|
  {
    es == [] || (Possible(b, es[0]) && CanRun(After(b, es[0]), es[1..]))
  }

  ghost function RunBooks(b: Books, es: seq<BookEvent>): Books
    requires CanRun(b, es)
    decreases |es|
  {
    if es == [] then b else RunBooks(After(b, es[0]), es[1..])
  }

  lemma LedgerKept(b: Books, e: BookEvent)
    requires Inv(b.db) && Possible(b, e)
    ensures Inv(After(b, e).db)
  {
    hide Inv, Outcome, Step, Enabled;
    match e
    case Admit(c) => LedgerRuns.StepKeepsInv(b.db, c);
    case Administer(c) => LedgerRuns.StepKeepsInv(b.db, c);
    case Sweep(ids, at) => LedgerRuns.StepKeepsInv(b.db, Reap(ids, at));
    case Finish(id, plan, first, deferred) => FinishKeepsLedger(b.db, id, plan, first, deferred);
    case Write(_) =>
    case Lose(_) =>
  }

  lemma FinishKeepsLedger(db: Db, id: ResId, plan: Plan, first: Fault, deferred: Fault)
    requires Inv(db)
    ensures Inv(Outcome(db, id, plan, first, deferred))
  {
    hide Inv, Settlement, Amount, SettlesItself, Defers;
    LedgerRuns.SettleKeepsInv(db, id, Amount(plan));
    LedgerRuns.SettleKeepsInv(db, id, 0.0);
  }

  lemma StepKeepsBooks(b: Books, e: BookEvent)
    requires BooksInv(b) && Possible(b, e)
    ensures BooksInv(After(b, e))
  {
    hide Inv, OnePaperEach, Possible, After, Total;
    LedgerKept(b, e);
    PapersKept(b, e);
    forall k, w
      ensures SumsAgree(After(b, e), k, w)
    {
      StepKeepsSums(b, e, k, w);
      assert SumsAgree(b, k, w);
    }
  }

  lemma EmptyBooks(b: Books)
    requires Empty(b.db) && b.papers == map[]
    ensures BooksInv(b)
  {
    EmptyIsBalanced(b.db);
  }

  /** Over any run, the costs written, on their way and lost add up, for every key
      and window, to the settled amounts of that key and window and the costs of
      requests whose settle failed. */
  lemma {:induction false} RunKeepsBooks(b: Books, es: seq<BookEvent>)
    requires BooksInv(b) && CanRun(b, es)
    ensures BooksInv(RunBooks(b, es))
    decreases |es|
  {
    if es != [] {
      StepKeepsBooks(b, es[0]);
      RunKeepsBooks(After(b, es[0]), es[1..]);
    }
  }

  /** So from empty books on. */
  lemma EveryBooksAddUp(b: Books, es: seq<BookEvent>)
    requires Empty(b.db) && b.papers == map[] && CanRun(b, es)
    ensures BooksInv(RunBooks(b, es))
  {
    EmptyBooks(b);
    RunKeepsBooks(b, es);
  }

  // ----- Reconcile ---------------------------------------------------------

  datatype Report = Report(drift: seq<KeyId>, withoutRecord: nat, mismatches: nat)

  predicate Ok(r: Report) {
    r.drift == [] && r.withoutRecord == 0 && r.mismatches == 0
  }

  ghost function Unrecorded(db: Db, written: map<ResId, UsageRecord>): set<ResId> {
    set id | id in db.log && db.log[id].state == Settled && id !in written
  }

  /** The groups of the third check: keys and windows of records that have a cost. */
  function Groups(written: map<ResId, UsageRecord>): set<(KeyId, Month)> {
    set id | id in written && written[id].cost.Some? :: (written[id].key, written[id].window)
  }

  ghost predicate Agrees(db: Db, written: map<ResId, UsageRecord>, g: (KeyId, Month)) {
    Total(written, CostIn(g.0, g.1)) == Total(db.log, SettledIn(g.0, g.1))
  }

  method Sum<V>(m: map<ResId, V>, w: V -> int) returns (sum: int)
    ensures sum == Total(m, w)
  {
    sum := 0;
    var left := m;
    while left != map[]
      invariant sum + Total(left, w) == Total(m, w)
      decreases |left|
    {
      assert left.Keys != {};
      var id :| id in left.Keys;
      TotalPick(left, w, id);
      sum := sum + w(left[id]);
      left := left - {id};
    }
  }

  method Reconcile(db: Db, written: map<ResId, UsageRecord>) returns (report: Report)
    ensures Distinct(report.drift) && forall k :: k in report.drift <==> k in db.budgets && !Balanced(db, k)
    ensures report.withoutRecord == |Unrecorded(db, written)|
    ensures report.mismatches == |set g | g in Groups(written) && !Agrees(db, written, g)|
  {
    var drift := [];
    var keys := db.budgets.Keys;
    while keys != {}
      invariant keys <= db.budgets.Keys && Distinct(drift)
      invariant forall k :: k in drift <==> k in db.budgets && k !in keys && !Balanced(db, k)
      decreases keys
    {
      var k :| k in keys;
      var settled := Sum(db.log, SettledIn(k, db.budgets[k].window));
      var pending := Sum(db.log, PendingOf(k));
      if db.budgets[k].spent != settled || db.budgets[k].reserved != pending {
        assert forall i :: 0 <= i < |drift| ==> drift[i] in drift;
        drift := drift + [k];
      }
      keys := keys - {k};
    }
    var unrecorded := set id | id in db.log && db.log[id].state == Settled && id !in written;
    var groups := Groups(written);
    var bad: set<(KeyId, Month)> := {};
    while groups != {}
      invariant groups <= Groups(written)
      invariant bad == set g | g in Groups(written) && g !in groups && !Agrees(db, written, g)
      decreases groups
    {
      var g :| g in groups;
      var recorded := Sum(written, CostIn(g.0, g.1));
      var settled := Sum(db.log, SettledIn(g.0, g.1));
      if recorded != settled {
        bad := bad + {g};
      }
      groups := groups - {g};
    }
    assert unrecorded == Unrecorded(db, written);
    assert bad == set g | g in Groups(written) && !Agrees(db, written, g);
    report := Report(drift, |unrecorded|, |bad|);
  }

  /** The third check finds something exactly if some written record has a cost and the
      costs written for its key and window do not come to what was settled there; a
      record without a cost is compared with nothing. */
  lemma MismatchesExactly(db: Db, written: map<ResId, UsageRecord>)
    ensures |set g | g in Groups(written) && !Agrees(db, written, g)| > 0
       <==> exists id :: id in written && written[id].cost.Some?
                         && Total(written, CostIn(written[id].key, written[id].window))
                            != Total(db.log, SettledIn(written[id].key, written[id].window))
  {
    hide Total;
    var bad := set g | g in Groups(written) && !Agrees(db, written, g);
    if g :| g in bad {
      var id :| id in written && written[id].cost.Some? && (written[id].key, written[id].window) == g;
      assert !Agrees(db, written, g);
    }
    if id :| id in written && written[id].cost.Some?
             && !Agrees(db, written, (written[id].key, written[id].window))
    {
      assert (written[id].key, written[id].window) in bad;
    }
  }

  // ----- what the report means ---------------------------------------------

  /** The usage_records table. */
  ghost function Table(papers: map<ResId, Paper>): map<ResId, UsageRecord> {
    map id | id in papers && papers[id].Written? :: papers[id].record
  }

  /** The costs of written records whose requests were not settled at them. */
  function UnpaidWrittenIn(k: KeyId, w: Month): Paper -> int {
    (p: Paper) => if p.Written? then UnpaidOf(p, k, w) else 0
  }

  ghost predicate PaidAreWritten(papers: map<ResId, Paper>) {
    forall id :: id in papers && HasRecord(papers[id]) && papers[id].how.AtCost? ==> papers[id].Written?
  }

  lemma {:induction false} TableTotal(papers: map<ResId, Paper>, k: KeyId, w: Month)
    requires PaidAreWritten(papers)
    ensures Total(Table(papers), CostIn(k, w))
         == Total(papers, PaperCostIn(k, w)) - Total(papers, UnpaidIn(k, w)) + Total(papers, UnpaidWrittenIn(k, w))
    decreases |papers|
  {
    hide Total, Table;
    if papers == map[] {
      NothingInTable();
      NoPapers(k, w);
    } else {
      var id := Pick(papers);
      TableTotal(papers - {id}, k, w);
      TotalPick(papers, PaperCostIn(k, w), id);
      TotalPick(papers, UnpaidIn(k, w), id);
      TotalPick(papers, UnpaidWrittenIn(k, w), id);
      TableWithout(papers, id);
      if papers[id].Written? {
        TotalPick(Table(papers), CostIn(k, w), id);
      }
    }
  }

  lemma NothingInTable()
    ensures Table(map[]) == map[]
  {
  }

  lemma NoPapers(k: KeyId, w: Month)
    ensures Total(map[], PaperCostIn(k, w)) == Total(map[], UnpaidIn(k, w)) == Total(map[], UnpaidWrittenIn(k, w)) == 0
    ensures Total(map[], CostIn(k, w)) == 0
  {
  }

  lemma TableWithout(papers: map<ResId, Paper>, id: ResId)
    requires id in papers
    ensures papers[id].Written? ==>
      && id in Table(papers) && Table(papers)[id] == papers[id].record
      && Table(papers) - {id} == Table(papers - {id})
    ensures !papers[id].Written? ==> Table(papers) == Table(papers - {id})
  {
  }

  /** The second check counts the records lost or still on their way and, as well,
      every failed request, as far as a settle of theirs committed. */
  lemma UnrecordedAre(b: Books, id: ResId)
    requires BooksInv(b)
    ensures id in Unrecorded(b.db, Table(b.papers))
       <==> id in b.papers && (b.papers[id].Owed? || b.papers[id].Lost? || b.papers[id].NoRecord?)
            && !b.papers[id].how.Never?
  {
  }

  /** A written record whose request was not settled at its cost. */
  predicate Spoils(p: Paper) {
    p.Written? && !p.how.AtCost? && p.record.cost.Some? && p.record.cost.value > 0
  }

  predicate InGroup(p: Paper, g: (KeyId, Month)) {
    HasRecord(p) && p.record.key == g.0 && p.record.window == g.1
  }

  /** When no record of a settled cost is owed or lost, the third check passes a
      group exactly when no written record of it has a cost that failed to be
      settled, whatever requests have failed and whatever was unpriced. */
  lemma CostsMatchExactly(b: Books, g: (KeyId, Month))
    requires BooksInv(b) && PaidAreWritten(b.papers)
    ensures Agrees(b.db, Table(b.papers), g)
       <==> forall id :: id in b.papers && InGroup(b.papers[id], g) ==> !Spoils(b.papers[id])
  {
    hide Total, Table, PaidAreWritten, Inv, OnePaperEach;
    TableTotal(b.papers, g.0, g.1);
    assert SumsAgree(b, g.0, g.1);
    UnpaidExactly(b.papers, g);
  }

  lemma UnpaidExactly(papers: map<ResId, Paper>, g: (KeyId, Month))
    ensures Total(papers, UnpaidWrittenIn(g.0, g.1)) == 0
       <==> forall id :: id in papers && InGroup(papers[id], g) ==> !Spoils(papers[id])
  {
    hide Total;
    var unpaid := UnpaidWrittenIn(g.0, g.1);
    TotalBounds(papers, unpaid);
    if forall id :: id in papers && InGroup(papers[id], g) ==> !Spoils(papers[id]) {
      TotalZero(papers, unpaid);
    } else {
      var id :| id in papers && InGroup(papers[id], g) && Spoils(papers[id]);
      assert unpaid(papers[id]) > 0;
    }
  }

  lemma EmptyOrInhabited<T>(s: seq<T>)
    ensures s == [] || exists x :: x in s
  {
    if s != [] {
      assert s[0] in s;
    }
  }

  /** In every reachable state the first check finds nothing. */
  lemma NoDrift(db: Db, drift: seq<KeyId>)
    requires Inv(db) && forall k :: k in drift <==> k in db.budgets && !Balanced(db, k)
    ensures drift == []
  {
    EmptyOrInhabited(drift);
  }

  /** The accounting of a request is in order: it is running, or its record is written
      and its cost settled, or, where no settle committed, nothing was written. */
  predicate InOrder(p: Paper) {
    match p
    case Running => true
    case Written(_, _) => !Spoils(p)
    case _ => p.how.Never?
  }

  /** In every reachable state the report is all clear exactly when the accounting of
      every request is in order. */
  lemma ReportIsOkExactlyWhen(b: Books, report: Report)
    requires BooksInv(b)
    requires forall k :: k in report.drift <==> k in b.db.budgets && !Balanced(b.db, k)
    requires report.withoutRecord == |Unrecorded(b.db, Table(b.papers))|
    requires report.mismatches
          == |set g | g in Groups(Table(b.papers)) && !Agrees(b.db, Table(b.papers), g)|
    ensures Ok(report) <==> forall id :: id in b.papers ==> InOrder(b.papers[id])
  {
    hide *;
    BooksBalanced(b);
    NoDrift(b.db, report.drift);
    OkIs(report);
    if id :| id in b.papers && LeftOut(b.papers[id]) {
      UnrecordedAre(b, id);
      LeftOutIs(b.papers[id]);
      assert id in Unrecorded(b.db, Table(b.papers));
    } else {
      NothingLeftOut(b);
      var bad := set g | g in Groups(Table(b.papers)) && !Agrees(b.db, Table(b.papers), g);
      if id :| id in b.papers && Spoils(b.papers[id]) {
        var g := SpoiledGroup(b, id);
        assert g in bad;
        LeftOutIs(b.papers[id]);
      } else {
        NothingSpoiled(b);
        assert bad == {};
        forall id | id in b.papers
          ensures InOrder(b.papers[id])
        {
          LeftOutIs(b.papers[id]);
        }
      }
    }
  }

  /** Settled, and without a written record. */
  predicate LeftOut(p: Paper) {
    (p.Owed? || p.Lost? || p.NoRecord?) && !p.how.Never?
  }

  lemma LeftOutIs(p: Paper)
    ensures InOrder(p) <==> !LeftOut(p) && !Spoils(p)
    ensures LeftOut(p) <==> (p.Owed? || p.Lost? || p.NoRecord?) && !p.how.Never?
  {
  }

  lemma NothingLeftOut(b: Books)
    requires BooksInv(b) && forall id :: id in b.papers ==> !LeftOut(b.papers[id])
    ensures PaidAreWritten(b.papers) && Unrecorded(b.db, Table(b.papers)) == {}
  {
    hide BooksInv, Table, Unrecorded;
    forall id
      ensures id !in Unrecorded(b.db, Table(b.papers))
    {
      UnrecordedAre(b, id);
    }
  }

  lemma SpoiledGroup(b: Books, id: ResId) returns (g: (KeyId, Month))
    requires BooksInv(b) && PaidAreWritten(b.papers) && id in b.papers && Spoils(b.papers[id])
    ensures g in Groups(Table(b.papers)) && !Agrees(b.db, Table(b.papers), g)
  {
    hide BooksInv, PaidAreWritten, Agrees;
    var u := b.papers[id].record;
    g := (u.key, u.window);
    assert id in Table(b.papers) && Table(b.papers)[id] == u;
    CostsMatchExactly(b, g);
  }

  lemma NothingSpoiled(b: Books)
    requires BooksInv(b) && PaidAreWritten(b.papers) && forall id :: id in b.papers ==> !Spoils(b.papers[id])
    ensures forall g: (KeyId, Month) :: Agrees(b.db, Table(b.papers), g)
  {
    hide *;
    forall g: (KeyId, Month)
      ensures Agrees(b.db, Table(b.papers), g)
    {
      CostsMatchExactly(b, g);
    }
  }

  lemma BooksBalanced(b: Books)
    requires BooksInv(b)
    ensures Inv(b.db)
  {
    hide Inv, OnePaperEach, SumsAgree;
  }

  lemma OkIs(r: Report)
    ensures Ok(r) <==> r.drift == [] && r.withoutRecord == 0 && r.mismatches == 0
  {
  }


  // ----- a settle that fails -----------------------------------------------

  const ROW: KeyRow := KeyRow("hash", false, None)
  const ANSWERED: Plan := Plan(false, Answered(Priced(1.0)), Nowhere)
  const RESERVE: Event := Reserve(0, ROW, "hash", "model", 1.0, 1, 100, 7)

  function NoBooks(): Books {
    Books(Db(map[], map[], map[]), map[])
  }

  function OneKey(): Books {
    Books(Db(map[0 := ROW], map[0 := Budget(1, None, 0, 0)], map[]), map[])
  }

  function OneRequest(paper: Paper): Books {
    var r := Reservation(0, 1, Pending, 1, 0, 100, false, false);
    Books(Db(map[0 := ROW], map[0 := Budget(1, None, 0, 1)], map[7 := r]), map[7 := paper])
  }

  /** From empty books: the request is answered and priced, its settle fails, and its
      record is written all the same. Nothing is lost or owed, and the report is not
      all clear. */
  lemma FailedSettleSpoils() returns (es: seq<BookEvent>)
    ensures BooksInv(NoBooks()) && CanRun(NoBooks(), es)
    ensures
      var b := RunBooks(NoBooks(), es);
      && (forall id :: id in b.papers ==> b.papers[id].Written?)
      && exists id :: id in b.papers && !InOrder(b.papers[id])
  {
    hide *;
    var record := UsageRecord(0, 1, Some(1));
    var b0, b1, b2 := NoBooks(), OneKey(), OneRequest(Running);
    var b3, b4 := OneRequest(Owed(record, Never)), OneRequest(Written(record, Never));
    NoBooksAreKept();
    KeyIsMade();
    RequestIsAdmitted();
    RequestEnds();
    RecordIsWritten();
    NothingRuns(b4);
    Goes(b3, Write(7), []);
    Goes(b2, Finish(7, ANSWERED, At(0), NoFault), [Write(7)] + []);
    Goes(b1, Admit(RESERVE), [Finish(7, ANSWERED, At(0), NoFault)] + ([Write(7)] + []));
    es := [Administer(CreateKey(0, ROW, None, 1))]
          + ([Admit(RESERVE)] + ([Finish(7, ANSWERED, At(0), NoFault)] + ([Write(7)] + [])));
    Goes(b0, Administer(CreateKey(0, ROW, None, 1)),
      [Admit(RESERVE)] + ([Finish(7, ANSWERED, At(0), NoFault)] + ([Write(7)] + [])));
    WrittenSpoils();
  }

  lemma NoBooksAreKept()
    ensures BooksInv(NoBooks())
  {
    EmptyBooks(NoBooks());
  }

  lemma KeyIsMade()
    ensures
      var e := Administer(CreateKey(0, ROW, None, 1));
      Possible(NoBooks(), e) && After(NoBooks(), e) == OneKey()
  {
  }

  lemma RequestIsAdmitted()
    ensures Possible(OneKey(), Admit(RESERVE)) && After(OneKey(), Admit(RESERVE)) == OneRequest(Running)
  {
    assert Quantise(1.0) == 1;
    assert After(OneKey(), Admit(RESERVE)).db.log == OneRequest(Running).db.log;
    assert After(OneKey(), Admit(RESERVE)).db.budgets == OneRequest(Running).db.budgets;
  }

  lemma RequestEnds()
    ensures
      var e := Finish(7, ANSWERED, At(0), NoFault);
      && Possible(OneRequest(Running), e)
      && After(OneRequest(Running), e) == OneRequest(Owed(UsageRecord(0, 1, Some(1)), Never))
  {
    assert Quantise(1.0) == 1;
  }

  lemma RecordIsWritten()
    ensures
      var b := OneRequest(Owed(UsageRecord(0, 1, Some(1)), Never));
      Possible(b, Write(7)) && After(b, Write(7)) == OneRequest(Written(UsageRecord(0, 1, Some(1)), Never))
  {
  }

  lemma WrittenSpoils()
    ensures
      var p := Written(UsageRecord(0, 1, Some(1)), Never);
      && (forall id :: id in OneRequest(p).papers ==> OneRequest(p).papers[id].Written?)
      && 7 in OneRequest(p).papers && !InOrder(OneRequest(p).papers[7])
  {
  }

  lemma NothingRuns(b: Books)
    ensures CanRun(b, []) && RunBooks(b, []) == b
  {
  }

  lemma Goes(b: Books, e: BookEvent, es: seq<BookEvent>)
    requires Possible(b, e) && CanRun(After(b, e), es)
    ensures CanRun(b, [e] + es) && RunBooks(b, [e] + es) == RunBooks(After(b, e), es)
  {
    hide Possible, After;
    assert ([e] + es)[1..] == es;
  }
}
