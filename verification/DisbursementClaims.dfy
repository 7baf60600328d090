/** What holds of disbursements and of a merchant's money in every reachable world. */
module DisbursementClaims {
  import opened Entities
  import opened Sums
  import opened Store
  import opened Trail
  import opened Platform
  import opened PaymentClaims

  // ---------- debits ----------

  ghost predicate DebitState(w: World, d: nat)
    requires d < |w.db.disbursements|
  {
    var row := w.db.disbursements[d];
    && row.amount > 0 && 0 <= row.fee <= row.amount
    && (d in w.undebited ==> row.status == Completed) && (d in w.stranded ==> row.status != Completed)
    && EntriesOf(w.db.mutations, d, RefDisbursement) == if w.HasDebit(d) then [Debit(d, row)] else []
  }

  ghost predicate SetsFit(w: World) {
    && (forall d <- w.undebited :: d < |w.db.disbursements|)
    && (forall d <- w.stranded :: d < |w.db.disbursements|)
    && (forall d <- w.revived :: d < |w.db.disbursements|)
    && (forall d <- w.dayRevived :: d < |w.db.disbursements|)
  }

  ghost predicate Debits(w: World) {
    && SetsFit(w)
    && (forall d: nat :: d >= |w.db.disbursements| ==> EntriesOf(w.db.mutations, d, RefDisbursement) == [])
    && (forall d :: 0 <= d < |w.db.disbursements| ==> DebitState(w, d))
  }

  lemma WebhookDebits(w: World, i: nat, fee: int, fault: Fault)
    requires Debits(w) && i < |w.procs| && w.procs[i].WebhookHolds?
    ensures Debits(DoWebhookCommit(w, i, fee, fault))
  {
    EntryAppend(w.db.mutations, Credit(w.procs[i].p, w.procs[i].copy, fee));
    var w' := DoWebhookCommit(w, i, fee, fault);
    forall d | 0 <= d < |w.db.disbursements|
      ensures DebitState(w', d)
    {
      assert DebitState(w, d);
    }
  }

  lemma ReserveDebits(w: World, i: nat, fault: Fault)
    requires Debits(w) && i < |w.procs| && w.procs[i].Reserving?
    ensures Debits(DoReserveCommit(w, i, fault))
  {
    var w' := DoReserveCommit(w, i, fault);
    forall d | 0 <= d < |w'.db.disbursements|
      ensures DebitState(w', d)
    {
      assert d < |w.db.disbursements| ==> DebitState(w, d);
    }
  }

  /** A status write leaves the history right about row d and untouched about others. */
  lemma NotedSets(w: World, d: nat, status: DisbursementStatus, debits: bool)
    requires d < |w.db.disbursements| && DebitState(w, d) && SetsFit(w)
    ensures var w' := Noted(w, d, status, debits);
            var has := debits || w.HasDebit(d);
            && (d in w'.undebited <==> status == Completed && !has)
            && (d in w'.stranded <==> status != Completed && has)
            && SetsFit(w')
            && forall e: nat :: e != d ==>
                 && (e in w'.undebited <==> e in w.undebited) && (e in w'.stranded <==> e in w.stranded)
                 && (e in w'.revived <==> e in w.revived) && (e in w'.dayRevived <==> e in w.dayRevived)
  {
  }

  lemma AnswerDebits(w: World, i: nat, a: Answer, fault: Fault)
    requires Debits(w) && i < |w.procs| && w.procs[i].AwaitingAnswer?
    ensures Debits(DoAnswer(w, i, a, fault))
  {
    var w' := DoAnswer(w, i, a, fault);
    var d := w.procs[i].d;
    if AnswerCommits(w.db, d, a, fault) {
      assert DebitState(w, d);
      NotedSets(w, d, Answered(w.db.disbursements[d], a).status, false);
    }
    forall e | 0 <= e < |w.db.disbursements|
      ensures DebitState(w', e)
    {
      assert DebitState(w, e);
    }
  }

  /** What a committed callback does to the row it names and to its ledger entries. */
  lemma CallbackRow(db: Db, d: nat, copy: Disbursement, event: DisbursementStatus, url: string, fault: Fault)
    requires CallbackCommits(db, d, copy, event, url, fault)
    requires CalledBack(db.disbursements[d], copy, copy.status) == copy
    ensures var db', row := Callback(db, d, copy, event, url, fault), db.disbursements[d];
            var row' := CalledBack(row, copy, event);
            && db'.disbursements == db.disbursements[d := row'] && Debit(d, row') == Debit(d, row)
            && EntriesOf(db'.mutations, d, RefDisbursement)
               == Grow(EntriesOf(db.mutations, d, RefDisbursement), event == Completed, Debit(d, row))
            && (event == Completed ==> EntriesOf(db.mutations, d, RefDisbursement) == [])
  {
    EntryAppend(db.mutations, Debit(d, copy));
  }

  lemma CallbackDebitOwn(w: World, i: nat, fault: Fault)
    requires Debits(w) && i < |w.procs| && w.procs[i].CallbackHolds? && CopyFits(w.db, w.procs[i])
    ensures DebitState(DoCallbackCommit(w, i, fault), w.procs[i].d)
  {
    var pr := w.procs[i];
    assert DebitState(w, pr.d);
    if CallbackCommits(w.db, pr.d, pr.row, pr.outcome, pr.url, fault) {
      NotedSets(w, pr.d, pr.outcome, pr.outcome == Completed);
      CallbackRow(w.db, pr.d, pr.row, pr.outcome, pr.url, fault);
    }
  }

  lemma CallbackDebitOther(w: World, i: nat, fault: Fault, d: nat)
    requires Debits(w) && i < |w.procs| && w.procs[i].CallbackHolds? && d != w.procs[i].d
    requires d < |w.db.disbursements|
    ensures DebitState(DoCallbackCommit(w, i, fault), d)
  {
    var pr := w.procs[i];
    assert DebitState(w, d);
    if CallbackCommits(w.db, pr.d, pr.row, pr.outcome, pr.url, fault) {
      assert DebitState(w, pr.d);
      NotedSets(w, pr.d, pr.outcome, pr.outcome == Completed);
      EntryAppend(w.db.mutations, Debit(pr.d, pr.row));
    }
  }

  lemma CallbackSets(w: World, i: nat, fault: Fault)
    requires Debits(w) && i < |w.procs| && w.procs[i].CallbackHolds? && CopyFits(w.db, w.procs[i])
    ensures SetsFit(DoCallbackCommit(w, i, fault))
  {
    var pr := w.procs[i];
    assert DebitState(w, pr.d);
    NotedSets(w, pr.d, pr.outcome, pr.outcome == Completed);
  }

  lemma CallbackDebits(w: World, i: nat, fault: Fault)
    requires Debits(w) && i < |w.procs| && w.procs[i].CallbackHolds? && CopyFits(w.db, w.procs[i])
    ensures Debits(DoCallbackCommit(w, i, fault))
  {
    var w' := DoCallbackCommit(w, i, fault);
    CallbackSets(w, i, fault);
    forall d | 0 <= d < |w.db.disbursements|
      ensures DebitState(w', d)
    {
      if d == w.procs[i].d { CallbackDebitOwn(w, i, fault); } else { CallbackDebitOther(w, i, fault, d); }
    }
    EntryAppend(w.db.mutations, Debit(w.procs[i].d, w.procs[i].row));
  }

  /** Steps of payments and reads leave disbursements, their history and the ledger alone. */
  lemma QuietStep(w: World, a: Action)
    requires !a.WebhookCommit? && !a.ReserveCommit? && !a.ProviderAnswers? && !a.CallbackCommit?
    ensures Step(w, a).db.disbursements == w.db.disbursements && Step(w, a).db.mutations == w.db.mutations
    ensures Step(w, a).undebited == w.undebited && Step(w, a).stranded == w.stranded
    ensures Step(w, a).revived == w.revived && Step(w, a).dayRevived == w.dayRevived
    ensures Step(w, a).tallies == w.tallies
  {
  }

  lemma StepKeepsDebits(w: World, a: Action)
    requires CopiesFit(w) && Debits(w)
    ensures Debits(Step(w, a))
  {
    match a {
      case WebhookCommit(i, fee, fault) =>
        if i < |w.procs| && w.procs[i].WebhookHolds? { WebhookDebits(w, i, fee, fault); }
      case ReserveCommit(i, fault) =>
        if i < |w.procs| && w.procs[i].Reserving? { ReserveDebits(w, i, fault); }
      case ProviderAnswers(i, answer, fault) =>
        if i < |w.procs| && w.procs[i].AwaitingAnswer? { AnswerDebits(w, i, answer, fault); }
      case CallbackCommit(i, fault) =>
        if i < |w.procs| && w.procs[i].CallbackHolds? { CallbackDebits(w, i, fault); }
      case _ =>
        QuietStep(w, a);
        forall d | 0 <= d < |w.db.disbursements|
          ensures DebitState(Step(w, a), d)
        {
          assert DebitState(w, d);
        }
    }
  }

  lemma {:induction false} RunKeepsDebits(actions: seq<Action>)
    ensures Debits(Run(actions))
  {
    if actions != [] {
      var front := actions[..|actions| - 1];
      RunKeepsTables(front);
      RunKeepsDebits(front);
      StepKeepsDebits(Run(front), actions[|actions| - 1]);
    }
  }

  // ---------- a merchant's money ----------

  function CompletedWeight(m: MerchantId): Disbursement -> int {
    (d: Disbursement) => if d.merchant == m && d.status == Completed then d.amount else 0
  }

  function NonFailedWeight(m: MerchantId): Disbursement -> int {
    (d: Disbursement) => if d.merchant == m && d.status != DisbursementStatus.Failed then d.amount else 0
  }

  function CompletedGross(ds: seq<Disbursement>, m: MerchantId): int {
    SumBy(ds, CompletedWeight(m))
  }

  /** Gross of a merchant's pending, processing and completed disbursements. */
  function NonFailedGross(ds: seq<Disbursement>, m: MerchantId): int {
    SumBy(ds, NonFailedWeight(m))
  }

  /** The part of it that belongs to disbursements brought back from failed since the last accepted reservation. */
  function RevivedGross(w: World, m: MerchantId): int {
    SumAmong(w.db.disbursements, w.revived, NonFailedWeight(m))
  }

  /** What is debited is what was completed, less what was completed without a debit, plus what was debited and then
      given another status, plus fees. */
  ghost predicate DebitsAddUp(w: World, m: MerchantId) {
    CashOutTotal(w.db.mutations, m)
    == CompletedGross(w.db.disbursements, m) - GrossAmong(w.db.disbursements, w.undebited, m)
       + GrossAmong(w.db.disbursements, w.stranded, m) + w.TallyOf(m).feesTotal
  }

  /** The balance left beside the reserved gross, not counting what its tally forgives. */
  function Room(w: World, m: MerchantId): int {
    var t := w.TallyOf(m);
    Balance(w.db.mutations, m) - PendingTotal(w.db.disbursements, m) + t.feesSince + t.slip
  }

  ghost predicate Money(w: World, m: MerchantId) {
    var t := w.TallyOf(m);
    && 0 <= t.slip && 0 <= t.feesSince <= t.feesTotal && 0 <= t.reopenedSince
    && DebitsAddUp(w, m)
    && Room(w, m) >= -t.reopenedSince
    && NonFailedGross(w.db.disbursements, m) - RevivedGross(w, m) <= CashInNet(w.db.mutations, m) + t.slip + t.missed
  }

  /** A balance read by a reservation still bounds the credits, net of the debits it saw. */
  ghost predicate ReadsBounded(w: World) {
    forall i :: 0 <= i < |w.procs| && w.procs[i].Reserving? ==>
      var pr := w.procs[i];
      && pr.balance + pr.cashOutAtRead <= CashInNet(w.db.mutations, pr.m)
      && pr.cashOutAtRead <= CashOutTotal(w.db.mutations, pr.m)
  }

  /** An insert moves one merchant's sums by its own amounts. */
  lemma LedgerAppend(ms: seq<Mutation>, x: Mutation, m: MerchantId)
    ensures Balance(ms + [x], m) == Balance(ms, m)
              + if x.merchant != m then 0 else if x.kind == CashIn then x.amount - x.fee else -x.amount
    ensures CashInNet(ms + [x], m) == CashInNet(ms, m)
              + if x.merchant == m && x.kind == CashIn then x.amount - x.fee else 0
    ensures CashOutTotal(ms + [x], m) == CashOutTotal(ms, m)
              + if x.merchant == m && x.kind == CashOut then x.amount else 0
  {
    SumAppend(ms, x, BalanceWeight(m));
    SumAppend(ms, x, CashInWeight(m));
    SumAppend(ms, x, CashOutWeight(m));
  }

  function Is(b: bool, amount: int): int {
    if b then amount else 0
  }

  /** How a new status on row d moves the sums of its own merchant; those of others stay. */
  lemma RowSums(ds: seq<Disbursement>, d: nat, row: Disbursement, m: MerchantId)
    requires d < |ds| && row.merchant == ds[d].merchant && row.amount == ds[d].amount
    ensures var x := if row.merchant == m then row.amount else 0;
            && PendingTotal(ds[d := row], m) == PendingTotal(ds, m) - Is(ds[d].InFlight(), x) + Is(row.InFlight(), x)
            && CompletedGross(ds[d := row], m)
               == CompletedGross(ds, m) - Is(ds[d].status == Completed, x) + Is(row.status == Completed, x)
            && NonFailedGross(ds[d := row], m)
               == NonFailedGross(ds, m) - Is(ds[d].status != DisbursementStatus.Failed, x)
                  + Is(row.status != DisbursementStatus.Failed, x)
  {
    SumUpdate(ds, d, row, PendingWeight(m));
    SumUpdate(ds, d, row, CompletedWeight(m));
    SumUpdate(ds, d, row, NonFailedWeight(m));
  }

  /** How it moves the gross of rows among a set that d may join or leave. */
  lemma AmongSums(ds: seq<Disbursement>, d: nat, row: Disbursement, m: MerchantId, among: set<nat>, among': set<nat>)
    requires d < |ds| && row.merchant == ds[d].merchant && row.amount == ds[d].amount
    requires forall e :: e != d ==> (e in among <==> e in among')
    ensures var x := if row.merchant == m then row.amount else 0;
            GrossAmong(ds[d := row], among', m) == GrossAmong(ds, among, m) - Is(d in among, x) + Is(d in among', x)
  {
    AmongUpdate(ds, d, row, among, among', AmountWeight(m));
  }

  /** The gross of rows never brought back does not grow. */
  lemma RevivedSums(w: World, d: nat, row: Disbursement, m: MerchantId)
    requires d < |w.db.disbursements|
    requires row.merchant == w.db.disbursements[d].merchant && row.amount == w.db.disbursements[d].amount >= 0
    ensures var ds, ds' := w.db.disbursements, w.db.disbursements[d := row];
            var revived' := w.revived + if Revives(ds[d], row.status) then {d} else {};
            NonFailedGross(ds', m) - SumAmong(ds', revived', NonFailedWeight(m))
            <= NonFailedGross(ds, m) - SumAmong(ds, w.revived, NonFailedWeight(m))
  {
    var ds := w.db.disbursements;
    var revived' := w.revived + if Revives(ds[d], row.status) then {d} else {};
    RowSums(ds, d, row, m);
    AmongUpdate(ds, d, row, w.revived, revived', NonFailedWeight(m));
  }

  lemma WebhookMoney(w: World, i: nat, fee: int, fault: Fault, m: MerchantId)
    requires Money(w, m) && i < |w.procs| && w.procs[i].WebhookHolds?
    ensures Money(DoWebhookCommit(w, i, fee, fault), m)
  {
    LedgerAppend(w.db.mutations, Credit(w.procs[i].p, w.procs[i].copy, fee), m);
  }

  lemma NewRowSums(w: World, row: Disbursement, m: MerchantId)
    requires SetsFit(w) && row.AsReserved()
    ensures var ds, ds' := w.db.disbursements, w.db.disbursements + [row];
            var x := if row.merchant == m then row.amount else 0;
            && PendingTotal(ds', m) == PendingTotal(ds, m) + x && CompletedGross(ds', m) == CompletedGross(ds, m)
            && NonFailedGross(ds', m) == NonFailedGross(ds, m) + x
            && GrossAmong(ds', w.undebited, m) == GrossAmong(ds, w.undebited, m)
            && GrossAmong(ds', w.stranded, m) == GrossAmong(ds, w.stranded, m)
  {
    var ds := w.db.disbursements;
    SumAppend(ds, row, PendingWeight(m));
    SumAppend(ds, row, CompletedWeight(m));
    SumAppend(ds, row, NonFailedWeight(m));
    AmongAppend(ds, row, w.undebited, AmountWeight(m));
    AmongAppend(ds, row, w.stranded, AmountWeight(m));
  }

  lemma SplitNonFailed(ds: seq<Disbursement>, m: MerchantId)
    ensures NonFailedGross(ds, m) == PendingTotal(ds, m) + CompletedGross(ds, m)
  {
    SumSplit(ds, NonFailedWeight(m), PendingWeight(m), CompletedWeight(m));
  }

  lemma AmongPositive(w: World, m: MerchantId)
    requires Debits(w)
    ensures GrossAmong(w.db.disbursements, w.stranded, m) >= 0 && RevivedGross(w, m) >= 0
  {
    forall d | 0 <= d < |w.db.disbursements|
      ensures w.db.disbursements[d].amount > 0
    {
      assert DebitState(w, d);
    }
    AmongNonNegative(w.db.disbursements, w.stranded, AmountWeight(m));
    AmongNonNegative(w.db.disbursements, w.revived, NonFailedWeight(m));
  }

  /** A reservation of another merchant leaves a merchant's revived gross alone. */
  lemma OthersRevived(w: World, i: nat, fault: Fault, m: MerchantId)
    requires Debits(w) && i < |w.procs| && w.procs[i].Reserving? && w.procs[i].m != m
    ensures RevivedGross(DoReserveCommit(w, i, fault), m) == RevivedGross(w, m)
  {
    var pr, w' := w.procs[i], DoReserveCommit(w, i, fault);
    if ReserveCommits(w.db, pr.m, pr.amount, pr.fee, pr.limit, pr.day, pr.balance, fault) {
      var row := Disbursement(pr.m, pr.provider, pr.amount, pr.fee, pr.day, "", DisbursementStatus.Pending);
      AmongAppend(w.db.disbursements, row, w'.revived, NonFailedWeight(m));
      AmongSame(w.db.disbursements, w.revived, w'.revived, NonFailedWeight(m));
    }
  }

  /** An accepted reservation proves its bounds anew, from what its two reads saw. */
  lemma ReserveMoneyOwn(w: World, i: nat, fault: Fault)
    requires ReadsBounded(w) && Debits(w) && i < |w.procs| && w.procs[i].Reserving? && Money(w, w.procs[i].m)
    requires var pr := w.procs[i];
             ReserveCommits(w.db, pr.m, pr.amount, pr.fee, pr.limit, pr.day, pr.balance, fault)
    ensures Money(DoReserveCommit(w, i, fault), w.procs[i].m)
  {
    var pr := w.procs[i];
    var row := Disbursement(pr.m, pr.provider, pr.amount, pr.fee, pr.day, "", DisbursementStatus.Pending);
    NewRowSums(w, row, pr.m);
    SplitNonFailed(w.db.disbursements, pr.m);
    AmongPositive(w, pr.m);
    ReserveDebits(w, i, fault);
    AmongPositive(DoReserveCommit(w, i, fault), pr.m);
    BalanceIsInMinusOut(w.db.mutations, pr.m);
  }

  lemma ReserveMoney(w: World, i: nat, fault: Fault, m: MerchantId)
    requires Money(w, m) && ReadsBounded(w) && Debits(w) && i < |w.procs| && w.procs[i].Reserving?
    ensures Money(DoReserveCommit(w, i, fault), m)
  {
    var pr := w.procs[i];
    if ReserveCommits(w.db, pr.m, pr.amount, pr.fee, pr.limit, pr.day, pr.balance, fault) {
      if pr.m == m {
        ReserveMoneyOwn(w, i, fault);
      } else {
        var row := Disbursement(pr.m, pr.provider, pr.amount, pr.fee, pr.day, "", DisbursementStatus.Pending);
        NewRowSums(w, row, m);
        OthersRevived(w, i, fault, m);
      }
    }
  }

  /** The sums of a status write, and of the history kept of it. */
  lemma NotedSums(w: World, d: nat, row: Disbursement, debits: bool, m: MerchantId)
    requires d < |w.db.disbursements| && DebitState(w, d) && SetsFit(w)
    requires row.merchant == w.db.disbursements[d].merchant && row.amount == w.db.disbursements[d].amount
    requires debits ==> row.status == Completed && !w.HasDebit(d)
    ensures var ds, ds' := w.db.disbursements, w.db.disbursements[d := row];
            var w' := Noted(w, d, row.status, debits);
            var x := if row.merchant == m then row.amount else 0;
            CompletedGross(ds', m) - GrossAmong(ds', w'.undebited, m) + GrossAmong(ds', w'.stranded, m)
            == CompletedGross(ds, m) - GrossAmong(ds, w.undebited, m) + GrossAmong(ds, w.stranded, m) + Is(debits, x)
  {
    var w' := Noted(w, d, row.status, debits);
    NotedSets(w, d, row.status, debits);
    RowSums(w.db.disbursements, d, row, m);
    AmongSums(w.db.disbursements, d, row, m, w.undebited, w'.undebited);
    AmongSums(w.db.disbursements, d, row, m, w.stranded, w'.stranded);
  }

  lemma AnswerMoney(w: World, i: nat, a: Answer, fault: Fault, m: MerchantId)
    requires Money(w, m) && Debits(w) && i < |w.procs| && w.procs[i].AwaitingAnswer?
    ensures Money(DoAnswer(w, i, a, fault), m)
  {
    var d := w.procs[i].d;
    if AnswerCommits(w.db, d, a, fault) {
      var row := Answered(w.db.disbursements[d], a);
      assert DebitState(w, d);
      RowSums(w.db.disbursements, d, row, m);
      RevivedSums(w, d, row, m);
      NotedSums(w, d, row, false, m);
    }
  }

  /** A committed callback moves the ledger and the sums of its row's merchant. */
  lemma CallbackSums(w: World, i: nat, fault: Fault, m: MerchantId)
    requires Debits(w) && i < |w.procs| && w.procs[i].CallbackHolds? && CopyFits(w.db, w.procs[i])
    requires var pr := w.procs[i]; CallbackCommits(w.db, pr.d, pr.row, pr.outcome, pr.url, fault)
    ensures var pr, w' := w.procs[i], DoCallbackCommit(w, i, fault);
            var ds, ds', row := w.db.disbursements, w'.db.disbursements, w.db.disbursements[pr.d];
            var done := pr.outcome == Completed && row.merchant == m;
            && ds' == ds[pr.d := CalledBack(row, pr.row, pr.outcome)]
            && Balance(w'.db.mutations, m) == Balance(w.db.mutations, m) - Is(done, row.amount + row.fee)
            && CashInNet(w'.db.mutations, m) == CashInNet(w.db.mutations, m)
            && CashOutTotal(w'.db.mutations, m) == CashOutTotal(w.db.mutations, m) + Is(done, row.amount + row.fee)
            && w'.TallyOf(m).feesSince == w.TallyOf(m).feesSince + Is(done, row.fee)
            && w'.TallyOf(m).feesTotal == w.TallyOf(m).feesTotal + Is(done, row.fee)
            && w'.TallyOf(m).reopenedSince == w.TallyOf(m).reopenedSince
                 + Is(row.merchant == m && row.IsFinal() && pr.outcome != DisbursementStatus.Failed, row.amount)
            && w'.TallyOf(m).slip == w.TallyOf(m).slip && w'.TallyOf(m).missed == w.TallyOf(m).missed
  {
    var pr := w.procs[i];
    LedgerAppend(w.db.mutations, Debit(pr.d, pr.row), m);
  }

  lemma CallbackMoney(w: World, i: nat, fault: Fault, m: MerchantId)
    requires Money(w, m) && Debits(w) && i < |w.procs| && w.procs[i].CallbackHolds? && CopyFits(w.db, w.procs[i])
    ensures Money(DoCallbackCommit(w, i, fault), m)
  {
    var pr := w.procs[i];
    if CallbackCommits(w.db, pr.d, pr.row, pr.outcome, pr.url, fault) {
      var row := CalledBack(w.db.disbursements[pr.d], pr.row, pr.outcome);
      assert DebitState(w, pr.d);
      CallbackSums(w, i, fault, m);
      RowSums(w.db.disbursements, pr.d, row, m);
      RevivedSums(w, pr.d, row, m);
      NotedSums(w, pr.d, row, pr.outcome == Completed, m);
    }
  }

  lemma StepKeepsMoney(w: World, a: Action, m: MerchantId)
    requires CopiesFit(w) && Debits(w) && ReadsBounded(w) && Money(w, m)
    ensures Money(Step(w, a), m)
  {
    match a {
      case WebhookCommit(i, fee, fault) =>
        if i < |w.procs| && w.procs[i].WebhookHolds? { WebhookMoney(w, i, fee, fault, m); }
      case ReserveCommit(i, fault) =>
        if i < |w.procs| && w.procs[i].Reserving? { ReserveMoney(w, i, fault, m); }
      case ProviderAnswers(i, answer, fault) =>
        if i < |w.procs| && w.procs[i].AwaitingAnswer? { AnswerMoney(w, i, answer, fault, m); }
      case CallbackCommit(i, fault) =>
        if i < |w.procs| && w.procs[i].CallbackHolds? { CallbackMoney(w, i, fault, m); }
      case _ =>
        QuietStep(w, a);
    }
  }

  /** The ledger only ever adds to both sides. */
  lemma SidesGrow(w: World, a: Action, m: MerchantId)
    ensures CashInNet(w.db.mutations, m) <= CashInNet(Step(w, a).db.mutations, m)
    ensures CashOutTotal(w.db.mutations, m) <= CashOutTotal(Step(w, a).db.mutations, m)
  {
    if a.WebhookCommit? && a.i < |w.procs| && w.procs[a.i].WebhookHolds? {
      LedgerAppend(w.db.mutations, Credit(w.procs[a.i].p, w.procs[a.i].copy, a.fee), m);
    } else if a.CallbackCommit? && a.i < |w.procs| && w.procs[a.i].CallbackHolds? {
      LedgerAppend(w.db.mutations, Debit(w.procs[a.i].d, w.procs[a.i].row), m);
    }
  }

  lemma ReservingKept(w: World, a: Action, i: nat)
    requires i < |Step(w, a).procs| && Step(w, a).procs[i].Reserving?
    ensures (i < |w.procs| && Step(w, a).procs[i] == w.procs[i])
            || (a.ReserveRead? && Step(w, a).db == w.db && Step(w, a).procs[i] ==
                Reserving(a.merchant, a.provider, a.amount, a.fee, a.limit, a.day,
                          Balance(w.db.mutations, a.merchant), CashOutTotal(w.db.mutations, a.merchant)))
  {
  }

  lemma StepKeepsReads(w: World, a: Action)
    requires ReadsBounded(w)
    ensures ReadsBounded(Step(w, a))
  {
    var w' := Step(w, a);
    forall i | 0 <= i < |w'.procs| && w'.procs[i].Reserving?
      ensures w'.procs[i].balance + w'.procs[i].cashOutAtRead <= CashInNet(w'.db.mutations, w'.procs[i].m)
      ensures w'.procs[i].cashOutAtRead <= CashOutTotal(w'.db.mutations, w'.procs[i].m)
    {
      var m := w'.procs[i].m;
      ReservingKept(w, a, i);
      SidesGrow(w, a, m);
      BalanceIsInMinusOut(w.db.mutations, m);
    }
  }

  lemma {:induction false} RunKeepsReads(actions: seq<Action>)
    ensures ReadsBounded(Run(actions))
  {
    if actions != [] {
      RunKeepsReads(actions[..|actions| - 1]);
      StepKeepsReads(Run(actions[..|actions| - 1]), actions[|actions| - 1]);
    }
  }

  lemma {:induction false} RunKeepsMoney(actions: seq<Action>, m: MerchantId)
    ensures Money(Run(actions), m)
  {
    if actions != [] {
      var front, a := actions[..|actions| - 1], actions[|actions| - 1];
      RunKeepsTables(front);
      RunKeepsDebits(front);
      RunKeepsReads(front);
      RunKeepsMoney(front, m);
      StepKeepsMoney(Run(front), a, m);
    }
  }

  // ---------- the daily limit ----------

  function DayWeight(m: MerchantId, day: int): Disbursement -> int {
    (d: Disbursement) =>
      if d.merchant == m && d.status != DisbursementStatus.Failed && d.day == day then d.amount else 0
  }

  /** Gross of a merchant's non-failed disbursements created on one day. */
  function DayGross(ds: seq<Disbursement>, m: MerchantId, day: int): int {
    SumBy(ds, DayWeight(m, day))
  }

  /** The part of it that belongs to disbursements brought back from failed since the last accepted reservation
      whose limit counted the day. */
  function RevivedOnDay(w: World, m: MerchantId, day: int): int {
    SumAmong(w.db.disbursements, w.dayRevived, DayWeight(m, day))
  }

  /** Every reservation of the merchant is checked against a limit of at most `most`. */
  ghost predicate LimitedTo(actions: seq<Action>, m: MerchantId, most: int) {
    forall a <- actions :: a.ReserveRead? && a.merchant == m ==> 0 < a.limit <= most
  }

  ghost predicate DayWithin(w: World, m: MerchantId, most: int, day: int) {
    DayGross(w.db.disbursements, m, day) - RevivedOnDay(w, m, day) <= most
  }

  ghost predicate WithinLimit(w: World, m: MerchantId, most: int) {
    && (forall day :: DayWithin(w, m, most, day))
    && (forall i :: 0 <= i < |w.procs| && w.procs[i].Reserving? && w.procs[i].m == m ==> 0 < w.procs[i].limit <= most)
  }

  /** The rows a reservation counts are of its merchant, and of its day or later: others keep their day's gross. */
  lemma OtherDayWithin(w: World, i: nat, fault: Fault, m: MerchantId, most: int, day: int)
    requires DayWithin(w, m, most, day) && Debits(w) && i < |w.procs| && w.procs[i].Reserving?
    requires w.procs[i].m != m || day < w.procs[i].day
    ensures DayWithin(DoReserveCommit(w, i, fault), m, most, day)
  {
    var pr, ds, w' := w.procs[i], w.db.disbursements, DoReserveCommit(w, i, fault);
    if ReserveCommits(w.db, pr.m, pr.amount, pr.fee, pr.limit, pr.day, pr.balance, fault) {
      var row := Disbursement(pr.m, pr.provider, pr.amount, pr.fee, pr.day, "", DisbursementStatus.Pending);
      SumAppend(ds, row, DayWeight(m, day));
      AmongAppend(ds, row, w'.dayRevived, DayWeight(m, day));
      AmongSame(ds, w.dayRevived, w'.dayRevived, DayWeight(m, day));
    }
  }

  /** The day's total was read against the limit, with whatever had been brought back. */
  lemma OwnDayWithin(w: World, i: nat, fault: Fault, day: int)
    requires Debits(w) && i < |w.procs| && w.procs[i].Reserving? && 0 < w.procs[i].limit && w.procs[i].day <= day
    requires var pr := w.procs[i];
             ReserveCommits(w.db, pr.m, pr.amount, pr.fee, pr.limit, pr.day, pr.balance, fault)
    ensures DayWithin(DoReserveCommit(w, i, fault), w.procs[i].m, w.procs[i].limit, day)
  {
    var pr, w' := w.procs[i], DoReserveCommit(w, i, fault);
    var ds, ds' := w.db.disbursements, w'.db.disbursements;
    var row := Disbursement(pr.m, pr.provider, pr.amount, pr.fee, pr.day, "", DisbursementStatus.Pending);
    ReserveDebits(w, i, fault);
    forall d | 0 <= d < |ds'|
      ensures ds'[d].amount > 0
    {
      assert DebitState(w', d);
    }
    assert forall d :: 0 <= d < |ds| ==> ds[d] == ds'[d];
    SumAppend(ds, row, DayWeight(pr.m, day));
    SumLessEqual(ds, DayWeight(pr.m, day), TodayWeight(pr.m, pr.day));
    AmongNonNegative(ds', w'.dayRevived, DayWeight(pr.m, day));
  }

  lemma ReserveWithin(w: World, i: nat, fault: Fault, m: MerchantId, most: int, day: int)
    requires WithinLimit(w, m, most) && Debits(w) && i < |w.procs| && w.procs[i].Reserving?
    ensures DayWithin(DoReserveCommit(w, i, fault), m, most, day)
  {
    var pr := w.procs[i];
    assert DayWithin(w, m, most, day);
    if pr.m != m || day < pr.day {
      OtherDayWithin(w, i, fault, m, most, day);
    } else if ReserveCommits(w.db, pr.m, pr.amount, pr.fee, pr.limit, pr.day, pr.balance, fault) {
      OwnDayWithin(w, i, fault, day);
    }
  }

  lemma WriteWithin(w: World, d: nat, row: Disbursement, m: MerchantId, most: int, day: int)
    requires DayWithin(w, m, most, day) && d < |w.db.disbursements|
    requires SameTerms(row, w.db.disbursements[d])
    requires row.amount > 0
    ensures var ds' := w.db.disbursements[d := row];
            var revived' := w.dayRevived + if Revives(w.db.disbursements[d], row.status) then {d} else {};
            DayGross(ds', m, day) - SumAmong(ds', revived', DayWeight(m, day)) <= most
  {
    var revived' := w.dayRevived + if Revives(w.db.disbursements[d], row.status) then {d} else {};
    SumUpdate(w.db.disbursements, d, row, DayWeight(m, day));
    AmongUpdate(w.db.disbursements, d, row, w.dayRevived, revived', DayWeight(m, day));
  }

  lemma StepDayWithin(w: World, a: Action, m: MerchantId, most: int, day: int)
    requires CopiesFit(w) && Debits(w) && WithinLimit(w, m, most)
    ensures DayWithin(Step(w, a), m, most, day)
  {
    assert DayWithin(w, m, most, day);
    match a {
      case ReserveCommit(i, fault) =>
        if i < |w.procs| && w.procs[i].Reserving? { ReserveWithin(w, i, fault, m, most, day); }
      case ProviderAnswers(i, answer, fault) =>
        if i < |w.procs| && w.procs[i].AwaitingAnswer? && AnswerCommits(w.db, w.procs[i].d, answer, fault) {
          var d := w.procs[i].d;
          assert DebitState(w, d);
          WriteWithin(w, d, Answered(w.db.disbursements[d], answer), m, most, day);
        }
      case CallbackCommit(i, fault) =>
        if i < |w.procs| && w.procs[i].CallbackHolds? {
          var pr := w.procs[i];
          if CallbackCommits(w.db, pr.d, pr.row, pr.outcome, pr.url, fault) {
            assert DebitState(w, pr.d);
            WriteWithin(w, pr.d, CalledBack(w.db.disbursements[pr.d], pr.row, pr.outcome), m, most, day);
          }
        }
      case WebhookCommit(_, _, _) =>
      case _ => QuietStep(w, a);
    }
  }

  lemma StepWithin(w: World, a: Action, m: MerchantId, most: int)
    requires CopiesFit(w) && Debits(w) && WithinLimit(w, m, most)
    requires a.ReserveRead? && a.merchant == m ==> 0 < a.limit <= most
    ensures WithinLimit(Step(w, a), m, most)
  {
    forall day
      ensures DayWithin(Step(w, a), m, most, day)
    {
      StepDayWithin(w, a, m, most, day);
    }
    forall i | 0 <= i < |Step(w, a).procs| && Step(w, a).procs[i].Reserving? && Step(w, a).procs[i].m == m
      ensures 0 < Step(w, a).procs[i].limit <= most
    {
      ReservingKept(w, a, i);
    }
  }

  lemma {:induction false} RunKeepsLimit(actions: seq<Action>, m: MerchantId, most: int)
    requires LimitedTo(actions, m, most) && most >= 0
    ensures WithinLimit(Run(actions), m, most)
  {
    if actions != [] {
      var front, a := actions[..|actions| - 1], actions[|actions| - 1];
      RunKeepsTables(front);
      RunKeepsDebits(front);
      RunKeepsLimit(front, m, most);
      assert a in actions;
      StepWithin(Run(front), a, m, most);
    }
  }

  // ---------- hand-off between the initiating request and callbacks ----------

  ghost predicate IdsNonEmpty(actions: seq<Action>) {
    forall a <- actions :: a.CallbackRead? ==> a.externalId != ""
  }

  ghost predicate HandedOver(db: Db, pr: Proc) {
    && (pr.AwaitingAnswer? ==> pr.d < |db.disbursements| && db.disbursements[pr.d].AsReserved())
    && (pr.CallbackHolds? ==>
          pr.d < |db.disbursements| && pr.row.externalId != "" && db.disbursements[pr.d].externalId != "")
  }

  ghost predicate HandOff(w: World) {
    && (forall i :: 0 <= i < |w.procs| ==> HandedOver(w.db, w.procs[i]))
    && (forall i, j :: 0 <= i < j < |w.procs| && w.procs[i].AwaitingAnswer? && w.procs[j].AwaitingAnswer?
                       ==> w.procs[i].d != w.procs[j].d)
  }

  /** The rows a step writes are the one its own request is handing over. */
  lemma StepRow(w: World, a: Action, d: nat)
    requires d < |w.db.disbursements|
    requires !(a.ProviderAnswers? && a.i < |w.procs| && w.procs[a.i] == AwaitingAnswer(d))
    requires !(a.CallbackCommit? && a.i < |w.procs| && w.procs[a.i].CallbackHolds? && w.procs[a.i].d == d)
    ensures d < |Step(w, a).db.disbursements| && Step(w, a).db.disbursements[d] == w.db.disbursements[d]
  {
  }

  /** A request in progress is as it was, or new, or has just committed its reservation. */
  lemma StepHolds(w: World, a: Action, i: nat)
    requires i < |Step(w, a).procs|
    ensures var pr := Step(w, a).procs[i];
            || (i < |w.procs| && pr == w.procs[i])
            || (pr.CallbackHolds? && a.CallbackRead? && Step(w, a).db == w.db && pr.d < |w.db.disbursements|
                && pr.row == w.db.disbursements[pr.d] && pr.row.externalId == a.externalId)
            || (pr == AwaitingAnswer(|w.db.disbursements|) && a.ReserveCommit? && i == a.i
                && pr.d < |Step(w, a).db.disbursements| && Step(w, a).db.disbursements[pr.d].AsReserved())
            || (!pr.CallbackHolds? && !pr.AwaitingAnswer?)
  {
  }

  lemma AnsweredEnds(w: World, a: Action)
    requires a.ProviderAnswers? && a.i < |w.procs| && w.procs[a.i].AwaitingAnswer?
    ensures Step(w, a).procs == w.procs[a.i := Done]
  {
  }

  lemma CallbackKeepsId(w: World, a: Action)
    requires a.CallbackCommit? && a.i < |w.procs| && w.procs[a.i].CallbackHolds? && HandedOver(w.db, w.procs[a.i])
    ensures |Step(w, a).db.disbursements| == |w.db.disbursements|
    ensures Step(w, a).db.disbursements[w.procs[a.i].d].externalId != ""
  {
  }

  /** While a request awaits its answer, no other request holds its disbursement. */
  lemma AnswererAlone(w: World, k: nat, i: nat)
    requires HandOff(w) && k < |w.procs| && i < |w.procs| && i != k && w.procs[k].AwaitingAnswer?
    requires w.procs[i].AwaitingAnswer? || w.procs[i].CallbackHolds?
    ensures w.procs[i].d != w.procs[k].d
  {
    assert HandedOver(w.db, w.procs[k]) && HandedOver(w.db, w.procs[i]);
  }

  lemma StepHandedOver(w: World, a: Action, i: nat)
    requires HandOff(w) && (a.CallbackRead? ==> a.externalId != "") && i < |Step(w, a).procs|
    ensures HandedOver(Step(w, a).db, Step(w, a).procs[i])
  {
    StepHolds(w, a, i);
    var pr := Step(w, a).procs[i];
    if (pr.AwaitingAnswer? || pr.CallbackHolds?) && i < |w.procs| && pr == w.procs[i] {
      assert HandedOver(w.db, pr);
      if a.ProviderAnswers? && a.i < |w.procs| && w.procs[a.i].AwaitingAnswer? {
        AnsweredEnds(w, a);
        if a.i != i {
          AnswererAlone(w, a.i, i);
          StepRow(w, a, pr.d);
        }
      } else if a.CallbackCommit? && a.i < |w.procs| && w.procs[a.i].CallbackHolds? && w.procs[a.i].d == pr.d {
        assert HandedOver(w.db, w.procs[a.i]);
        CallbackKeepsId(w, a);
      } else {
        StepRow(w, a, pr.d);
      }
    }
  }

  lemma StepKeepsHandOff(w: World, a: Action)
    requires HandOff(w) && (a.CallbackRead? ==> a.externalId != "")
    ensures HandOff(Step(w, a))
  {
    var w' := Step(w, a);
    forall i | 0 <= i < |w'.procs|
      ensures HandedOver(w'.db, w'.procs[i])
    {
      StepHandedOver(w, a, i);
    }
    forall i, j | 0 <= i < j < |w'.procs| && w'.procs[i].AwaitingAnswer? && w'.procs[j].AwaitingAnswer?
      ensures w'.procs[i].d != w'.procs[j].d
    {
      StepHolds(w, a, i);
      StepHolds(w, a, j);
      assert i < |w.procs| ==> HandedOver(w.db, w.procs[i]);
      assert j < |w.procs| ==> HandedOver(w.db, w.procs[j]);
    }
  }

  lemma {:induction false} RunKeepsHandOff(actions: seq<Action>)
    requires IdsNonEmpty(actions)
    ensures HandOff(Run(actions))
  {
    if actions != [] {
      RunKeepsHandOff(actions[..|actions| - 1]);
      assert actions[|actions| - 1] in actions;
      StepKeepsHandOff(Run(actions[..|actions| - 1]), actions[|actions| - 1]);
    }
  }
}
