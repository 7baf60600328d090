/** What each write does to the rows, field by field, and exactly when it is refused: in any world, and without the
    functions that carry it out. */
module Effects {
  import opened Entities
  import opened Sums
  import opened Store
  import opened Trail
  import opened Platform

  // ---------- the sums a reservation reads, from the rows ----------

  function InFlightRows(ds: seq<Disbursement>, m: MerchantId): set<nat> {
    set k: nat | k < |ds| && ds[k].merchant == m
                 && (ds[k].status == DisbursementStatus.Pending || ds[k].status == Processing)
  }

  function CountedRows(ds: seq<Disbursement>, m: MerchantId, day: int): set<nat> {
    set k: nat | k < |ds| && ds[k].merchant == m && ds[k].day >= day && ds[k].status != DisbursementStatus.Failed
  }

  function LedgerRows(ms: seq<Mutation>, m: MerchantId, kind: MutationType): set<nat> {
    set k: nat | k < |ms| && ms[k].merchant == m && ms[k].kind == kind
  }

  function GrossOf(ds: seq<Disbursement>, rows: set<nat>): int {
    SumAmong(ds, rows, (d: Disbursement) => d.amount)
  }

  /** The two sums over disbursements and the balance, each over exactly the rows it is meant for. */
  lemma QueriesFromRows(ds: seq<Disbursement>, ms: seq<Mutation>, m: MerchantId, day: int)
    ensures PendingTotal(ds, m) == GrossOf(ds, InFlightRows(ds, m))
    ensures TodayTotal(ds, m, day) == GrossOf(ds, CountedRows(ds, m, day))
    ensures Balance(ms, m) == SumAmong(ms, LedgerRows(ms, m, CashIn), (x: Mutation) => x.amount - x.fee)
                              - SumAmong(ms, LedgerRows(ms, m, CashOut), (x: Mutation) => x.amount)
  {
    SumIsAmong(ds, PendingWeight(m), InFlightRows(ds, m), (d: Disbursement) => d.amount);
    SumIsAmong(ds, TodayWeight(m, day), CountedRows(ds, m, day), (d: Disbursement) => d.amount);
    BalanceIsInMinusOut(ms, m);
    SumIsAmong(ms, CashInWeight(m), LedgerRows(ms, m, CashIn), (x: Mutation) => x.amount - x.fee);
    SumIsAmong(ms, CashOutWeight(m), LedgerRows(ms, m, CashOut), (x: Mutation) => -x.amount);
    AmongNegated(ms, LedgerRows(ms, m, CashOut));
  }

  lemma {:induction false} AmongNegated(ms: seq<Mutation>, rows: set<nat>)
    ensures SumAmong(ms, rows, (x: Mutation) => -x.amount) == -SumAmong(ms, rows, (x: Mutation) => x.amount)
  {
    if ms != [] {
      AmongNegated(ms[..|ms| - 1], rows);
    }
  }

  // ---------- constraints, from the rows ----------

  /** No ledger row yet for this payment or disbursement. */
  predicate NoEntry(ms: seq<Mutation>, id: nat, ty: ReferenceType) {
    forall k :: 0 <= k < |ms| ==> !(ms[k].refId == id && ms[k].refType == ty)
  }

  lemma {:induction false} NoEntryIff(ms: seq<Mutation>, id: nat, ty: ReferenceType)
    ensures EntriesOf(ms, id, ty) == [] <==> NoEntry(ms, id, ty)
  {
    if ms != [] {
      var front := ms[..|ms| - 1];
      NoEntryIff(front, id, ty);
      assert forall k :: 0 <= k < |front| ==> ms[k] == front[k];
    }
  }

  /** No other row of the provider has this external id. */
  predicate IdUnused(ds: seq<Disbursement>, d: nat, provider: Provider, externalId: string) {
    forall k :: 0 <= k < |ds| && k != d && ds[k].externalId == externalId ==> ds[k].provider != provider
  }

  // ---------- payments ----------

  lemma CreateEffect(w: World, m: MerchantId, amount: int, expiryAt: Time, callbackUrl: string, fault: Fault)
    ensures var db, db' := w.db, Step(w, Create(m, amount, expiryAt, callbackUrl, fault)).db;
            var p := |db.payments|;
            if amount > 0 && fault != AtUpdate && fault != AtAudit && fault != AtCommit then
              && |db'.payments| == p + 1 && db'.payments[..p] == db.payments
              && db'.payments[p].merchant == m && db'.payments[p].amount == amount
              && db'.payments[p].expiryAt == expiryAt && db'.payments[p].callbackUrl == callbackUrl
              && db'.payments[p].status == PaymentStatus.Pending
              && db'.payments[p].paidAt == None && db'.payments[p].cancelledAt == None
              && db'.audits == db.audits + [Audit(p, PaymentCreated, None, PaymentStatus.Pending)]
              && db'.mutations == db.mutations && db'.outbox == db.outbox && db'.disbursements == db.disbursements
            else db' == db
  {
  }

  predicate SamePayment(row: Payment, other: Payment) {
    && row.merchant == other.merchant && row.amount == other.amount
    && row.expiryAt == other.expiryAt && row.callbackUrl == other.callbackUrl
  }

  predicate SameDisbursement(row: Disbursement, other: Disbursement) {
    && row.merchant == other.merchant && row.provider == other.provider
    && row.amount == other.amount && row.fee == other.fee && row.day == other.day
  }

  /** Payments are only added and keep the columns fixed at creation, through any step. */
  lemma PaymentTermsFixed(w: World, a: Action)
    ensures var ps, ps' := w.db.payments, Step(w, a).db.payments;
            |ps| <= |ps'| && forall p :: 0 <= p < |ps| ==> SamePayment(ps'[p], ps[p])
  {
    if a.Sweep? {
      SweepIsSetUpdate(w.db, |w.db.payments|, a.now);
    }
  }

  /** So do disbursements. */
  lemma DisbursementTermsFixed(w: World, a: Action)
    ensures var ds, ds' := w.db.disbursements, Step(w, a).db.disbursements;
            |ds| <= |ds'| && forall d :: 0 <= d < |ds| ==> SameDisbursement(ds'[d], ds[d])
  {
  }

  /** Only row p changes, and only in these columns. */
  ghost predicate StatusWritten(
    db: Db, db': Db, p: nat, status: PaymentStatus, paidAt: Option<Time>, cancelledAt: Option<Time>)
  {
    && p < |db.payments| && |db'.payments| == |db.payments|
    && (forall q :: 0 <= q < |db.payments| && q != p ==> db'.payments[q] == db.payments[q])
    && db'.payments[p].status == status && db'.payments[p].paidAt == paidAt
    && db'.payments[p].cancelledAt == cancelledAt && SamePayment(db'.payments[p], db.payments[p])
  }

  /** When a webhook's transaction goes through: the stored payment is pending or cancelling, a payment to be credited
      has no ledger row yet and a fee within its amount, and nothing it writes fails. */
  predicate WebhookGoesThrough(w: World, i: nat, fee: int, fault: Fault)
    requires i < |w.procs| && w.procs[i].WebhookHolds?
  {
    var pr := w.procs[i];
    && pr.p < |w.db.payments|
    && (w.db.payments[pr.p].status == PaymentStatus.Pending || w.db.payments[pr.p].status == Cancelling)
    && (pr.event == Paid ==>
          0 <= fee <= pr.copy.amount && 0 < pr.copy.amount && NoEntry(w.db.mutations, pr.p, RefPayment))
    && fault != AtRead && fault != AtUpdate && fault != AtAudit && fault != AtCommit
    && (fault == AtMutation ==> pr.event != Paid) && (fault == AtOutbox ==> pr.url == "")
  }

  lemma WebhookGoesThroughIff(w: World, i: nat, fee: int, fault: Fault)
    requires i < |w.procs| && w.procs[i].WebhookHolds?
    ensures var pr := w.procs[i];
            WebhookGoesThrough(w, i, fee, fault) <==> WebhookCommits(w.db, pr.p, pr.copy, pr.event, pr.url, fee, fault)
  {
    NoEntryIff(w.db.mutations, w.procs[i].p, RefPayment);
  }

  /** A webhook's transaction writes the reported status and, if it is paid, the reported time; an audit row from the
      stored status to the reported one; a credit of the payment's amount with the fee if it is paid; and a notice of
      amount, fee and their difference if there is a URL. Otherwise nothing. */
  lemma WebhookEffect(w: World, i: nat, fee: int, fault: Fault)
    requires i < |w.procs| && w.procs[i].WebhookHolds?
    ensures var pr, db, db' := w.procs[i], w.db, Step(w, WebhookCommit(i, fee, fault)).db;
            if WebhookGoesThrough(w, i, fee, fault) then
              && StatusWritten(db, db', pr.p, pr.event, if pr.event == Paid then pr.paidAt else pr.copy.paidAt,
                               pr.copy.cancelledAt)
              && db'.audits == db.audits + [Audit(pr.p, WebhookReceived, Some(db.payments[pr.p].status), pr.event)]
              && db'.disbursements == db.disbursements
            else db' == db
    ensures Step(w, WebhookCommit(i, fee, fault)).procs == w.procs[i := Done]
    ensures var pr, db, db' := w.procs[i], w.db, Step(w, WebhookCommit(i, fee, fault)).db;
            WebhookGoesThrough(w, i, fee, fault) ==>
              && db'.mutations
                 == (if pr.event != Paid then db.mutations
                     else db.mutations + [Mutation(pr.p, RefPayment, pr.copy.merchant, CashIn, pr.copy.amount, fee)])
              && db'.outbox
                 == (if pr.url == "" then db.outbox
                     else
                       var charged := if pr.event == Paid then fee else 0;
                       var net := pr.copy.amount - charged;
                       db.outbox
                       + [PaymentEvent(pr.p, pr.copy.merchant, pr.event, pr.url, pr.copy.amount, charged, net)])
  {
    WebhookGoesThroughIff(w, i, fee, fault);
  }

  /** The first transaction of a cancel writes the copy it read back with status cancelling, whatever is stored. */
  lemma CancelMarkEffect(w: World, i: nat, fault: Fault)
    requires i < |w.procs| && w.procs[i].CancelHolds?
    ensures var pr, w' := w.procs[i], Step(w, CancelTx1(i, fault));
            if pr.p < |w.db.payments| && fault != AtUpdate && fault != AtAudit && fault != AtCommit then
              && StatusWritten(w.db, w'.db, pr.p, Cancelling, pr.copy.paidAt, pr.copy.cancelledAt)
              && w'.db.audits == w.db.audits + [Audit(pr.p, StatusChanged, Some(pr.copy.status), Cancelling)]
              && w'.db.mutations == w.db.mutations && w'.db.outbox == w.db.outbox
              && w'.procs == w.procs[i := CancelMarked(pr.p, pr.copy)]
            else w'.db == w.db && w'.procs == w.procs[i := Done]
  {
  }

  /** The last one writes it back cancelled, with the time, if the provider confirmed, and pending if not. */
  lemma CancelFinishEffect(w: World, i: nat, providerOk: bool, now: Time, fault: Fault)
    requires i < |w.procs| && w.procs[i].CancelMarked?
    ensures var pr, w' := w.procs[i], Step(w, CancelTx3(i, providerOk, now, fault));
            w'.procs == w.procs[i := Done]
            && if pr.p < |w.db.payments| && fault != AtUpdate && fault != AtAudit && fault != AtCommit then
                 && (if providerOk then
                       && StatusWritten(w.db, w'.db, pr.p, Cancelled, pr.copy.paidAt, Some(now))
                       && w'.db.audits == w.db.audits + [Audit(pr.p, PaymentCancelled, Some(Cancelling), Cancelled)]
                     else
                       && StatusWritten(w.db, w'.db, pr.p, PaymentStatus.Pending, pr.copy.paidAt, None)
                       && w'.db.audits
                          == w.db.audits + [Audit(pr.p, StatusChanged, Some(Cancelling), PaymentStatus.Pending)])
                 && w'.db.mutations == w.db.mutations && w'.db.outbox == w.db.outbox
               else w'.db == w.db
  {
  }

  /** A sweep that succeeds leaves no payment pending past its expiry; it turns exactly those expired, with nothing
      else of them changed, and touches no other. */
  lemma SweepEffect(w: World, now: Time, fault: Fault)
    ensures var db, db' := w.db, Step(w, Sweep(now, fault)).db;
            if fault == AtUpdate || fault == AtCommit then db' == db
            else
              && |db'.payments| == |db.payments|
              && (forall p :: 0 <= p < |db.payments| ==>
                    if db.payments[p].status == PaymentStatus.Pending && db.payments[p].expiryAt < now then
                      StatusWritten(db, db.(payments := db.payments[p := db'.payments[p]]), p,
                                    Expired, db.payments[p].paidAt, db.payments[p].cancelledAt)
                    else db'.payments[p] == db.payments[p])
              && (forall p :: 0 <= p < |db'.payments| ==>
                    !(db'.payments[p].status == PaymentStatus.Pending && db'.payments[p].expiryAt < now))
              && db'.mutations == db.mutations && db'.outbox == db.outbox && db'.disbursements == db.disbursements
  {
    SweepIsSetUpdate(w.db, |w.db.payments|, now);
  }

  /** Its audit rows: one for each payment it expired, in their order, from pending to expired. */
  lemma {:induction false} SweepAudits(db: Db, n: nat, now: Time)
    requires n <= |db.payments|
    ensures ExpireUpTo(db, n, now).audits == db.audits + ExpiryRows(db.payments[..n], now)
  {
    if n > 0 {
      SweepAudits(db, n - 1, now);
      SweepIsSetUpdate(db, n - 1, now);
      assert db.payments[..n][..n - 1] == db.payments[..n - 1];
    }
  }

  function ExpiryRows(ps: seq<Payment>, now: Time): seq<Audit> {
    if ps == [] then []
    else
      var p := |ps| - 1;
      Grow(ExpiryRows(ps[..p], now), ps[p].status == PaymentStatus.Pending && ps[p].expiryAt < now,
           Audit(p, PaymentExpired, Some(PaymentStatus.Pending), Expired))
  }

  // ---------- disbursements ----------

  /** When a reservation is accepted: the balance read leaves the amount beside what is in flight, the limit, if there
      is one, leaves it for the day, amount and fee are sound, and nothing fails. */
  predicate ReservationAccepted(w: World, i: nat, fault: Fault)
    requires i < |w.procs| && w.procs[i].Reserving?
  {
    var pr, ds := w.procs[i], w.db.disbursements;
    && pr.balance - GrossOf(ds, InFlightRows(ds, pr.m)) >= pr.amount
    && (pr.limit > 0 ==> GrossOf(ds, CountedRows(ds, pr.m, pr.day)) + pr.amount <= pr.limit)
    && pr.amount > 0 && 0 <= pr.fee <= pr.amount
    && fault != AtRead && fault != AtUpdate && fault != AtCommit
  }

  lemma ReservationAcceptedIff(w: World, i: nat, fault: Fault)
    requires i < |w.procs| && w.procs[i].Reserving?
    ensures var pr := w.procs[i];
            ReservationAccepted(w, i, fault)
            <==> ReserveCommits(w.db, pr.m, pr.amount, pr.fee, pr.limit, pr.day, pr.balance, fault)
  {
    QueriesFromRows(w.db.disbursements, w.db.mutations, w.procs[i].m, w.procs[i].day);
  }

  /** An accepted reservation appends one row with the merchant, provider, amount, fee and day it was asked for, pending
      and without an id, and goes on to the provider with it; a refused one ends and leaves everything alone. */
  lemma ReserveEffect(w: World, i: nat, fault: Fault)
    requires i < |w.procs| && w.procs[i].Reserving?
    ensures var pr, w' := w.procs[i], Step(w, ReserveCommit(i, fault));
            var d := |w.db.disbursements|;
            if ReservationAccepted(w, i, fault) then
              && |w'.db.disbursements| == d + 1 && w'.db.disbursements[..d] == w.db.disbursements
              && w'.db.disbursements[d].merchant == pr.m && w'.db.disbursements[d].provider == pr.provider
              && w'.db.disbursements[d].amount == pr.amount && w'.db.disbursements[d].fee == pr.fee
              && w'.db.disbursements[d].day == pr.day && w'.db.disbursements[d].externalId == ""
              && w'.db.disbursements[d].status == DisbursementStatus.Pending
              && w'.db.payments == w.db.payments && w'.db.mutations == w.db.mutations
              && w'.db.audits == w.db.audits && w'.db.outbox == w.db.outbox
              && w'.procs == w.procs[i := AwaitingAnswer(d)]
            else w'.db == w.db && w'.procs == w.procs[i := Done]
  {
    ReservationAcceptedIff(w, i, fault);
  }

  /** Only row d changes, and only its id and status. */
  ghost predicate ReportWritten(db: Db, db': Db, d: nat, externalId: string, status: DisbursementStatus) {
    && d < |db.disbursements| && |db'.disbursements| == |db.disbursements|
    && (forall e :: 0 <= e < |db.disbursements| && e != d ==> db'.disbursements[e] == db.disbursements[e])
    && db'.disbursements[d].externalId == externalId && db'.disbursements[d].status == status
    && SameDisbursement(db'.disbursements[d], db.disbursements[d])
  }

  /** A provider error stores failed without an id; an answer stores its id and status, unless another row of the
      provider has the id. No ledger or outbox row either way. */
  lemma AnswerEffect(w: World, i: nat, answer: Answer, fault: Fault)
    requires i < |w.procs| && w.procs[i].AwaitingAnswer?
    ensures var d, db, db' := w.procs[i].d, w.db, Step(w, ProviderAnswers(i, answer, fault)).db;
            var stored := && d < |db.disbursements| && fault != AtUpdate && fault != AtCommit
                          && (answer.Accepted? && answer.externalId != "" ==>
                                IdUnused(db.disbursements, d, db.disbursements[d].provider, answer.externalId));
            if stored then
              && (match answer
                  case Refused => ReportWritten(db, db', d, "", DisbursementStatus.Failed)
                  case Accepted(id, status) => ReportWritten(db, db', d, id, status))
              && db'.payments == db.payments && db'.mutations == db.mutations
              && db'.audits == db.audits && db'.outbox == db.outbox
            else db' == db
    ensures Step(w, ProviderAnswers(i, answer, fault)).procs == w.procs[i := Done]
  {
  }

  /** When a callback's transaction goes through, whatever status is stored. */
  predicate CallbackGoesThrough(w: World, i: nat, fault: Fault)
    requires i < |w.procs| && w.procs[i].CallbackHolds?
  {
    var pr := w.procs[i];
    && pr.d < |w.db.disbursements|
    && (pr.row.externalId != "" ==>
          IdUnused(w.db.disbursements, pr.d, w.db.disbursements[pr.d].provider, pr.row.externalId))
    && (pr.outcome == Completed ==> pr.row.amount + pr.row.fee > 0 && NoEntry(w.db.mutations, pr.d, RefDisbursement))
    && fault != AtUpdate && fault != AtCommit
    && (fault == AtMutation ==> pr.outcome != Completed) && (fault == AtOutbox ==> pr.url == "")
  }

  lemma CallbackGoesThroughIff(w: World, i: nat, fault: Fault)
    requires i < |w.procs| && w.procs[i].CallbackHolds?
    ensures var pr := w.procs[i];
            CallbackGoesThrough(w, i, fault) <==> CallbackCommits(w.db, pr.d, pr.row, pr.outcome, pr.url, fault)
  {
    NoEntryIff(w.db.mutations, w.procs[i].d, RefDisbursement);
  }

  /** A callback's transaction writes the reported status, a debit of amount plus fee without a fee of its own if it is
      completed, and a notice with amount and fee if there is a URL. Otherwise nothing. */
  lemma CallbackEffect(w: World, i: nat, fault: Fault)
    requires i < |w.procs| && w.procs[i].CallbackHolds?
    ensures var pr, db, db' := w.procs[i], w.db, Step(w, CallbackCommit(i, fault)).db;
            if CallbackGoesThrough(w, i, fault) then
              && ReportWritten(db, db', pr.d, pr.row.externalId, pr.outcome) && db'.payments == db.payments
              && db'.audits == db.audits
            else db' == db
    ensures Step(w, CallbackCommit(i, fault)).procs == w.procs[i := Done]
    ensures var pr, db, db' := w.procs[i], w.db, Step(w, CallbackCommit(i, fault)).db;
            CallbackGoesThrough(w, i, fault) ==>
              && db'.mutations
                 == (if pr.outcome != Completed then db.mutations
                     else
                       var cost := pr.row.amount + pr.row.fee;
                       db.mutations + [Mutation(pr.d, RefDisbursement, pr.row.merchant, CashOut, cost, 0)])
              && db'.outbox
                 == (if pr.url == "" then db.outbox
                     else
                       db.outbox + [DisbursementEvent(pr.d, pr.row.merchant, pr.outcome, pr.url,
                                                      pr.row.amount, pr.row.fee)])
  {
    CallbackGoesThroughIff(w, i, fault);
  }
}
