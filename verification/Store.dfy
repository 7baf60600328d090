/** The shared database as a value, its queries, and each committed transaction as a function on it.
    The CHECK and UNIQUE constraints of the schema appear as failing inserts and updates. */
module Store {
  import opened Entities
  import opened Sums

  datatype Db = Db(
    payments: seq<Payment>, disbursements: seq<Disbursement>, mutations: seq<Mutation>,
    audits: seq<Audit>, outbox: seq<Event>)

  const EmptyDb := Db([], [], [], [], [])

  /** The one operation of a transaction that fails; it fails only if the transaction performs it. */
  datatype Fault = Healthy | AtRead | AtUpdate | AtAudit | AtMutation | AtOutbox | AtCommit

  predicate Survives(fault: Fault, performed: set<Fault>) {
    fault !in performed
  }

  // ---------- ledger ----------

  /** The ledger rows of one source event, oldest first. */
  function EntriesOf(ms: seq<Mutation>, id: nat, ty: ReferenceType): seq<Mutation> {
    if ms == [] then []
    else
      var m := ms[|ms| - 1];
      Grow(EntriesOf(ms[..|ms| - 1], id, ty), m.refId == id && m.refType == ty, m)
  }

  /** chk_mutation_amount, chk_mutation_fee, chk_cash_out_fee and uq_mutation_reference. */
  predicate MutationAllowed(ms: seq<Mutation>, m: Mutation) {
    && m.amount > 0 && 0 <= m.fee <= m.amount
    && (m.kind == CashOut ==> m.fee == 0)
    && EntriesOf(ms, m.refId, m.refType) == []
  }

  function BalanceWeight(m: MerchantId): Mutation -> int {
    (x: Mutation) => if x.merchant != m then 0 else if x.kind == CashIn then x.amount - x.fee else -x.amount
  }

  function CashInWeight(m: MerchantId): Mutation -> int {
    (x: Mutation) => if x.merchant == m && x.kind == CashIn then x.NetAmount() else 0
  }

  function CashOutWeight(m: MerchantId): Mutation -> int {
    (x: Mutation) => if x.merchant == m && x.kind == CashOut then -x.NetAmount() else 0
  }

  function Balance(ms: seq<Mutation>, m: MerchantId): int {
    SumBy(ms, BalanceWeight(m))
  }

  function CashInNet(ms: seq<Mutation>, m: MerchantId): int {
    SumBy(ms, CashInWeight(m))
  }

  function CashOutTotal(ms: seq<Mutation>, m: MerchantId): int {
    -SumBy(ms, CashOutWeight(m))
  }

  lemma BalanceIsInMinusOut(ms: seq<Mutation>, m: MerchantId)
    ensures Balance(ms, m) == CashInNet(ms, m) - CashOutTotal(ms, m)
  {
    SumSplit(ms, BalanceWeight(m), CashInWeight(m), CashOutWeight(m));
  }

  // ---------- disbursement queries ----------

  function PendingWeight(m: MerchantId): Disbursement -> int {
    (d: Disbursement) => if d.merchant == m && d.InFlight() then d.amount else 0
  }

  function TodayWeight(m: MerchantId, day: int): Disbursement -> int {
    (d: Disbursement) =>
      if d.merchant == m && d.status != DisbursementStatus.Failed && d.day >= day then d.amount else 0
  }

  /** SumPendingDisbursements. */
  function PendingTotal(ds: seq<Disbursement>, m: MerchantId): int {
    SumBy(ds, PendingWeight(m))
  }

  /** SumDisbursementsToday: created on this day or later, and not failed. */
  function TodayTotal(ds: seq<Disbursement>, m: MerchantId, day: int): int {
    SumBy(ds, TodayWeight(m, day))
  }

  /** uq_disbursement_external_id: unique per provider once it is set. */
  predicate ExternalIdFree(ds: seq<Disbursement>, d: nat, row: Disbursement) {
    row.externalId == "" ||
    forall k :: 0 <= k < |ds| && k != d ==> !(ds[k].provider == row.provider && ds[k].externalId == row.externalId)
  }

  // ---------- unlocked reads ----------

  datatype PaymentRead = PaymentMissing | NotCancellable | PaymentSettled | PaymentCopy(copy: Payment)
  datatype DisbursementRead = DisbursementMissing | DisbursementSettled | DisbursementCopy(row: Disbursement)

  /** The first read of CancelPayment: another merchant's payment looks missing. */
  function ReadForCancel(db: Db, merchant: MerchantId, p: nat): PaymentRead {
    if p >= |db.payments| || db.payments[p].merchant != merchant then PaymentMissing
    else if !db.payments[p].CanCancel() then NotCancellable
    else PaymentCopy(db.payments[p])
  }

  /** The first read of HandleWebhook: a settled payment ends the request without error. */
  function ReadForWebhook(db: Db, p: nat): PaymentRead {
    if p >= |db.payments| then PaymentMissing
    else if db.payments[p].IsFinal() then PaymentSettled
    else PaymentCopy(db.payments[p])
  }

  /** FindByExternalID of a callback; d is the row the lookup returns, when it returns one. */
  function ReadForCallback(db: Db, d: nat, provider: Provider, externalId: string): DisbursementRead {
    if d >= |db.disbursements| || db.disbursements[d].provider != provider
       || db.disbursements[d].externalId != externalId then DisbursementMissing
    else if db.disbursements[d].IsFinal() then DisbursementSettled
    else DisbursementCopy(db.disbursements[d])
  }

  // ---------- payment transactions ----------

  /** UpdatePaymentStatus writes these columns of the copy over the stored row. */
  function WithColumns(row: Payment, copy: Payment): Payment {
    row.(status := copy.status, paidAt := copy.paidAt, cancelledAt := copy.cancelledAt)
  }

  /** Every status write goes together with its audit row. */
  function WriteStatus(db: Db, p: nat, copy: Payment, kind: AuditKind, before: PaymentStatus): Db
    requires p < |db.payments|
  {
    db.(payments := db.payments[p := WithColumns(db.payments[p], copy)],
        audits := db.audits + [Audit(p, kind, Some(before), copy.status)])
  }

  predicate CreateCommits(amount: int, fault: Fault) {
    amount > 0 && Survives(fault, {AtUpdate, AtAudit, AtCommit})
  }

  /** savePaymentWithAudit. */
  function CreatePayment(
    db: Db, merchant: MerchantId, amount: int, expiryAt: Time, callbackUrl: string, fault: Fault): Db
  {
    if !CreateCommits(amount, fault) then db
    else
      var row := Payment(merchant, amount, expiryAt, callbackUrl, PaymentStatus.Pending, None, None);
      db.(payments := db.payments + [row],
          audits := db.audits + [Audit(|db.payments|, PaymentCreated, None, PaymentStatus.Pending)])
  }

  function Credit(p: nat, copy: Payment, fee: int): Mutation {
    Mutation(p, RefPayment, copy.merchant, CashIn, copy.amount, fee)
  }

  function Delivered(copy: Payment, event: PaymentStatus, paidAt: Option<Time>): Payment {
    copy.(status := event, paidAt := if event == Paid then paidAt else copy.paidAt)
  }

  function Notice(p: nat, copy: Payment, event: PaymentStatus, url: string, fee: int): Event {
    var charged := if event == Paid then fee else 0;
    PaymentEvent(p, copy.merchant, event, url, copy.amount, charged, copy.amount - charged)
  }

  predicate WebhookCommits(db: Db, p: nat, copy: Payment, event: PaymentStatus, url: string, fee: int, fault: Fault) {
    && p < |db.payments| && !db.payments[p].IsFinal()
    && (event == Paid ==> MutationAllowed(db.mutations, Credit(p, copy, fee)))
    && Survives(fault, {AtRead, AtUpdate, AtAudit, AtCommit}
                       + (if event == Paid then {AtMutation} else {}) + (if url != "" then {AtOutbox} else {}))
  }

  /** The transaction of HandleWebhook, given the copy read before it. */
  function Webhook(
    db: Db, p: nat, copy: Payment, event: PaymentStatus, paidAt: Option<Time>, url: string, fee: int, fault: Fault): Db
  {
    if !WebhookCommits(db, p, copy, event, url, fee, fault) then db
    else
      var written := WriteStatus(db, p, Delivered(copy, event, paidAt), WebhookReceived, db.payments[p].status);
      written.(mutations := Grow(db.mutations, event == Paid, Credit(p, copy, fee)),
               outbox := Grow(db.outbox, url != "", Notice(p, copy, event, url, fee)))
  }

  predicate StatusWriteCommits(db: Db, p: nat, fault: Fault) {
    p < |db.payments| && Survives(fault, {AtUpdate, AtAudit, AtCommit})
  }

  /** Step 1 of CancelPayment: no guard on the stored status. */
  function CancelMark(db: Db, p: nat, copy: Payment, fault: Fault): Db {
    if !StatusWriteCommits(db, p, fault) then db
    else WriteStatus(db, p, copy.(status := Cancelling), StatusChanged, copy.status)
  }

  /** Step 3 of CancelPayment, given the provider's answer. */
  function CancelFinish(db: Db, p: nat, copy: Payment, providerOk: bool, now: Time, fault: Fault): Db {
    if !StatusWriteCommits(db, p, fault) then db
    else if providerOk then
      WriteStatus(db, p, copy.(status := Cancelled, cancelledAt := Some(now)), PaymentCancelled, Cancelling)
    else
      WriteStatus(db, p, copy.(status := PaymentStatus.Pending, cancelledAt := None), StatusChanged, Cancelling)
  }

  predicate Expires(row: Payment, now: Time) {
    row.status == PaymentStatus.Pending && row.expiryAt < now
  }

  function ExpireOne(db: Db, p: nat, now: Time): Db
    requires p < |db.payments|
  {
    if !Expires(db.payments[p], now) then db
    else WriteStatus(db, p, db.payments[p].(status := Expired), PaymentExpired, PaymentStatus.Pending)
  }

  function ExpireUpTo(db: Db, n: nat, now: Time): (r: Db)
    requires n <= |db.payments|
    ensures |r.payments| == |db.payments|
    ensures r == db.(payments := r.payments, audits := r.audits)
  {
    if n == 0 then db else ExpireOne(ExpireUpTo(db, n - 1, now), n - 1, now)
  }

  /** The sweep: one statement, so all matching rows or none. */
  function ExpireSweep(db: Db, now: Time, fault: Fault): Db {
    if !Survives(fault, {AtUpdate, AtCommit}) then db else ExpireUpTo(db, |db.payments|, now)
  }

  /** The sweep turns exactly the pending rows past their expiry expired, as they were before the statement. */
  lemma {:induction false} SweepIsSetUpdate(db: Db, n: nat, now: Time)
    requires n <= |db.payments|
    ensures forall k :: 0 <= k < |db.payments| ==>
              ExpireUpTo(db, n, now).payments[k] ==
              if k < n && db.payments[k].status == PaymentStatus.Pending && db.payments[k].expiryAt < now then
                db.payments[k].(status := Expired)
              else db.payments[k]
  {
    if n > 0 {
      SweepIsSetUpdate(db, n - 1, now);
    }
  }

  // ---------- disbursement transactions ----------

  predicate ReserveCommits(
    db: Db, m: MerchantId, amount: int, fee: int, limit: int, day: int, balance: int, fault: Fault)
  {
    && balance - PendingTotal(db.disbursements, m) >= amount
    && (limit > 0 ==> TodayTotal(db.disbursements, m, day) + amount <= limit)
    && amount > 0 && 0 <= fee <= amount
    && Survives(fault, {AtRead, AtUpdate, AtCommit})
  }

  /** The rest of the reservation transaction once the balance has been read. */
  function Reserve(
    db: Db, m: MerchantId, provider: Provider, amount: int, fee: int, limit: int, day: int, balance: int,
    fault: Fault): Db
  {
    if !ReserveCommits(db, m, amount, fee, limit, day, balance, fault) then db
    else
      db.(disbursements := db.disbursements +
          [Disbursement(m, provider, amount, fee, day, "", DisbursementStatus.Pending)])
  }

  /** What the provider answers to the payout call. */
  datatype Answer = Refused | Accepted(externalId: string, status: DisbursementStatus)

  function Answered(row: Disbursement, a: Answer): Disbursement {
    match a
    case Refused => row.(externalId := "", status := DisbursementStatus.Failed)
    case Accepted(id, status) => row.(externalId := id, status := status)
  }

  predicate AnswerCommits(db: Db, d: nat, a: Answer, fault: Fault) {
    && d < |db.disbursements|
    && ExternalIdFree(db.disbursements, d, Answered(db.disbursements[d], a))
    && Survives(fault, {AtUpdate, AtCommit})
  }

  /** The single write of Disburse after the provider call. */
  function StoreAnswer(db: Db, d: nat, a: Answer, fault: Fault): Db {
    if !AnswerCommits(db, d, a, fault) then db
    else db.(disbursements := db.disbursements[d := Answered(db.disbursements[d], a)])
  }

  function Debit(d: nat, copy: Disbursement): Mutation {
    Mutation(d, RefDisbursement, copy.merchant, CashOut, copy.amount + copy.fee, 0)
  }

  function CalledBack(row: Disbursement, copy: Disbursement, event: DisbursementStatus): Disbursement {
    row.(externalId := copy.externalId, status := event)
  }

  predicate CallbackCommits(db: Db, d: nat, copy: Disbursement, event: DisbursementStatus, url: string, fault: Fault) {
    && d < |db.disbursements|
    && ExternalIdFree(db.disbursements, d, CalledBack(db.disbursements[d], copy, event))
    && (event == Completed ==> MutationAllowed(db.mutations, Debit(d, copy)))
    && Survives(fault, {AtUpdate, AtCommit}
                       + (if event == Completed then {AtMutation} else {}) + (if url != "" then {AtOutbox} else {}))
  }

  /** The transaction of HandleDisbursementCallback: no guard on the stored status. */
  function Callback(db: Db, d: nat, copy: Disbursement, event: DisbursementStatus, url: string, fault: Fault): Db {
    if !CallbackCommits(db, d, copy, event, url, fault) then db
    else
      db.(disbursements := db.disbursements[d := CalledBack(db.disbursements[d], copy, event)],
          mutations := Grow(db.mutations, event == Completed, Debit(d, copy)),
          outbox := Grow(db.outbox, url != "", DisbursementEvent(d, copy.merchant, event, url, copy.amount, copy.fee)))
  }
}
