/** The platform as a step machine: any number of requests, callbacks and sweeps over one database,
    interleaved between their reads and transactions. A request lives in `procs`; the last six fields
    of World are history, written by steps and read only by the properties. */
module Platform {
  import opened Entities
  import opened Sums
  import opened Store
  import opened Trail

  /** What a request in progress holds between two of its database steps. */
  datatype Proc =
    | WebhookHolds(p: nat, copy: Payment, event: PaymentStatus, paidAt: Option<Time>, url: string)
    | CancelHolds(p: nat, copy: Payment)
    | CancelMarked(p: nat, copy: Payment)
    | Reserving(m: MerchantId, provider: Provider, amount: int, fee: int, limit: int, day: int,
                balance: int, cashOutAtRead: int)
    | AwaitingAnswer(d: nat)
    | CallbackHolds(d: nat, row: Disbursement, outcome: DisbursementStatus, url: string)
    | Done

  /** History of one merchant. Since its last accepted reservation: slip, the debits that committed between the
      two reads of that reservation; missed, the gross completed without a debit at that moment; feesSince, the
      fees debited; reopenedSince, the gross of settled rows that were debited or put in flight. In all:
      feesTotal, the fees debited. */
  datatype Tally = Tally(slip: int, missed: int, feesSince: int, reopenedSince: int, feesTotal: int)

  datatype World = World(
    db: Db, procs: seq<Proc>,
    log: seq<Receipt>,               // committed webhook transactions
    overlapped: set<nat>,            // payments written by someone while another request was cancelling them
    erased: set<nat>,                // payments whose paid row a cancel transaction overwrote
    undebited: set<nat>,             // disbursements completed by a write that did not debit them
    stranded: set<nat>,              // debited disbursements that a later write gave another status
    revived: set<nat>,               // disbursements whose failed row a write gave another status
                                     // since the last accepted reservation of their merchant
    dayRevived: set<nat>,            // the same since its last one checked against a limit that counts their day
    tallies: map<MerchantId, Tally>)
  {
    function TallyOf(m: MerchantId): Tally {
      if m in tallies then tallies[m] else Tally(0, 0, 0, 0, 0)
    }

    /** What the history says of the debit of a disbursement. */
    predicate HasDebit(d: nat)
      requires d < |db.disbursements|
    {
      d in stranded || (db.disbursements[d].status == Completed && d !in undebited)
    }
  }

  function AmountWeight(m: MerchantId): Disbursement -> int {
    (d: Disbursement) => if d.merchant == m then d.amount else 0
  }

  /** Gross of a merchant's disbursements among these. */
  function GrossAmong(ds: seq<Disbursement>, among: set<nat>, m: MerchantId): int {
    SumAmong(ds, among, AmountWeight(m))
  }

  const Start := World(EmptyDb, [], [], {}, {}, {}, {}, {}, {}, map[])

  datatype Action =
    | Create(merchant: MerchantId, amount: int, expiryAt: Time, callbackUrl: string, fault: Fault)
    | WebhookRead(p: nat, event: PaymentStatus, paidAt: Option<Time>, merchantUrl: string)
    | WebhookCommit(i: nat, fee: int, fault: Fault)
    | CancelRead(merchant: MerchantId, p: nat)
    | CancelTx1(i: nat, fault: Fault)
    | CancelTx3(i: nat, providerOk: bool, now: Time, fault: Fault)
    | Sweep(now: Time, fault: Fault)
    | ReserveRead(merchant: MerchantId, provider: Provider, amount: int, fee: int, limit: int, day: int)
    | ReserveCommit(i: nat, fault: Fault)
    | ProviderAnswers(i: nat, answer: Answer, fault: Fault)
    | CallbackRead(d: nat, provider: Provider, externalId: string, outcome: DisbursementStatus, url: string)
    | CallbackCommit(i: nat, fault: Fault)
    | Crash(i: nat)

  predicate CancelOf(pr: Proc, p: nat) {
    (pr.CancelHolds? || pr.CancelMarked?) && pr.p == p
  }

  /** Some request other than i is between the read and the end of a cancel of this payment. */
  predicate OtherCancel(w: World, i: nat, p: nat) {
    exists j :: 0 <= j < |w.procs| && j != i && CancelOf(w.procs[j], p)
  }

  function Spawn(w: World, pr: Proc): World {
    w.(procs := w.procs + [pr])
  }

  function DoWebhookCommit(w: World, i: nat, fee: int, fault: Fault): World
    requires i < |w.procs| && w.procs[i].WebhookHolds?
  {
    var pr := w.procs[i];
    var ended := w.(procs := w.procs[i := Done]);
    if !WebhookCommits(w.db, pr.p, pr.copy, pr.event, pr.url, fee, fault) then ended
    else
      ended.(db := Webhook(w.db, pr.p, pr.copy, pr.event, pr.paidAt, pr.url, fee, fault),
             log := w.log + [Receipt(pr.p, w.db.payments[pr.p].status, pr.copy, pr.event, pr.url, fee)],
             overlapped := w.overlapped + if OtherCancel(w, i, pr.p) then {pr.p} else {})
  }

  /** A cancel transaction: `db` is its outcome if it commits. */
  function DoCancel(w: World, i: nat, db: Db, next: Proc, fault: Fault): World
    requires i < |w.procs| && (w.procs[i].CancelHolds? || w.procs[i].CancelMarked?)
  {
    var p := w.procs[i].p;
    if !StatusWriteCommits(w.db, p, fault) then w.(procs := w.procs[i := Done])
    else
      w.(db := db, procs := w.procs[i := next],
         overlapped := w.overlapped + (if OtherCancel(w, i, p) then {p} else {}),
         erased := w.erased + (if w.db.payments[p].status == Paid then {p} else {}))
  }

  function DoSweep(w: World, now: Time, fault: Fault): World {
    if !Survives(fault, {AtUpdate, AtCommit}) then w
    else
      w.(db := ExpireSweep(w.db, now, fault),
         overlapped := w.overlapped + set p: nat | p < |w.db.payments| && Expires(w.db.payments[p], now)
                                                 && OtherCancel(w, |w.procs|, p))
  }

  /** An accepted reservation of the merchant has counted this disbursement. */
  predicate Covers(ds: seq<Disbursement>, m: MerchantId, d: nat) {
    d < |ds| && ds[d].merchant == m
  }

  /** It has counted it against its limit of the day. */
  predicate CoversDay(ds: seq<Disbursement>, m: MerchantId, limit: int, day: int, d: nat) {
    Covers(ds, m, d) && limit > 0 && ds[d].day >= day
  }

  function DoReserveCommit(w: World, i: nat, fault: Fault): World
    requires i < |w.procs| && w.procs[i].Reserving?
  {
    var pr := w.procs[i];
    if !ReserveCommits(w.db, pr.m, pr.amount, pr.fee, pr.limit, pr.day, pr.balance, fault) then
      w.(procs := w.procs[i := Done])
    else
      w.(db := Reserve(w.db, pr.m, pr.provider, pr.amount, pr.fee, pr.limit, pr.day, pr.balance, fault),
         procs := w.procs[i := AwaitingAnswer(|w.db.disbursements|)],
         revived := (set d | d in w.revived && !Covers(w.db.disbursements, pr.m, d)),
         dayRevived := (set d | d in w.dayRevived && !CoversDay(w.db.disbursements, pr.m, pr.limit, pr.day, d)),
         tallies := w.tallies[pr.m := w.TallyOf(pr.m).(
           slip := CashOutTotal(w.db.mutations, pr.m) - pr.cashOutAtRead,
           missed := GrossAmong(w.db.disbursements, w.undebited, pr.m), feesSince := 0, reopenedSince := 0)])
  }

  /** The history of a status write on row d, with a debit or without. */
  function Noted(w: World, d: nat, status: DisbursementStatus, debits: bool): World
    requires d < |w.db.disbursements|
  {
    var row := w.db.disbursements[d];
    var has := debits || w.HasDebit(d);
    var t := w.TallyOf(row.merchant);
    var reopens := row.IsFinal() && (debits || status == DisbursementStatus.Pending || status == Processing);
    var fee := if debits then row.fee else 0;
    w.(undebited := if status == Completed && !has then w.undebited + {d} else w.undebited - {d},
       stranded := if status != Completed && has then w.stranded + {d} else w.stranded - {d},
       revived := w.revived + if Revives(row, status) then {d} else {},
       dayRevived := w.dayRevived + if Revives(row, status) then {d} else {},
       tallies := w.tallies[row.merchant := t.(
         feesSince := t.feesSince + fee, feesTotal := t.feesTotal + fee,
         reopenedSince := t.reopenedSince + if reopens then row.amount else 0)])
  }

  predicate Revives(row: Disbursement, status: DisbursementStatus) {
    row.status == DisbursementStatus.Failed && status != DisbursementStatus.Failed
  }

  function DoAnswer(w: World, i: nat, a: Answer, fault: Fault): World
    requires i < |w.procs| && w.procs[i].AwaitingAnswer?
  {
    var d := w.procs[i].d;
    var procs := w.procs[i := Done];
    if !AnswerCommits(w.db, d, a, fault) then w.(procs := procs)
    else
      Noted(w, d, Answered(w.db.disbursements[d], a).status, false).(
        db := StoreAnswer(w.db, d, a, fault), procs := procs)
  }

  function DoCallbackCommit(w: World, i: nat, fault: Fault): World
    requires i < |w.procs| && w.procs[i].CallbackHolds?
  {
    var pr := w.procs[i];
    var procs := w.procs[i := Done];
    if !CallbackCommits(w.db, pr.d, pr.row, pr.outcome, pr.url, fault) then w.(procs := procs)
    else
      Noted(w, pr.d, pr.outcome, pr.outcome == Completed).(
        db := Callback(w.db, pr.d, pr.row, pr.outcome, pr.url, fault), procs := procs)
  }

  function DoCreate(w: World, m: MerchantId, amount: int, expiryAt: Time, callbackUrl: string, fault: Fault): World {
    w.(db := CreatePayment(w.db, m, amount, expiryAt, callbackUrl, fault))
  }

  function DoWebhookRead(w: World, p: nat, event: PaymentStatus, paidAt: Option<Time>, merchantUrl: string): World {
    var r := ReadForWebhook(w.db, p);
    if r.PaymentCopy? then Spawn(w, WebhookHolds(p, r.copy, event, paidAt, r.copy.CallbackUrl(merchantUrl))) else w
  }

  function DoCancelRead(w: World, m: MerchantId, p: nat): World {
    var r := ReadForCancel(w.db, m, p);
    if r.PaymentCopy? then Spawn(w, CancelHolds(p, r.copy)) else w
  }

  function DoCancelTx1(w: World, i: nat, fault: Fault): World
    requires i < |w.procs| && w.procs[i].CancelHolds?
  {
    var pr := w.procs[i];
    DoCancel(w, i, CancelMark(w.db, pr.p, pr.copy, fault), CancelMarked(pr.p, pr.copy), fault)
  }

  function DoCancelTx3(w: World, i: nat, providerOk: bool, now: Time, fault: Fault): World
    requires i < |w.procs| && w.procs[i].CancelMarked?
  {
    DoCancel(w, i, CancelFinish(w.db, w.procs[i].p, w.procs[i].copy, providerOk, now, fault), Done, fault)
  }

  /** The row lock on the merchant admits one reservation at a time. */
  function DoReserveRead(
    w: World, m: MerchantId, provider: Provider, amount: int, fee: int, limit: int, day: int): World
  {
    if exists j :: 0 <= j < |w.procs| && w.procs[j].Reserving? && w.procs[j].m == m then w
    else Spawn(w, Reserving(m, provider, amount, fee, limit, day,
                            Balance(w.db.mutations, m), CashOutTotal(w.db.mutations, m)))
  }

  function DoCallbackRead(
    w: World, d: nat, provider: Provider, externalId: string, outcome: DisbursementStatus, url: string): World
  {
    var r := ReadForCallback(w.db, d, provider, externalId);
    if r.DisbursementCopy? then Spawn(w, CallbackHolds(d, r.row, outcome, url)) else w
  }

  /** One step. An action whose request is not at that point, or whose read finds nothing to do, changes nothing. */
  function Step(w: World, a: Action): World {
    match a
    case Create(m, amount, expiryAt, callbackUrl, fault) => DoCreate(w, m, amount, expiryAt, callbackUrl, fault)
    case WebhookRead(p, event, paidAt, merchantUrl) => DoWebhookRead(w, p, event, paidAt, merchantUrl)
    case WebhookCommit(i, fee, fault) =>
      if i < |w.procs| && w.procs[i].WebhookHolds? then DoWebhookCommit(w, i, fee, fault) else w
    case CancelRead(m, p) => DoCancelRead(w, m, p)
    case CancelTx1(i, fault) =>
      if i < |w.procs| && w.procs[i].CancelHolds? then DoCancelTx1(w, i, fault) else w
    case CancelTx3(i, providerOk, now, fault) =>
      if i < |w.procs| && w.procs[i].CancelMarked? then DoCancelTx3(w, i, providerOk, now, fault) else w
    case Sweep(now, fault) => DoSweep(w, now, fault)
    case ReserveRead(m, provider, amount, fee, limit, day) => DoReserveRead(w, m, provider, amount, fee, limit, day)
    case ReserveCommit(i, fault) =>
      if i < |w.procs| && w.procs[i].Reserving? then DoReserveCommit(w, i, fault) else w
    case ProviderAnswers(i, answer, fault) =>
      if i < |w.procs| && w.procs[i].AwaitingAnswer? then DoAnswer(w, i, answer, fault) else w
    case CallbackRead(d, provider, externalId, outcome, url) => DoCallbackRead(w, d, provider, externalId, outcome, url)
    case CallbackCommit(i, fault) =>
      if i < |w.procs| && w.procs[i].CallbackHolds? then DoCallbackCommit(w, i, fault) else w
    case Crash(i) => if i < |w.procs| then w.(procs := w.procs[i := Done]) else w
  }

  /** The world after a run; every reachable world is one of these. */
  function Run(actions: seq<Action>): World {
    if actions == [] then Start else Step(Run(actions[..|actions| - 1]), actions[|actions| - 1])
  }

  lemma RunAppend(actions: seq<Action>, a: Action)
    ensures Run(actions + [a]) == Step(Run(actions), a)
  {
    assert (actions + [a])[..|actions|] == actions;
  }
}
