/** What holds of payments, their audits, ledger entries and notices in every reachable world. */
module PaymentClaims {
  import opened Entities
  import opened Sums
  import opened Store
  import opened Trail
  import opened Platform

  // ---------- fixed columns ----------

  /** Rows are only added, and only their mutable columns change. */
  ghost predicate PaymentTermsKept(db: Db, db': Db) {
    && |db.payments| <= |db'.payments|
    && forall p :: 0 <= p < |db.payments| ==> WithColumns(db'.payments[p], db.payments[p]) == db.payments[p]
  }

  /** Only the columns a provider's report sets may differ. */
  predicate SameTerms(row: Disbursement, other: Disbursement) {
    row.(externalId := "", status := Completed) == other.(externalId := "", status := Completed)
  }

  ghost predicate DisbursementTermsKept(db: Db, db': Db) {
    && |db.disbursements| <= |db'.disbursements|
    && forall d :: 0 <= d < |db.disbursements| ==> SameTerms(db'.disbursements[d], db.disbursements[d])
  }

  ghost predicate TermsKept(db: Db, db': Db) {
    PaymentTermsKept(db, db') && DisbursementTermsKept(db, db')
  }

  /** A copy held by a request agrees with its row on the columns fixed at creation. */
  ghost predicate CopyFits(db: Db, pr: Proc) {
    match pr
    case WebhookHolds(p, copy, _, _, _) => p < |db.payments| && WithColumns(db.payments[p], copy) == copy
    case CancelHolds(p, copy) => p < |db.payments| && WithColumns(db.payments[p], copy) == copy
    case CancelMarked(p, copy) => p < |db.payments| && WithColumns(db.payments[p], copy) == copy
    case AwaitingAnswer(d) => d < |db.disbursements|
    case CallbackHolds(d, row, _, _) =>
      d < |db.disbursements| && CalledBack(db.disbursements[d], row, row.status) == row
    case _ => true
  }

  ghost predicate CopiesFit(w: World) {
    forall i :: 0 <= i < |w.procs| ==> CopyFits(w.db, w.procs[i])
  }

  lemma StepKeepsPaymentTerms(w: World, a: Action)
    ensures PaymentTermsKept(w.db, Step(w, a).db)
  {
    if a.Sweep? {
      SweepIsSetUpdate(w.db, |w.db.payments|, a.now);
    }
  }

  lemma StepKeepsDisbursementTerms(w: World, a: Action)
    ensures DisbursementTermsKept(w.db, Step(w, a).db)
  {
  }

  lemma StepKeepsTerms(w: World, a: Action)
    ensures TermsKept(w.db, Step(w, a).db)
  {
    StepKeepsPaymentTerms(w, a);
    StepKeepsDisbursementTerms(w, a);
  }

  lemma StepGrows(w: World, a: Action)
    ensures |Step(w, a).db.payments| == |w.db.payments| + if a.Create? && CreateCommits(a.amount, a.fault) then 1 else 0
    ensures w.overlapped <= Step(w, a).overlapped && w.erased <= Step(w, a).erased
  {
  }

  lemma StillFits(db: Db, db': Db, pr: Proc)
    requires CopyFits(db, pr) && TermsKept(db, db')
    ensures CopyFits(db', pr)
  {
  }

  /** A step that changes at most one request, to one whose copy fits. */
  lemma ReplacedFits(w: World, w': World, i: nat, pr: Proc)
    requires CopiesFit(w) && TermsKept(w.db, w'.db)
    requires || w'.procs == w.procs
             || (CopyFits(w'.db, pr)
                 && (w'.procs == w.procs + [pr] || (i < |w.procs| && w'.procs == w.procs[i := pr])))
    ensures CopiesFit(w')
  {
    forall k | 0 <= k < |w'.procs|
      ensures CopyFits(w'.db, w'.procs[k])
    {
      if k < |w.procs| && w'.procs[k] == w.procs[k] {
        StillFits(w.db, w'.db, w.procs[k]);
      }
    }
  }

  /** The request a read starts holds what it read. */
  lemma ReadFits(w: World, a: Action)
    requires |Step(w, a).procs| > |w.procs|
    ensures Step(w, a).procs[..|w.procs|] == w.procs && |Step(w, a).procs| == |w.procs| + 1
    ensures CopyFits(Step(w, a).db, Step(w, a).procs[|w.procs|])
  {
  }

  /** A request's own step ends it or hands it on. */
  lemma OwnStepFits(w: World, a: Action)
    requires CopiesFit(w) && |Step(w, a).procs| == |w.procs|
    ensures Step(w, a).procs == w.procs
            || ((a.WebhookCommit? || a.CancelTx1? || a.CancelTx3? || a.ReserveCommit? || a.ProviderAnswers?
                 || a.CallbackCommit? || a.Crash?)
                && a.i < |w.procs| && Step(w, a).procs == w.procs[a.i := Step(w, a).procs[a.i]]
                && CopyFits(Step(w, a).db, Step(w, a).procs[a.i]))
  {
    if (a.CancelTx1? || a.CancelTx3?) && a.i < |w.procs| {
      assert CopyFits(w.db, w.procs[a.i]);
      StepKeepsPaymentTerms(w, a);
    }
  }

  lemma ProcsOnlyGrow(w: World, a: Action)
    ensures |Step(w, a).procs| >= |w.procs|
  {
  }

  lemma StepKeepsCopies(w: World, a: Action)
    requires CopiesFit(w)
    ensures CopiesFit(Step(w, a))
  {
    var w' := Step(w, a);
    StepKeepsTerms(w, a);
    ProcsOnlyGrow(w, a);
    if |w'.procs| > |w.procs| {
      ReadFits(w, a);
      assert w'.procs == w.procs + [w'.procs[|w.procs|]];
      ReplacedFits(w, w', 0, w'.procs[|w.procs|]);
    } else {
      OwnStepFits(w, a);
      if w'.procs == w.procs {
        ReplacedFits(w, w', 0, Done);
      } else {
        ReplacedFits(w, w', a.i, w'.procs[a.i]);
      }
    }
  }

  // ---------- the four payment tables ----------

  /** Audits fold to the stored statuses, and each payment has as many credits as paid webhooks: at most one. */
  ghost predicate TrailAgrees(db: Db) {
    && Chained(db.audits)
    && (forall p: nat :: Replay(db.audits, p) == if p < |db.payments| then Some(db.payments[p].status) else None)
    && (forall p: nat :: |EntriesOf(db.mutations, p, RefPayment)| == PaidWebhooks(db.audits, p) <= 1)
    && (forall p: nat :: p >= |db.payments| ==> EntriesOf(db.mutations, p, RefPayment) == [])
  }

  /** Audits, ledger and outbox each list the committed webhooks, in order and one for one. */
  ghost predicate LogAgrees(db: Db, log: seq<Receipt>) {
    && WebhookRows(db.audits) == RowsOf(log)
    && PaymentEntries(db.mutations) == CreditsOf(log)
    && PaymentEvents(db.outbox) == NoticesOf(log)
  }

  ghost predicate TablesAgree(db: Db, log: seq<Receipt>) {
    TrailAgrees(db) && LogAgrees(db, log)
  }

  ghost predicate NetsAgree(db: Db, log: seq<Receipt>) {
    forall m: MerchantId :: CashInNet(db.mutations, m) == AnnouncedNet(db.outbox, m) + SilentNet(log, m)
  }

  lemma StatusWriteAgrees(db: Db, log: seq<Receipt>, p: nat, copy: Payment, kind: AuditKind, before: PaymentStatus)
    requires TablesAgree(db, log) && p < |db.payments|
    requires kind != WebhookReceived && (kind == PaymentExpired ==> before == db.payments[p].status)
    ensures TablesAgree(WriteStatus(db, p, copy, kind, before), log)
  {
    AuditAppend(db.audits, Audit(p, kind, Some(before), copy.status));
  }

  lemma {:induction false} SweepAgrees(db: Db, log: seq<Receipt>, n: nat, now: Time)
    requires TablesAgree(db, log) && n <= |db.payments|
    ensures TablesAgree(ExpireUpTo(db, n, now), log)
  {
    if n > 0 {
      SweepAgrees(db, log, n - 1, now);
      var prior := ExpireUpTo(db, n - 1, now);
      if Expires(prior.payments[n - 1], now) {
        var row := prior.payments[n - 1].(status := Expired);
        StatusWriteAgrees(prior, log, n - 1, row, PaymentExpired, PaymentStatus.Pending);
      }
    }
  }

  lemma WebhookTrail(
    db: Db, p: nat, copy: Payment, event: PaymentStatus, paidAt: Option<Time>, url: string, fee: int, fault: Fault)
    requires TrailAgrees(db)
    ensures TrailAgrees(Webhook(db, p, copy, event, paidAt, url, fee, fault))
  {
    if p < |db.payments| {
      AuditAppend(db.audits, Audit(p, WebhookReceived, Some(db.payments[p].status), event));
      EntryAppend(db.mutations, Credit(p, copy, fee));
    }
  }

  lemma WebhookLog(db: Db, log: seq<Receipt>, r: Receipt, paidAt: Option<Time>, fault: Fault)
    requires LogAgrees(db, log) && WebhookCommits(db, r.payment, r.copy, r.event, r.url, r.fee, fault)
    requires r.before == db.payments[r.payment].status
    ensures LogAgrees(Webhook(db, r.payment, r.copy, r.event, paidAt, r.url, r.fee, fault), log + [r])
  {
    var credit := Credit(r.payment, r.copy, r.fee);
    var notice := Notice(r.payment, r.copy, r.event, r.url, r.fee);
    AuditAppend(db.audits, AuditOf(r));
    ReceiptAppend(log, r);
    PaymentTablesAppend(db.mutations, credit, db.outbox, notice);
  }

  lemma WebhookAgrees(w: World, i: nat, fee: int, fault: Fault)
    requires TablesAgree(w.db, w.log) && i < |w.procs| && w.procs[i].WebhookHolds?
    ensures TablesAgree(DoWebhookCommit(w, i, fee, fault).db, DoWebhookCommit(w, i, fee, fault).log)
  {
    var pr := w.procs[i];
    if WebhookCommits(w.db, pr.p, pr.copy, pr.event, pr.url, fee, fault) {
      WebhookTrail(w.db, pr.p, pr.copy, pr.event, pr.paidAt, pr.url, fee, fault);
      var receipt := Receipt(pr.p, w.db.payments[pr.p].status, pr.copy, pr.event, pr.url, fee);
      WebhookLog(w.db, w.log, receipt, pr.paidAt, fault);
    }
  }

  lemma WebhookNet(db: Db, log: seq<Receipt>, r: Receipt, paidAt: Option<Time>, fault: Fault, m: MerchantId)
    requires WebhookCommits(db, r.payment, r.copy, r.event, r.url, r.fee, fault)
    requires CashInNet(db.mutations, m) == AnnouncedNet(db.outbox, m) + SilentNet(log, m)
    ensures var db' := Webhook(db, r.payment, r.copy, r.event, paidAt, r.url, r.fee, fault);
            CashInNet(db'.mutations, m) == AnnouncedNet(db'.outbox, m) + SilentNet(log + [r], m)
  {
    SumAppend(db.mutations, Credit(r.payment, r.copy, r.fee), CashInWeight(m));
    SumAppend(db.outbox, Notice(r.payment, r.copy, r.event, r.url, r.fee), PaidNoticeWeight(m));
    SumAppend(log, r, SilentWeight(m));
  }

  lemma WebhookNets(w: World, i: nat, fee: int, fault: Fault)
    requires NetsAgree(w.db, w.log) && i < |w.procs| && w.procs[i].WebhookHolds?
    ensures NetsAgree(DoWebhookCommit(w, i, fee, fault).db, DoWebhookCommit(w, i, fee, fault).log)
  {
    var pr := w.procs[i];
    if WebhookCommits(w.db, pr.p, pr.copy, pr.event, pr.url, fee, fault) {
      var r := Receipt(pr.p, w.db.payments[pr.p].status, pr.copy, pr.event, pr.url, fee);
      var db' := Webhook(w.db, pr.p, pr.copy, pr.event, pr.paidAt, pr.url, fee, fault);
      forall m: MerchantId
        ensures CashInNet(db'.mutations, m) == AnnouncedNet(db'.outbox, m) + SilentNet(w.log + [r], m)
      {
        WebhookNet(w.db, w.log, r, pr.paidAt, fault, m);
      }
    }
  }

  lemma CallbackAgrees(
    db: Db, log: seq<Receipt>, d: nat, copy: Disbursement, event: DisbursementStatus, url: string, fault: Fault)
    requires TablesAgree(db, log)
    ensures TablesAgree(Callback(db, d, copy, event, url, fault), log)
  {
    var debit := Debit(d, copy);
    EntryAppend(db.mutations, debit);
    var notice := DisbursementEvent(d, copy.merchant, event, url, copy.amount, copy.fee);
    PaymentTablesAppend(db.mutations, debit, db.outbox, notice);
  }

  lemma CallbackNets(
    db: Db, log: seq<Receipt>, d: nat, copy: Disbursement, event: DisbursementStatus, url: string, fault: Fault)
    requires NetsAgree(db, log)
    ensures NetsAgree(Callback(db, d, copy, event, url, fault), log)
  {
    var db' := Callback(db, d, copy, event, url, fault);
    forall m: MerchantId
      ensures CashInNet(db'.mutations, m) == AnnouncedNet(db'.outbox, m) + SilentNet(log, m)
    {
      SumAppend(db.mutations, Debit(d, copy), CashInWeight(m));
      SumAppend(db.outbox, DisbursementEvent(d, copy.merchant, event, url, copy.amount, copy.fee), PaidNoticeWeight(m));
    }
  }

  lemma CancelAgrees(w: World, i: nat, providerOk: bool, now: Time, fault: Fault)
    requires TablesAgree(w.db, w.log) && i < |w.procs| && (w.procs[i].CancelHolds? || w.procs[i].CancelMarked?)
    ensures TablesAgree(CancelMark(w.db, w.procs[i].p, w.procs[i].copy, fault), w.log)
    ensures TablesAgree(CancelFinish(w.db, w.procs[i].p, w.procs[i].copy, providerOk, now, fault), w.log)
  {
    var pr := w.procs[i];
    if StatusWriteCommits(w.db, pr.p, fault) {
      StatusWriteAgrees(w.db, w.log, pr.p, pr.copy.(status := Cancelling), StatusChanged, pr.copy.status);
      var cancelled := pr.copy.(status := Cancelled, cancelledAt := Some(now));
      var reverted := pr.copy.(status := PaymentStatus.Pending, cancelledAt := None);
      StatusWriteAgrees(w.db, w.log, pr.p, cancelled, PaymentCancelled, Cancelling);
      StatusWriteAgrees(w.db, w.log, pr.p, reverted, StatusChanged, Cancelling);
    }
  }

  lemma CreateAgrees(
    db: Db, log: seq<Receipt>, m: MerchantId, amount: int, expiryAt: Time, callbackUrl: string, fault: Fault)
    requires TablesAgree(db, log)
    ensures TablesAgree(CreatePayment(db, m, amount, expiryAt, callbackUrl, fault), log)
  {
    AuditAppend(db.audits, Audit(|db.payments|, PaymentCreated, None, PaymentStatus.Pending));
  }

  /** Tables the payment claims read are left alone by the other steps. */
  lemma OtherStepAgrees(w: World, a: Action)
    requires !a.Create? && !a.WebhookCommit? && !a.CancelTx1? && !a.CancelTx3? && !a.Sweep? && !a.CallbackCommit?
    ensures var db := Step(w, a).db;
            && db.payments == w.db.payments && db.mutations == w.db.mutations && db.audits == w.db.audits
            && db.outbox == w.db.outbox && Step(w, a).log == w.log
  {
  }

  lemma CancelKeepsTables(w: World, a: Action)
    requires TablesAgree(w.db, w.log) && (a.CancelTx1? || a.CancelTx3?)
    ensures TablesAgree(Step(w, a).db, Step(w, a).log)
  {
    match a {
      case CancelTx1(i, fault) =>
        if i < |w.procs| && w.procs[i].CancelHolds? {
          assert Step(w, a) == DoCancelTx1(w, i, fault);
          CancelAgrees(w, i, false, 0, fault);
        }
      case CancelTx3(i, providerOk, now, fault) =>
        if i < |w.procs| && w.procs[i].CancelMarked? {
          assert Step(w, a) == DoCancelTx3(w, i, providerOk, now, fault);
          CancelAgrees(w, i, providerOk, now, fault);
        }
    }
  }

  lemma CommitKeepsTables(w: World, a: Action)
    requires TablesAgree(w.db, w.log) && (a.WebhookCommit? || a.CallbackCommit?)
    ensures TablesAgree(Step(w, a).db, Step(w, a).log)
  {
    match a {
      case WebhookCommit(i, fee, fault) =>
        if i < |w.procs| && w.procs[i].WebhookHolds? {
          assert Step(w, a) == DoWebhookCommit(w, i, fee, fault);
          WebhookAgrees(w, i, fee, fault);
        }
      case CallbackCommit(i, fault) =>
        if i < |w.procs| && w.procs[i].CallbackHolds? {
          var pr := w.procs[i];
          assert Step(w, a) == DoCallbackCommit(w, i, fault);
          CallbackAgrees(w.db, w.log, pr.d, pr.row, pr.outcome, pr.url, fault);
        }
    }
  }

  lemma RowsKeepTables(w: World, a: Action)
    requires TablesAgree(w.db, w.log) && (a.Create? || a.Sweep?)
    ensures TablesAgree(Step(w, a).db, Step(w, a).log)
  {
    match a {
      case Create(m, amount, expiryAt, callbackUrl, fault) =>
        CreateAgrees(w.db, w.log, m, amount, expiryAt, callbackUrl, fault);
      case Sweep(now, fault) =>
        SweepAgrees(w.db, w.log, |w.db.payments|, now);
    }
  }

  lemma StepKeepsTables(w: World, a: Action)
    requires TablesAgree(w.db, w.log)
    ensures TablesAgree(Step(w, a).db, Step(w, a).log)
  {
    match a {
      case Create(_, _, _, _, _) => RowsKeepTables(w, a);
      case Sweep(_, _) => RowsKeepTables(w, a);
      case WebhookCommit(_, _, _) => CommitKeepsTables(w, a);
      case CallbackCommit(_, _) => CommitKeepsTables(w, a);
      case CancelTx1(_, _) => CancelKeepsTables(w, a);
      case CancelTx3(_, _, _, _) => CancelKeepsTables(w, a);
      case _ => OtherStepAgrees(w, a);
    }
  }

  lemma StepKeepsNets(w: World, a: Action)
    requires NetsAgree(w.db, w.log)
    ensures NetsAgree(Step(w, a).db, Step(w, a).log)
  {
    if a.WebhookCommit? {
      if a.i < |w.procs| && w.procs[a.i].WebhookHolds? { WebhookNets(w, a.i, a.fee, a.fault); }
    } else if a.CallbackCommit? {
      if a.i < |w.procs| && w.procs[a.i].CallbackHolds? {
        var pr := w.procs[a.i];
        CallbackNets(w.db, w.log, pr.d, pr.row, pr.outcome, pr.url, a.fault);
      }
    } else {
      var w' := Step(w, a);
      assert w'.db.mutations == w.db.mutations && w'.db.outbox == w.db.outbox && w'.log == w.log;
    }
  }

  lemma {:induction false} RunKeepsTables(actions: seq<Action>)
    ensures CopiesFit(Run(actions)) && TablesAgree(Run(actions).db, Run(actions).log)
    ensures NetsAgree(Run(actions).db, Run(actions).log)
  {
    if actions != [] {
      var front := actions[..|actions| - 1];
      RunKeepsTables(front);
      StepKeepsCopies(Run(front), actions[|actions| - 1]);
      StepKeepsTables(Run(front), actions[|actions| - 1]);
      StepKeepsNets(Run(front), actions[|actions| - 1]);
    }
  }

  // ---------- payments no cancel has overlapped ----------

  /** A request on this payment holds what the row still says. */
  ghost predicate HoldsCurrent(row: Payment, p: nat, pr: Proc) {
    && (pr.CancelHolds? && pr.p == p ==> pr.copy == row && row.CanCancel())
    && (pr.CancelMarked? && pr.p == p ==> row == pr.copy.(status := Cancelling) && pr.copy.CanCancel())
    && (pr.WebhookHolds? && pr.p == p ==> pr.copy.paidAt == None && pr.copy.cancelledAt == None)
  }

  ghost predicate Orderly(w: World, p: nat)
    requires p < |w.db.payments|
  {
    var row := w.db.payments[p];
    && (row.status == Paid <==> |EntriesOf(w.db.mutations, p, RefPayment)| == 1)
    && (row.paidAt.Some? ==> row.status == Paid) && (row.cancelledAt.Some? ==> row.status == Cancelled)
    && ChainedFor(w.db.audits, p)
    && (forall i :: 0 <= i < |w.procs| ==> HoldsCurrent(row, p, w.procs[i]))
  }

  lemma ExpireOneChains(db: Db, p: nat, now: Time, q: nat)
    requires TrailAgrees(db) && p < |db.payments|
    ensures ChainedFor(ExpireOne(db, p, now).audits, q) <==> ChainedFor(db.audits, q)
  {
    AuditAppend(db.audits, Audit(p, PaymentExpired, Some(PaymentStatus.Pending), Expired));
  }

  lemma {:induction false} SweepChains(db: Db, log: seq<Receipt>, n: nat, now: Time, p: nat)
    requires TablesAgree(db, log) && n <= |db.payments|
    ensures ChainedFor(ExpireUpTo(db, n, now).audits, p) <==> ChainedFor(db.audits, p)
  {
    if n > 0 {
      var prior := ExpireUpTo(db, n - 1, now);
      SweepChains(db, log, n - 1, now, p);
      assert TrailAgrees(prior) by { SweepAgrees(db, log, n - 1, now); }
      ExpireOneChains(prior, n - 1, now, p);
    }
  }

  /** A write by request i leaves the other requests current: none of them is a cancel of p. */
  lemma OthersCurrent(w: World, i: nat, p: nat, row: Payment, j: nat)
    requires p < |w.db.payments| && Orderly(w, p) && j < |w.procs| && j != i && !OtherCancel(w, i, p)
    ensures HoldsCurrent(row, p, w.procs[j])
  {
    assert HoldsCurrent(w.db.payments[p], p, w.procs[j]);
    assert !CancelOf(w.procs[j], p);
  }

  lemma WebhookKeepsCurrent(w: World, i: nat, fee: int, fault: Fault, p: nat, j: nat)
    requires i < |w.procs| && w.procs[i].WebhookHolds? && j < |w.procs|
    requires p < |w.db.payments| && Orderly(w, p) && p !in DoWebhookCommit(w, i, fee, fault).overlapped
    ensures var w' := DoWebhookCommit(w, i, fee, fault);
            p < |w'.db.payments| && |w'.procs| == |w.procs| && HoldsCurrent(w'.db.payments[p], p, w'.procs[j])
  {
    var pr, w' := w.procs[i], DoWebhookCommit(w, i, fee, fault);
    assert HoldsCurrent(w.db.payments[p], p, w.procs[j]);
    if WebhookCommits(w.db, pr.p, pr.copy, pr.event, pr.url, fee, fault) && pr.p == p && j != i {
      OthersCurrent(w, i, p, w'.db.payments[p], j);
    }
  }

  lemma WebhookOrderly(w: World, i: nat, fee: int, fault: Fault, p: nat)
    requires CopiesFit(w) && TablesAgree(w.db, w.log) && i < |w.procs| && w.procs[i].WebhookHolds?
    requires p < |w.db.payments| && Orderly(w, p) && p !in DoWebhookCommit(w, i, fee, fault).overlapped
    ensures Orderly(DoWebhookCommit(w, i, fee, fault), p)
  {
    var pr, w' := w.procs[i], DoWebhookCommit(w, i, fee, fault);
    assert HoldsCurrent(w.db.payments[p], p, pr);
    if WebhookCommits(w.db, pr.p, pr.copy, pr.event, pr.url, fee, fault) {
      AuditAppend(w.db.audits, Audit(pr.p, WebhookReceived, Some(w.db.payments[pr.p].status), pr.event));
      EntryAppend(w.db.mutations, Credit(pr.p, pr.copy, fee));
    }
    forall j | 0 <= j < |w'.procs|
      ensures HoldsCurrent(w'.db.payments[p], p, w'.procs[j])
    {
      WebhookKeepsCurrent(w, i, fee, fault, p, j);
    }
  }

  lemma CancelOrderly(
    w: World, i: nat, row: Payment, kind: AuditKind, before: PaymentStatus, next: Proc, fault: Fault, p: nat)
    requires TablesAgree(w.db, w.log) && i < |w.procs| && (w.procs[i].CancelHolds? || w.procs[i].CancelMarked?)
    requires w.procs[i].p < |w.db.payments|
    requires p < |w.db.payments| && Orderly(w, p)
    requires p == w.procs[i].p ==>
               && before == w.db.payments[p].status != Paid && row.status != Paid && row.paidAt == None
               && (row.cancelledAt.Some? ==> row.status == Cancelled)
               && HoldsCurrent(WithColumns(w.db.payments[p], row), p, next)
    requires p != w.procs[i].p ==> !CancelOf(next, p) && !next.WebhookHolds?
    requires p !in DoCancel(w, i, WriteStatus(w.db, w.procs[i].p, row, kind, before), next, fault).overlapped
    ensures Orderly(DoCancel(w, i, WriteStatus(w.db, w.procs[i].p, row, kind, before), next, fault), p)
  {
    var q := w.procs[i].p;
    var w' := DoCancel(w, i, WriteStatus(w.db, q, row, kind, before), next, fault);
    AuditAppend(w.db.audits, Audit(q, kind, Some(before), row.status));
    forall j | 0 <= j < |w'.procs|
      ensures HoldsCurrent(w'.db.payments[p], p, w'.procs[j])
    {
      if j != i {
        if StatusWriteCommits(w.db, q, fault) && q == p {
          OthersCurrent(w, i, p, w'.db.payments[p], j);
        } else {
          assert HoldsCurrent(w.db.payments[p], p, w.procs[j]);
        }
      }
    }
  }

  lemma CancelTx1Orderly(w: World, i: nat, fault: Fault, p: nat)
    requires CopiesFit(w) && TablesAgree(w.db, w.log) && i < |w.procs| && w.procs[i].CancelHolds?
    requires p < |w.db.payments| && Orderly(w, p) && p !in Step(w, CancelTx1(i, fault)).overlapped
    ensures Orderly(Step(w, CancelTx1(i, fault)), p)
  {
    var pr := w.procs[i];
    assert CopyFits(w.db, pr) && HoldsCurrent(w.db.payments[p], p, pr);
    var marking := pr.copy.(status := Cancelling);
    CancelOrderly(w, i, marking, StatusChanged, pr.copy.status, CancelMarked(pr.p, pr.copy), fault, p);
  }

  lemma CancelTx3Orderly(w: World, i: nat, providerOk: bool, now: Time, fault: Fault, p: nat)
    requires CopiesFit(w) && TablesAgree(w.db, w.log) && i < |w.procs| && w.procs[i].CancelMarked?
    requires p < |w.db.payments| && Orderly(w, p) && p !in Step(w, CancelTx3(i, providerOk, now, fault)).overlapped
    ensures Orderly(Step(w, CancelTx3(i, providerOk, now, fault)), p)
  {
    var pr := w.procs[i];
    assert CopyFits(w.db, pr) && HoldsCurrent(w.db.payments[p], p, pr);
    if providerOk {
      var cancelled := pr.copy.(status := Cancelled, cancelledAt := Some(now));
      CancelOrderly(w, i, cancelled, PaymentCancelled, Cancelling, Done, fault, p);
    } else {
      var reverted := pr.copy.(status := PaymentStatus.Pending, cancelledAt := None);
      CancelOrderly(w, i, reverted, StatusChanged, Cancelling, Done, fault, p);
    }
  }

  lemma SweepOrderly(w: World, now: Time, fault: Fault, p: nat)
    requires TablesAgree(w.db, w.log) && p < |w.db.payments| && Orderly(w, p) && p !in DoSweep(w, now, fault).overlapped
    ensures p < |DoSweep(w, now, fault).db.payments| && Orderly(DoSweep(w, now, fault), p)
  {
    var w' := DoSweep(w, now, fault);
    SweepChains(w.db, w.log, |w.db.payments|, now, p);
    SweepIsSetUpdate(w.db, |w.db.payments|, now);
    forall j | 0 <= j < |w'.procs|
      ensures HoldsCurrent(w'.db.payments[p], p, w'.procs[j])
    {
      assert HoldsCurrent(w.db.payments[p], p, w.procs[j]);
      if w'.db.payments[p] != w.db.payments[p] {
        OthersCurrent(w, |w.procs|, p, w'.db.payments[p], j);
      }
    }
  }

  lemma CancelStepOrderly(w: World, a: Action, p: nat)
    requires CopiesFit(w) && TablesAgree(w.db, w.log) && (a.CancelTx1? || a.CancelTx3?)
    requires p < |w.db.payments| && Orderly(w, p) && p !in Step(w, a).overlapped
    ensures p < |Step(w, a).db.payments| && Orderly(Step(w, a), p)
  {
    match a {
      case CancelTx1(i, fault) =>
        if i < |w.procs| && w.procs[i].CancelHolds? { CancelTx1Orderly(w, i, fault, p); }
      case CancelTx3(i, providerOk, now, fault) =>
        if i < |w.procs| && w.procs[i].CancelMarked? { CancelTx3Orderly(w, i, providerOk, now, fault, p); }
    }
  }

  lemma WebhookStepOrderly(w: World, a: Action, p: nat)
    requires CopiesFit(w) && TablesAgree(w.db, w.log) && a.WebhookCommit?
    requires p < |w.db.payments| && Orderly(w, p) && p !in Step(w, a).overlapped
    ensures p < |Step(w, a).db.payments| && Orderly(Step(w, a), p)
  {
    if a.i < |w.procs| && w.procs[a.i].WebhookHolds? { WebhookOrderly(w, a.i, a.fee, a.fault, p); }
  }

  lemma StepKeepsOrderly(w: World, a: Action, p: nat)
    requires CopiesFit(w) && TablesAgree(w.db, w.log)
    requires p < |w.db.payments| && Orderly(w, p) && p !in Step(w, a).overlapped
    ensures p < |Step(w, a).db.payments| && Orderly(Step(w, a), p)
  {
    match a {
      case WebhookCommit(_, _, _) => WebhookStepOrderly(w, a, p);
      case CancelTx1(_, _) => CancelStepOrderly(w, a, p);
      case CancelTx3(_, _, _, _) => CancelStepOrderly(w, a, p);
      case Sweep(now, fault) => SweepOrderly(w, now, fault, p);
      case _ => OtherStepOrderly(w, a, p);
    }
  }

  lemma OtherStepTables(w: World, a: Action, p: nat)
    requires !a.WebhookCommit? && !a.CancelTx1? && !a.CancelTx3? && !a.Sweep?
    requires p < |w.db.payments|
    ensures p < |Step(w, a).db.payments| && Step(w, a).db.payments[p] == w.db.payments[p]
    ensures EntriesOf(Step(w, a).db.mutations, p, RefPayment) == EntriesOf(w.db.mutations, p, RefPayment)
    ensures ChainedFor(Step(w, a).db.audits, p) <==> ChainedFor(w.db.audits, p)
  {
    if a.Create? {
      AuditAppend(w.db.audits, Audit(|w.db.payments|, PaymentCreated, None, PaymentStatus.Pending));
    } else if a.CallbackCommit? && a.i < |w.procs| && w.procs[a.i].CallbackHolds? {
      EntryAppend(w.db.mutations, Debit(w.procs[a.i].d, w.procs[a.i].row));
    }
  }

  lemma OtherStepProc(w: World, a: Action, p: nat, j: nat)
    requires !a.WebhookCommit? && !a.CancelTx1? && !a.CancelTx3? && !a.Sweep?
    requires p < |w.db.payments| && Orderly(w, p) && j < |Step(w, a).procs|
    ensures HoldsCurrent(w.db.payments[p], p, Step(w, a).procs[j])
  {
    if j < |w.procs| {
      assert HoldsCurrent(w.db.payments[p], p, w.procs[j]);
    }
  }

  /** The remaining steps write neither this row nor its ledger entry, and start requests from the current row. */
  lemma OtherStepOrderly(w: World, a: Action, p: nat)
    requires !a.WebhookCommit? && !a.CancelTx1? && !a.CancelTx3? && !a.Sweep?
    requires p < |w.db.payments| && Orderly(w, p)
    ensures p < |Step(w, a).db.payments| && Orderly(Step(w, a), p)
  {
    OtherStepTables(w, a, p);
    forall j | 0 <= j < |Step(w, a).procs|
      ensures HoldsCurrent(w.db.payments[p], p, Step(w, a).procs[j])
    {
      OtherStepProc(w, a, p, j);
    }
  }

  lemma CreatedOrderly(w: World, m: MerchantId, amount: int, expiryAt: Time, callbackUrl: string, fault: Fault)
    requires CopiesFit(w) && TablesAgree(w.db, w.log) && CreateCommits(amount, fault)
    ensures Orderly(w.(db := CreatePayment(w.db, m, amount, expiryAt, callbackUrl, fault)), |w.db.payments|)
  {
    var p := |w.db.payments|;
    AuditAppend(w.db.audits, Audit(p, PaymentCreated, None, PaymentStatus.Pending));
    Unheard(w.db.audits, p);
    forall j | 0 <= j < |w.procs|
      ensures !CancelOf(w.procs[j], p) && !(w.procs[j].WebhookHolds? && w.procs[j].p == p)
    {
      assert CopyFits(w.db, w.procs[j]);
    }
  }

  lemma {:induction false} Unheard(audits: seq<Audit>, p: nat)
    requires Replay(audits, p) == None
    ensures ChainedFor(audits, p)
  {
    if audits != [] {
      Unheard(audits[..|audits| - 1], p);
    }
  }

  ghost predicate AllOrderly(w: World) {
    forall p :: 0 <= p < |w.db.payments| && p !in w.overlapped ==> Orderly(w, p)
  }

  lemma StepKeepsAllOrderly(w: World, a: Action)
    requires CopiesFit(w) && TablesAgree(w.db, w.log) && AllOrderly(w)
    ensures AllOrderly(Step(w, a))
  {
    StepGrows(w, a);
    forall p | 0 <= p < |Step(w, a).db.payments| && p !in Step(w, a).overlapped
      ensures Orderly(Step(w, a), p)
    {
      if p < |w.db.payments| {
        StepKeepsOrderly(w, a, p);
      } else {
        CreatedOrderly(w, a.merchant, a.amount, a.expiryAt, a.callbackUrl, a.fault);
      }
    }
  }

  lemma {:induction false} RunKeepsOrderly(actions: seq<Action>)
    ensures AllOrderly(Run(actions))
  {
    if actions != [] {
      var front := actions[..|actions| - 1];
      RunKeepsTables(front);
      RunKeepsOrderly(front);
      StepKeepsAllOrderly(Run(front), actions[|actions| - 1]);
    }
  }

  // ---------- credits and paid rows, in every run ----------

  /** A credited payment is paid unless a cancel overwrote its paid row, and then it never is again. */
  ghost predicate CreditTells(w: World, p: nat)
    requires p < |w.db.payments|
  {
    && (|EntriesOf(w.db.mutations, p, RefPayment)| == 1 <==> w.db.payments[p].status == Paid || p in w.erased)
    && (p in w.erased ==> w.db.payments[p].status != Paid)
    && w.db.payments[p].amount > 0
    && (forall e <- EntriesOf(w.db.mutations, p, RefPayment) ::
          e == Credit(p, w.db.payments[p], e.fee) && 0 <= e.fee <= e.amount)
  }

  ghost predicate CreditsTell(w: World) {
    && (forall p <- w.erased :: p < |w.db.payments|)
    && (forall p :: 0 <= p < |w.db.payments| ==> CreditTells(w, p))
  }

  /** What a committed webhook does to its own payment. */
  lemma WebhookRow(
    db: Db, p: nat, copy: Payment, event: PaymentStatus, paidAt: Option<Time>, url: string, fee: int, fault: Fault)
    requires WebhookCommits(db, p, copy, event, url, fee, fault) && WithColumns(db.payments[p], copy) == copy
    ensures var db' := Webhook(db, p, copy, event, paidAt, url, fee, fault);
            && |db'.payments| == |db.payments| && db'.payments[p].status == event
            && db'.payments[p].amount == db.payments[p].amount && db'.payments[p].merchant == db.payments[p].merchant
            && EntriesOf(db'.mutations, p, RefPayment)
               == Grow(EntriesOf(db.mutations, p, RefPayment), event == Paid, Credit(p, copy, fee))
            && Credit(p, db'.payments[p], fee) == Credit(p, copy, fee)
  {
    EntryAppend(db.mutations, Credit(p, copy, fee));
  }

  lemma WebhookCreditOwn(w: World, i: nat, fee: int, fault: Fault)
    requires i < |w.procs| && w.procs[i].WebhookHolds? && CopyFits(w.db, w.procs[i])
    requires CreditTells(w, w.procs[i].p)
    requires var pr := w.procs[i]; WebhookCommits(w.db, pr.p, pr.copy, pr.event, pr.url, fee, fault)
    ensures CreditTells(DoWebhookCommit(w, i, fee, fault), w.procs[i].p)
  {
    var pr := w.procs[i];
    WebhookRow(w.db, pr.p, pr.copy, pr.event, pr.paidAt, pr.url, fee, fault);
    if pr.event == Paid {
      assert EntriesOf(w.db.mutations, pr.p, RefPayment) == [];
    }
  }

  lemma WebhookCreditOther(w: World, i: nat, fee: int, fault: Fault, p: nat)
    requires p < |w.db.payments| && CreditTells(w, p) && i < |w.procs| && w.procs[i].WebhookHolds? && w.procs[i].p != p
    ensures CreditTells(DoWebhookCommit(w, i, fee, fault), p)
  {
    EntryAppend(w.db.mutations, Credit(w.procs[i].p, w.procs[i].copy, fee));
    assert DoWebhookCommit(w, i, fee, fault).db.payments[p] == w.db.payments[p];
  }

  lemma WebhookCredit(w: World, i: nat, fee: int, fault: Fault, p: nat)
    requires TrailAgrees(w.db) && p < |w.db.payments| && CreditTells(w, p) && i < |w.procs| && w.procs[i].WebhookHolds?
    requires CopyFits(w.db, w.procs[i])
    ensures CreditTells(DoWebhookCommit(w, i, fee, fault), p)
  {
    var pr := w.procs[i];
    if pr.p != p {
      WebhookCreditOther(w, i, fee, fault, p);
    } else if WebhookCommits(w.db, pr.p, pr.copy, pr.event, pr.url, fee, fault) {
      WebhookCreditOwn(w, i, fee, fault);
    }
  }

  lemma CancelCredit(
    w: World, i: nat, row: Payment, kind: AuditKind, before: PaymentStatus, next: Proc, fault: Fault, p: nat)
    requires p < |w.db.payments| && CreditTells(w, p)
    requires i < |w.procs| && (w.procs[i].CancelHolds? || w.procs[i].CancelMarked?)
    requires w.procs[i].p < |w.db.payments| && row.status != Paid
    ensures CreditTells(DoCancel(w, i, WriteStatus(w.db, w.procs[i].p, row, kind, before), next, fault), p)
  {
  }

  lemma SweepCredit(w: World, now: Time, fault: Fault, p: nat)
    requires p < |w.db.payments| && CreditTells(w, p)
    ensures CreditTells(DoSweep(w, now, fault), p)
  {
    SweepIsSetUpdate(w.db, |w.db.payments|, now);
  }

  lemma CancelStepCredit(w: World, a: Action, p: nat)
    requires CopiesFit(w) && p < |w.db.payments| && CreditTells(w, p) && (a.CancelTx1? || a.CancelTx3?)
    ensures p < |Step(w, a).db.payments| && CreditTells(Step(w, a), p)
  {
    if a.i < |w.procs| && (w.procs[a.i].CancelHolds? || w.procs[a.i].CancelMarked?) {
      var pr := w.procs[a.i];
      var marking := pr.copy.(status := Cancelling);
      var reverted := pr.copy.(status := PaymentStatus.Pending, cancelledAt := None);
      assert CopyFits(w.db, pr);
      CancelCredit(w, a.i, marking, StatusChanged, pr.copy.status, CancelMarked(pr.p, pr.copy), a.fault, p);
      CancelCredit(w, a.i, reverted, StatusChanged, Cancelling, Done, a.fault, p);
      if a.CancelTx3? {
        var cancelled := pr.copy.(status := Cancelled, cancelledAt := Some(a.now));
        CancelCredit(w, a.i, cancelled, PaymentCancelled, Cancelling, Done, a.fault, p);
      }
    }
  }

  lemma StepKeepsCredit(w: World, a: Action, p: nat)
    requires CopiesFit(w) && TrailAgrees(w.db) && p < |w.db.payments| && CreditTells(w, p)
    ensures p < |Step(w, a).db.payments| && CreditTells(Step(w, a), p)
  {
    match a {
      case WebhookCommit(i, fee, fault) =>
        if i < |w.procs| && w.procs[i].WebhookHolds? {
          assert Step(w, a) == DoWebhookCommit(w, i, fee, fault);
          WebhookCredit(w, i, fee, fault, p);
        }
      case Sweep(now, fault) => SweepCredit(w, now, fault, p);
      case CancelTx1(_, _) => CancelStepCredit(w, a, p);
      case CancelTx3(_, _, _, _) => CancelStepCredit(w, a, p);
      case _ => OtherStepCredit(w, a, p);
    }
  }

  lemma OtherStepCredit(w: World, a: Action, p: nat)
    requires !a.WebhookCommit? && !a.CancelTx1? && !a.CancelTx3? && !a.Sweep?
    requires p < |w.db.payments| && CreditTells(w, p)
    ensures p < |Step(w, a).db.payments| && CreditTells(Step(w, a), p)
  {
    OtherStepTables(w, a, p);
  }

  lemma StepKeepsCredits(w: World, a: Action)
    requires CopiesFit(w) && TrailAgrees(w.db) && CreditsTell(w)
    ensures CreditsTell(Step(w, a))
  {
    StepGrows(w, a);
    forall p | 0 <= p < |Step(w, a).db.payments|
      ensures CreditTells(Step(w, a), p)
    {
      if p < |w.db.payments| {
        StepKeepsCredit(w, a, p);
      }
    }
  }

  lemma {:induction false} RunKeepsCredits(actions: seq<Action>)
    ensures CreditsTell(Run(actions))
  {
    if actions != [] {
      var front := actions[..|actions| - 1];
      RunKeepsTables(front);
      RunKeepsCredits(front);
      StepKeepsCredits(Run(front), actions[|actions| - 1]);
    }
  }
}
