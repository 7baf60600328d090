/** Every row of every run traced back to the actions: which request asked for a payment or a disbursement, and what
    each ledger row, notice and external id says of them. */
module Provenance {
  import opened Entities
  import opened Store
  import opened Platform
  import opened PaymentClaims
  import opened Requests
  import opened Effects

  /** Steps other than the two that commit events leave ledger and outbox alone. */
  lemma QuietLedger(w: World, a: Action)
    requires !a.WebhookCommit? && !a.CallbackCommit?
    ensures Step(w, a).db.mutations == w.db.mutations && Step(w, a).db.outbox == w.db.outbox
  {
  }

  // ---------- payments and disbursements ----------

  predicate CreatedBy(row: Payment, a: Action) {
    && a.Create? && row.merchant == a.merchant && row.amount == a.amount
    && row.expiryAt == a.expiryAt && row.callbackUrl == a.callbackUrl
  }

  /** Every payment has the merchant, amount, expiry and callback URL it was created with. */
  lemma {:induction false} PaymentsAsCreated(actions: seq<Action>, p: nat)
    requires p < |Run(actions).db.payments|
    ensures exists a <- actions :: CreatedBy(Run(actions).db.payments[p], a)
  {
    var front, a := actions[..|actions| - 1], actions[|actions| - 1];
    var w := Run(front);
    assert a in actions;
    if p < |w.db.payments| {
      PaymentsAsCreated(front, p);
      PaymentTermsFixed(w, a);
      var b :| b in front && CreatedBy(w.db.payments[p], b);
      assert b in actions && CreatedBy(Run(actions).db.payments[p], b);
    } else {
      StepGrows(w, a);
      CreateEffect(w, a.merchant, a.amount, a.expiryAt, a.callbackUrl, a.fault);
      assert CreatedBy(Run(actions).db.payments[p], a);
    }
  }

  /** A step that adds a disbursement is an accepted reservation. */
  lemma NewDisbursement(w: World, a: Action)
    requires |Step(w, a).db.disbursements| > |w.db.disbursements|
    ensures a.ReserveCommit? && a.i < |w.procs| && w.procs[a.i].Reserving? && ReservationAccepted(w, a.i, a.fault)
  {
    if a.ReserveCommit? && a.i < |w.procs| && w.procs[a.i].Reserving? {
      ReserveEffect(w, a.i, a.fault);
    }
  }

  /** Every disbursement has the merchant, provider, amount, fee and day that a reservation asked for. */
  lemma {:induction false} DisbursementsAsAsked(actions: seq<Action>, d: nat)
    requires d < |Run(actions).db.disbursements|
    ensures exists a <- actions :: Asked(Run(actions).db.disbursements[d], a)
  {
    var front, a := actions[..|actions| - 1], actions[|actions| - 1];
    var w := Run(front);
    if d < |w.db.disbursements| {
      DisbursementsAsAsked(front, d);
      DisbursementTermsFixed(w, a);
      var b :| b in front && Asked(w.db.disbursements[d], b);
      assert b in actions && Asked(Run(actions).db.disbursements[d], b);
    } else {
      NewDisbursement(w, a);
      ReserveEffect(w, a.i, a.fault);
      RequestsHold(front, a.i);
      assert Opening(front, a.i) in front;
      assert Opening(front, a.i) in actions && Asked(Run(actions).db.disbursements[d], Opening(front, a.i));
    }
  }

  /** In every run a reservation's transaction either leaves the database alone or appends exactly the row that the
      action which started its request asked for, pending and without an id; it does so exactly when the balance that
      action read leaves the amount beside what is in flight now, and the limit, amount, fee and writes are in order. */
  lemma {:induction false} ReservationStoresWhatWasAsked(actions: seq<Action>, i: nat, fault: Fault)
    requires i < |Run(actions).procs| && Run(actions).procs[i].Reserving?
    ensures var a, read := Opening(actions, i), OpenedOn(actions, i).db.mutations;
            var ds, ds' := Run(actions).db.disbursements, Run(actions + [ReserveCommit(i, fault)]).db.disbursements;
            a.ReserveRead? &&
            if && Balance(read, a.merchant) - GrossOf(ds, InFlightRows(ds, a.merchant)) >= a.amount
               && (a.limit > 0 ==> GrossOf(ds, CountedRows(ds, a.merchant, a.day)) + a.amount <= a.limit)
               && a.amount > 0 && 0 <= a.fee <= a.amount
               && fault != AtRead && fault != AtUpdate && fault != AtCommit
            then
              && |ds'| == |ds| + 1 && ds'[..|ds|] == ds && Asked(ds'[|ds|], a)
              && ds'[|ds|].status == DisbursementStatus.Pending && ds'[|ds|].externalId == ""
            else ds' == ds
  {
    RequestsHold(actions, i);
    RunAppend(actions, ReserveCommit(i, fault));
    ReserveEffect(Run(actions), i, fault);
  }

  // ---------- the ledger ----------

  /** A ledger row is a credit of its payment's amount with a fee within it, or a debit of its disbursement's amount
      plus fee. */
  predicate EntryFits(db: Db, c: Mutation) {
    match c.refType
    case RefPayment =>
      && c.refId < |db.payments| && c.kind == CashIn && c.merchant == db.payments[c.refId].merchant
      && c.amount == db.payments[c.refId].amount && 0 <= c.fee <= c.amount
    case RefDisbursement =>
      && c.refId < |db.disbursements| && c.kind == CashOut && c.merchant == db.disbursements[c.refId].merchant
      && c.amount == db.disbursements[c.refId].amount + db.disbursements[c.refId].fee && c.fee == 0
  }

  ghost predicate LedgerFits(db: Db) {
    forall c <- db.mutations :: EntryFits(db, c)
  }

  lemma EntryStillFits(w: World, a: Action, c: Mutation)
    requires EntryFits(w.db, c)
    ensures EntryFits(Step(w, a).db, c)
  {
    PaymentTermsFixed(w, a);
    DisbursementTermsFixed(w, a);
  }

  lemma StepLedgerFits(w: World, a: Action)
    requires CopiesFit(w) && LedgerFits(w.db)
    ensures LedgerFits(Step(w, a).db)
  {
    forall c | c in Step(w, a).db.mutations
      ensures EntryFits(Step(w, a).db, c)
    {
      if c in w.db.mutations {
        EntryStillFits(w, a, c);
      } else if !a.WebhookCommit? && !a.CallbackCommit? {
        QuietLedger(w, a);
      } else if a.i < |w.procs| {
        PaymentTermsFixed(w, a);
    DisbursementTermsFixed(w, a);
        assert CopyFits(w.db, w.procs[a.i]);
        if a.WebhookCommit? && w.procs[a.i].WebhookHolds? {
          WebhookEffect(w, a.i, a.fee, a.fault);
        } else if a.CallbackCommit? && w.procs[a.i].CallbackHolds? {
          CallbackEffect(w, a.i, a.fault);
        }
      }
    }
  }

  /** In every run every ledger row fits the row it refers to. */
  lemma {:induction false} LedgerTells(actions: seq<Action>)
    ensures LedgerFits(Run(actions).db)
  {
    if actions != [] {
      var front := actions[..|actions| - 1];
      LedgerTells(front);
      RunKeepsTables(front);
      StepLedgerFits(Run(front), actions[|actions| - 1]);
    }
  }

  /** So the debit of a disbursement is the amount plus the fee that its reservation asked for. */
  lemma {:induction false} DebitIsWhatWasAsked(actions: seq<Action>, c: Mutation)
    requires c in Run(actions).db.mutations && c.refType == RefDisbursement
    ensures c.refId < |Run(actions).db.disbursements|
    ensures exists a <- actions ::
              && Asked(Run(actions).db.disbursements[c.refId], a) && c.merchant == a.merchant && c.kind == CashOut
              && c.amount == a.amount + a.fee && c.fee == 0
  {
    LedgerTells(actions);
    assert EntryFits(Run(actions).db, c);
    DisbursementsAsAsked(actions, c.refId);
    var a :| a in actions && Asked(Run(actions).db.disbursements[c.refId], a);
  }

  // ---------- notices ----------

  /** A payment notice: the payment's merchant and amount, a fee only if it is paid, the net as their difference; the
      URL is the payment's own if it has one, otherwise the merchant's as the reporting webhook read it. */
  predicate PaymentNoticeFits(actions: seq<Action>, db: Db, e: Event)
    requires e.PaymentEvent?
  {
    && e.payment < |db.payments| && e.merchant == db.payments[e.payment].merchant
    && e.amount == db.payments[e.payment].amount && e.net == e.amount - e.fee && e.url != ""
    && (e.status != Paid ==> e.fee == 0)
    && (e.status == Paid ==> exists c <- db.mutations :: CreditOf(c, e.payment, e.fee))
    && exists a <- actions :: Reports(a, e, db.payments[e.payment].callbackUrl)
  }

  predicate CreditOf(c: Mutation, p: nat, fee: int) {
    c.refType == RefPayment && c.refId == p && c.fee == fee
  }

  predicate Reports(a: Action, e: Event, own: string)
    requires e.PaymentEvent?
  {
    && a.WebhookRead? && a.p == e.payment && a.event == e.status
    && e.url == if own != "" then own else a.merchantUrl
  }

  /** A disbursement notice: the disbursement's merchant, amount and fee, with the outcome and URL of a callback, and
      a debit behind it if it is completed. */
  predicate DisbursementNoticeFits(actions: seq<Action>, db: Db, e: Event)
    requires e.DisbursementEvent?
  {
    && e.disbursement < |db.disbursements| && e.merchant == db.disbursements[e.disbursement].merchant
    && e.amount == db.disbursements[e.disbursement].amount && e.fee == db.disbursements[e.disbursement].fee
    && e.url != ""
    && (e.outcome == Completed ==> exists c <- db.mutations :: DebitOf(c, e.disbursement))
    && exists a <- actions :: Answers(a, e)
  }

  predicate DebitOf(c: Mutation, d: nat) {
    c.refType == RefDisbursement && c.refId == d
  }

  predicate Answers(a: Action, e: Event)
    requires e.DisbursementEvent?
  {
    a.CallbackRead? && a.d == e.disbursement && a.outcome == e.outcome && a.url == e.url
  }

  ghost predicate NoticeFits(actions: seq<Action>, db: Db, e: Event) {
    if e.PaymentEvent? then PaymentNoticeFits(actions, db, e) else DisbursementNoticeFits(actions, db, e)
  }

  lemma LedgerGrows(w: World, a: Action)
    ensures forall c <- w.db.mutations :: c in Step(w, a).db.mutations
  {
  }

  lemma NoticeStillFits(actions: seq<Action>, a: Action, e: Event)
    requires NoticeFits(actions, Run(actions).db, e)
    ensures NoticeFits(actions + [a], Step(Run(actions), a).db, e)
  {
    var w := Run(actions);
    PaymentTermsFixed(w, a);
    DisbursementTermsFixed(w, a);
    LedgerGrows(w, a);
    if e.PaymentEvent? {
      var b :| b in actions && Reports(b, e, w.db.payments[e.payment].callbackUrl);
      assert b in actions + [a];
      if e.status == Paid {
        var c :| c in w.db.mutations && CreditOf(c, e.payment, e.fee);
        assert c in Step(w, a).db.mutations;
      }
    } else {
      var b :| b in actions && Answers(b, e);
      assert b in actions + [a];
      if e.outcome == Completed {
        var c :| c in w.db.mutations && DebitOf(c, e.disbursement);
        assert c in Step(w, a).db.mutations;
      }
    }
  }

  lemma WebhookNoticeFits(actions: seq<Action>, i: nat, fee: int, fault: Fault, e: Event)
    requires i < |Run(actions).procs| && Run(actions).procs[i].WebhookHolds?
    requires var w' := Step(Run(actions), WebhookCommit(i, fee, fault));
             e in w'.db.outbox && e !in Run(actions).db.outbox
    ensures NoticeFits(actions + [WebhookCommit(i, fee, fault)], Step(Run(actions), WebhookCommit(i, fee, fault)).db, e)
  {
    var w, a := Run(actions), WebhookCommit(i, fee, fault);
    var pr, w' := w.procs[i], Step(w, a);
    WebhookEffect(w, i, fee, fault);
    RequestsHold(actions, i);
    RunKeepsTables(actions);
    assert CopyFits(w.db, pr);
    var opening := Opening(actions, i);
    assert opening in actions + [a] && Reports(opening, e, w'.db.payments[pr.p].callbackUrl);
    if pr.event == Paid {
      var c := w'.db.mutations[|w.db.mutations|];
      assert c in w'.db.mutations && CreditOf(c, pr.p, fee);
    }
  }

  lemma CallbackNoticeFits(actions: seq<Action>, i: nat, fault: Fault, e: Event)
    requires i < |Run(actions).procs| && Run(actions).procs[i].CallbackHolds?
    requires var w' := Step(Run(actions), CallbackCommit(i, fault));
             e in w'.db.outbox && e !in Run(actions).db.outbox
    ensures NoticeFits(actions + [CallbackCommit(i, fault)], Step(Run(actions), CallbackCommit(i, fault)).db, e)
  {
    var w, a := Run(actions), CallbackCommit(i, fault);
    var pr, w' := w.procs[i], Step(w, a);
    CallbackEffect(w, i, fault);
    RequestsHold(actions, i);
    RunKeepsTables(actions);
    assert CopyFits(w.db, pr);
    var opening := Opening(actions, i);
    assert opening in actions + [a] && Answers(opening, e);
    if pr.outcome == Completed {
      var c := w'.db.mutations[|w.db.mutations|];
      assert c in w'.db.mutations && DebitOf(c, pr.d);
    }
  }

  lemma NewNoticeFits(actions: seq<Action>, a: Action, e: Event)
    requires e in Step(Run(actions), a).db.outbox && e !in Run(actions).db.outbox
    ensures NoticeFits(actions + [a], Step(Run(actions), a).db, e)
  {
    var w := Run(actions);
    if a.WebhookCommit? && a.i < |w.procs| && w.procs[a.i].WebhookHolds? {
      WebhookNoticeFits(actions, a.i, a.fee, a.fault, e);
    } else if a.CallbackCommit? && a.i < |w.procs| && w.procs[a.i].CallbackHolds? {
      CallbackNoticeFits(actions, a.i, a.fault, e);
    } else if !a.WebhookCommit? && !a.CallbackCommit? {
      QuietLedger(w, a);
    }
  }

  /** In every run every notice in the outbox fits the rows, the ledger and the report it announces. */
  lemma {:induction false} NoticesTell(actions: seq<Action>, e: Event)
    requires e in Run(actions).db.outbox
    ensures NoticeFits(actions, Run(actions).db, e)
  {
    if actions != [] {
      var front, a := actions[..|actions| - 1], actions[|actions| - 1];
      assert actions == front + [a];
      if e in Run(front).db.outbox {
        NoticesTell(front, e);
        NoticeStillFits(front, a, e);
      } else {
        NewNoticeFits(front, a, e);
      }
    }
  }

  /** The fee a paid notice announces is that of the payment's ledger entry, of which there is one. */
  lemma {:induction false} PaidNoticeFee(actions: seq<Action>, e: Event)
    requires e in Run(actions).db.outbox && e.PaymentEvent? && e.status == Paid
    ensures var entries := EntriesOf(Run(actions).db.mutations, e.payment, RefPayment);
            |entries| == 1 && entries[0].fee == e.fee && entries[0].amount - entries[0].fee == e.net
  {
    NoticesTell(actions, e);
    var db := Run(actions).db;
    var c :| c in db.mutations && CreditOf(c, e.payment, e.fee);
    MemberIsEntry(db.mutations, c);
    RunKeepsTables(actions);
    LedgerTells(actions);
    assert EntryFits(db, c);
  }

  lemma {:induction false} MemberIsEntry(ms: seq<Mutation>, c: Mutation)
    requires c in ms
    ensures c in EntriesOf(ms, c.refId, c.refType)
  {
    if c in ms[..|ms| - 1] {
      MemberIsEntry(ms[..|ms| - 1], c);
    }
  }

  // ---------- external ids ----------

  /** No two disbursements of one provider share an external id. */
  predicate UniqueIds(ds: seq<Disbursement>) {
    forall d, e :: 0 <= d < e < |ds| && ds[d].provider == ds[e].provider && ds[d].externalId != ""
                   ==> ds[d].externalId != ds[e].externalId
  }

  lemma WrittenIdsUnique(db: Db, db': Db, d: nat, externalId: string, status: DisbursementStatus)
    requires UniqueIds(db.disbursements) && ReportWritten(db, db', d, externalId, status)
    requires externalId != "" ==> IdUnused(db.disbursements, d, db.disbursements[d].provider, externalId)
    ensures UniqueIds(db'.disbursements)
  {
  }

  lemma StepIdsUnique(w: World, a: Action)
    requires UniqueIds(w.db.disbursements)
    ensures UniqueIds(Step(w, a).db.disbursements)
  {
    var w' := Step(w, a);
    if a.ProviderAnswers? && a.i < |w.procs| && w.procs[a.i].AwaitingAnswer? {
      AnswerEffect(w, a.i, a.answer, a.fault);
      if w'.db != w.db {
        var d := w.procs[a.i].d;
        WrittenIdsUnique(w.db, w'.db, d, w'.db.disbursements[d].externalId, w'.db.disbursements[d].status);
      }
    } else if a.CallbackCommit? && a.i < |w.procs| && w.procs[a.i].CallbackHolds? {
      CallbackEffect(w, a.i, a.fault);
      if CallbackGoesThrough(w, a.i, a.fault) {
        var pr := w.procs[a.i];
        WrittenIdsUnique(w.db, w'.db, pr.d, pr.row.externalId, pr.outcome);
      }
    } else if a.ReserveCommit? && a.i < |w.procs| && w.procs[a.i].Reserving? {
      ReserveEffect(w, a.i, a.fault);
      if ReservationAccepted(w, a.i, a.fault) {
        assert forall d :: 0 <= d < |w.db.disbursements| ==> w'.db.disbursements[d] == w.db.disbursements[d];
      }
    } else {
      OtherRows(w, a);
    }
  }

  lemma OtherRows(w: World, a: Action)
    requires !(a.ProviderAnswers? && a.i < |w.procs| && w.procs[a.i].AwaitingAnswer?)
    requires !(a.CallbackCommit? && a.i < |w.procs| && w.procs[a.i].CallbackHolds?)
    requires !(a.ReserveCommit? && a.i < |w.procs| && w.procs[a.i].Reserving?)
    ensures Step(w, a).db.disbursements == w.db.disbursements
  {
  }

  /** In every run the external id that a callback looks up names at most one disbursement of its provider. */
  lemma {:induction false} IdsStayUnique(actions: seq<Action>)
    ensures UniqueIds(Run(actions).db.disbursements)
  {
    if actions != [] {
      IdsStayUnique(actions[..|actions| - 1]);
      StepIdsUnique(Run(actions[..|actions| - 1]), actions[|actions| - 1]);
    }
  }
}
