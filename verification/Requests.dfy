/** Where a request comes from: the action that started it, the world that action read, and that every request still
    holds what was asked of it and what it read there. Conditions are written out on the rows. */
module Requests {
  import opened Entities
  import opened Store
  import opened Platform
  import opened PaymentClaims

  // ---------- what a read admits ----------

  /** A cancel starts exactly on the merchant's own pending payment. */
  lemma {:induction false} CancelStartsIff(actions: seq<Action>, m: MerchantId, p: nat)
    ensures var w := Run(actions);
            |Run(actions + [CancelRead(m, p)]).procs| > |w.procs|
            <==> p < |w.db.payments| && w.db.payments[p].merchant == m
                 && w.db.payments[p].status == PaymentStatus.Pending
  {
    RunAppend(actions, CancelRead(m, p));
  }

  /** A webhook starts exactly on a payment that is pending or cancelling. */
  lemma {:induction false} WebhookStartsIff(
    actions: seq<Action>, p: nat, event: PaymentStatus, paidAt: Option<Time>, merchantUrl: string)
    ensures var w := Run(actions);
            |Run(actions + [WebhookRead(p, event, paidAt, merchantUrl)]).procs| > |w.procs|
            <==> p < |w.db.payments|
                 && (w.db.payments[p].status == PaymentStatus.Pending || w.db.payments[p].status == Cancelling)
  {
    RunAppend(actions, WebhookRead(p, event, paidAt, merchantUrl));
  }

  /** A callback starts exactly on a pending or processing disbursement of its provider with its external id. */
  lemma {:induction false} CallbackStartsIff(
    actions: seq<Action>, d: nat, provider: Provider, externalId: string, outcome: DisbursementStatus, url: string)
    ensures var w := Run(actions);
            |Run(actions + [CallbackRead(d, provider, externalId, outcome, url)]).procs| > |w.procs|
            <==> d < |w.db.disbursements| && w.db.disbursements[d].provider == provider
                 && w.db.disbursements[d].externalId == externalId
                 && (w.db.disbursements[d].status == DisbursementStatus.Pending
                     || w.db.disbursements[d].status == Processing)
  {
    RunAppend(actions, CallbackRead(d, provider, externalId, outcome, url));
  }

  /** A reservation starts exactly while none of its merchant is between its reads: the merchant's row is locked. */
  lemma {:induction false} ReservationStartsIff(
    actions: seq<Action>, m: MerchantId, provider: Provider, amount: int, fee: int, limit: int, day: int)
    ensures var w := Run(actions);
            |Run(actions + [ReserveRead(m, provider, amount, fee, limit, day)]).procs| > |w.procs|
            <==> forall j :: 0 <= j < |w.procs| && w.procs[j].Reserving? ==> w.procs[j].m != m
  {
    RunAppend(actions, ReserveRead(m, provider, amount, fee, limit, day));
  }

  /** Which answer each first read gives. */
  lemma ReadsAnswer(db: Db, m: MerchantId, p: nat, d: nat, provider: Provider, externalId: string)
    ensures var r, known := ReadForCancel(db, m, p), p < |db.payments| && db.payments[p].merchant == m;
            if !known then r == PaymentMissing
            else if db.payments[p].status != PaymentStatus.Pending then r == NotCancellable
            else r == PaymentCopy(db.payments[p])
    ensures var r := ReadForWebhook(db, p);
            if p >= |db.payments| then r == PaymentMissing
            else if db.payments[p].status != PaymentStatus.Pending && db.payments[p].status != Cancelling then
              r == PaymentSettled
            else r == PaymentCopy(db.payments[p])
    ensures var r := ReadForCallback(db, d, provider, externalId);
            var known := d < |db.disbursements| && db.disbursements[d].provider == provider
                         && db.disbursements[d].externalId == externalId;
            if !known then r == DisbursementMissing
            else
              var status := db.disbursements[d].status;
              if status == Completed || status == DisbursementStatus.Failed then r == DisbursementSettled
              else r == DisbursementCopy(db.disbursements[d])
  {
  }

  // ---------- the action that started a request ----------

  /** The position of the action at which request i appeared. */
  function StartedAt(actions: seq<Action>, i: nat): (k: nat)
    requires i < |Run(actions).procs|
    ensures k < |actions| && |Run(actions[..k]).procs| <= i < |Run(actions[..k + 1]).procs|
  {
    var front := actions[..|actions| - 1];
    if i < |Run(front).procs| then
      var k := StartedAt(front, i);
      assert front[..k] == actions[..k] && front[..k + 1] == actions[..k + 1];
      k
    else
      assert actions[..|actions| - 1 + 1] == actions;
      |actions| - 1
  }

  function Opening(actions: seq<Action>, i: nat): Action
    requires i < |Run(actions).procs|
  {
    actions[StartedAt(actions, i)]
  }

  /** The world the opening action read. */
  function OpenedOn(actions: seq<Action>, i: nat): World
    requires i < |Run(actions).procs|
  {
    Run(actions[..StartedAt(actions, i)])
  }

  lemma OpeningAppend(actions: seq<Action>, i: nat)
    requires actions != [] && i < |Run(actions).procs|
    ensures var front := actions[..|actions| - 1];
            if i < |Run(front).procs| then
              Opening(actions, i) == Opening(front, i) && OpenedOn(actions, i) == OpenedOn(front, i)
            else Opening(actions, i) == actions[|actions| - 1] && OpenedOn(actions, i) == Run(front)
  {
    var front := actions[..|actions| - 1];
    if i < |Run(front).procs| {
      var k := StartedAt(front, i);
      assert front[..k] == actions[..k] && front[k] == actions[k];
    }
  }

  /** The row is the one this reservation asked for. */
  predicate Asked(row: Disbursement, a: Action) {
    && a.ReserveRead? && row.merchant == a.merchant && row.provider == a.provider
    && row.amount == a.amount && row.fee == a.fee && row.day == a.day
  }

  /** A request holds what its opening action asked and what that action read. */
  ghost predicate HoldsWhatItRead(db: Db, pr: Proc, a: Action, seen: Db) {
    match pr
    case WebhookHolds(p, copy, event, paidAt, url) =>
      && a.WebhookRead? && a.p == p && a.event == event && a.paidAt == paidAt
      && p < |seen.payments| && copy == seen.payments[p]
      && (copy.status == PaymentStatus.Pending || copy.status == Cancelling)
      && url == if copy.callbackUrl != "" then copy.callbackUrl else a.merchantUrl
    case CancelHolds(p, copy) => OwnCancel(p, copy, a, seen)
    case CancelMarked(p, copy) => OwnCancel(p, copy, a, seen)
    case Reserving(m, provider, amount, fee, limit, day, balance, cashOutAtRead) =>
      && a == ReserveRead(m, provider, amount, fee, limit, day)
      && balance == Balance(seen.mutations, m) && cashOutAtRead == CashOutTotal(seen.mutations, m)
    case AwaitingAnswer(d) => d < |db.disbursements| && Asked(db.disbursements[d], a)
    case CallbackHolds(d, row, outcome, url) =>
      && a == CallbackRead(d, row.provider, row.externalId, outcome, url)
      && d < |seen.disbursements| && row == seen.disbursements[d]
      && (row.status == DisbursementStatus.Pending || row.status == Processing)
    case Done => true
  }

  /** A cancel asked for by the payment's own merchant while it was pending. */
  predicate OwnCancel(p: nat, copy: Payment, a: Action, seen: Db) {
    && a.CancelRead? && a.p == p && a.merchant == copy.merchant
    && p < |seen.payments| && copy == seen.payments[p] && copy.status == PaymentStatus.Pending
  }

  lemma OldRequestHolds(w: World, a: Action, i: nat, open: Action, seen: Db)
    requires i < |w.procs| && HoldsWhatItRead(w.db, w.procs[i], open, seen)
    ensures i < |Step(w, a).procs| && HoldsWhatItRead(Step(w, a).db, Step(w, a).procs[i], open, seen)
  {
    StepKeepsDisbursementTerms(w, a);
    ProcsOnlyGrow(w, a);
    var pr := w.procs[i];
    if Step(w, a).procs[i] == pr {
      if pr.AwaitingAnswer? {
        assert SameTerms(Step(w, a).db.disbursements[pr.d], w.db.disbursements[pr.d]);
      }
    } else {
      Progress(w, a, i);
    }
  }

  /** A request that changes ends, is marked, or has its reservation stored. */
  lemma Progress(w: World, a: Action, i: nat)
    requires i < |w.procs| && i < |Step(w, a).procs| && Step(w, a).procs[i] != w.procs[i]
    ensures var pr, pr' := w.procs[i], Step(w, a).procs[i];
            || pr'.Done?
            || (pr.CancelHolds? && pr' == CancelMarked(pr.p, pr.copy))
            || (pr.Reserving? && pr'.AwaitingAnswer? && pr'.d < |Step(w, a).db.disbursements|
                && var row := Step(w, a).db.disbursements[pr'.d];
                   row.merchant == pr.m && row.provider == pr.provider && row.amount == pr.amount
                   && row.fee == pr.fee && row.day == pr.day)
  {
  }

  lemma NewRequestHolds(w: World, a: Action)
    requires |Step(w, a).procs| > |w.procs|
    ensures |Step(w, a).procs| == |w.procs| + 1
    ensures HoldsWhatItRead(Step(w, a).db, Step(w, a).procs[|w.procs|], a, w.db)
  {
  }

  /** In every run every request holds what its opening action asked and read: a cancel its own merchant's pending
      payment, a webhook the URL of the payment before the merchant's, a reservation the row it asked for. */
  lemma {:induction false} RequestsHold(actions: seq<Action>, i: nat)
    requires i < |Run(actions).procs|
    ensures HoldsWhatItRead(Run(actions).db, Run(actions).procs[i], Opening(actions, i), OpenedOn(actions, i).db)
  {
    var front, a := actions[..|actions| - 1], actions[|actions| - 1];
    OpeningAppend(actions, i);
    if i < |Run(front).procs| {
      RequestsHold(front, i);
      OldRequestHolds(Run(front), a, i, Opening(front, i), OpenedOn(front, i).db);
    } else {
      NewRequestHolds(Run(front), a);
    }
  }

  /** Every cancel transaction on a payment, whether or not it commits, comes from a cancel its own merchant asked
      for while it was pending. */
  lemma {:induction false} CancelsAreTheMerchants(actions: seq<Action>, i: nat)
    requires i < |Run(actions).procs| && (Run(actions).procs[i].CancelHolds? || Run(actions).procs[i].CancelMarked?)
    ensures var w, open := Run(actions), Opening(actions, i);
            var p := w.procs[i].p;
            && p < |w.db.payments| && open == CancelRead(w.db.payments[p].merchant, p)
            && p < |OpenedOn(actions, i).db.payments|
            && OpenedOn(actions, i).db.payments[p].status == PaymentStatus.Pending
  {
    RequestsHold(actions, i);
    RunKeepsTables(actions);
    assert CopyFits(Run(actions).db, Run(actions).procs[i]);
  }
}
