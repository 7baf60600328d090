/** The claims about payments, for every run of the platform. */
module PaymentTheorems {
  import opened Entities
  import opened Store
  import opened Trail
  import opened Platform
  import opened PaymentClaims
  import Fees

  /** At most one credit per payment, as many as its paid webhook audits, and for the payment's own terms. */
  lemma {:induction false} SingleCredit(actions: seq<Action>, p: nat)
    requires p < |Run(actions).db.payments|
    ensures var db := Run(actions).db;
            var credits := EntriesOf(db.mutations, p, RefPayment);
            && |credits| == PaidWebhooks(db.audits, p) <= 1
            && forall e <- credits :: e == Credit(p, db.payments[p], e.fee) && 0 <= e.fee <= e.amount
  {
    RunKeepsTables(actions);
    RunKeepsCredits(actions);
    assert CreditTells(Run(actions), p);
  }

  /** Folding a payment's audits gives its stored status, and each webhook or expiry row starts where the
      rows before it ended. Without an overlapped cancel every row does. */
  lemma {:induction false} AuditReplay(actions: seq<Action>, p: nat)
    requires p < |Run(actions).db.payments|
    ensures Replay(Run(actions).db.audits, p) == Some(Run(actions).db.payments[p].status)
    ensures Chained(Run(actions).db.audits)
    ensures p !in Run(actions).overlapped ==> ChainedFor(Run(actions).db.audits, p)
  {
    RunKeepsTables(actions);
    RunKeepsOrderly(actions);
    assert p !in Run(actions).overlapped ==> Orderly(Run(actions), p);
  }

  /** Paid and credited agree exactly for the payments whose paid row no cancel transaction overwrote,
      and without an overlapped cancel there is no such write. */
  lemma {:induction false} PaidIffCredited(actions: seq<Action>, p: nat)
    requires p < |Run(actions).db.payments|
    ensures var w := Run(actions);
            (p !in w.erased <==> (w.db.payments[p].status == Paid <==> |EntriesOf(w.db.mutations, p, RefPayment)| == 1))
    ensures p !in Run(actions).overlapped ==> p !in Run(actions).erased
    ensures p !in Run(actions).overlapped ==>
              var row := Run(actions).db.payments[p];
              (row.paidAt.Some? ==> row.status == Paid) && (row.cancelledAt.Some? ==> row.status == Cancelled)
  {
    RunKeepsCredits(actions);
    RunKeepsOrderly(actions);
    assert CreditTells(Run(actions), p);
    assert p !in Run(actions).overlapped ==> Orderly(Run(actions), p);
  }

  lemma StepRespectsFinal(w: World, a: Action, p: nat)
    requires CopiesFit(w) && TablesAgree(w.db, w.log) && p < |w.db.payments| && w.db.payments[p].IsFinal()
    requires (a.CancelTx1? || a.CancelTx3?) ==> Orderly(w, p)
    ensures p < |Step(w, a).db.payments| && Step(w, a).db.payments[p] == w.db.payments[p]
  {
    match a {
      case CancelTx1(i, _) =>
        if i < |w.procs| { assert HoldsCurrent(w.db.payments[p], p, w.procs[i]); }
      case CancelTx3(i, _, _, _) =>
        if i < |w.procs| { assert HoldsCurrent(w.db.payments[p], p, w.procs[i]); }
      case WebhookCommit(_, _, _) =>
      case Sweep(now, _) => SweepIsSetUpdate(w.db, |w.db.payments|, now);
      case _ => OtherStepTables(w, a, p);
    }
  }

  /** No webhook, however stale its first read, and no sweep ever changes a final row. */
  lemma WebhooksAndSweepsRespectFinal(actions: seq<Action>, a: Action, p: nat)
    requires p < |Run(actions).db.payments| && Run(actions).db.payments[p].IsFinal()
    requires !a.CancelTx1? && !a.CancelTx3?
    ensures p < |Run(actions + [a]).db.payments| && Run(actions + [a]).db.payments[p] == Run(actions).db.payments[p]
  {
    RunAppend(actions, a);
    RunKeepsTables(actions);
    StepRespectsFinal(Run(actions), a, p);
  }

  /** A cancel transaction of the payment commits. */
  predicate CancelCommits(w: World, a: Action, p: nat) {
    match a
    case CancelTx1(i, fault) =>
      i < |w.procs| && w.procs[i].CancelHolds? && w.procs[i].p == p && StatusWriteCommits(w.db, p, fault)
    case CancelTx3(i, _, _, fault) =>
      i < |w.procs| && w.procs[i].CancelMarked? && w.procs[i].p == p && StatusWriteCommits(w.db, p, fault)
    case _ => false
  }

  /** It does not merely confirm a payment that is cancelled already. */
  predicate Overwrites(w: World, a: Action, p: nat)
    requires p < |w.db.payments|
  {
    CancelCommits(w, a, p) && !(a.CancelTx3? && a.providerOk && w.db.payments[p].status == Cancelled)
  }

  lemma CancelStep(w: World, a: Action, p: nat)
    requires (a.CancelTx1? || a.CancelTx3?) && p < |w.db.payments| && w.db.payments[p].IsFinal()
    ensures p < |Step(w, a).db.payments|
    ensures Step(w, a).db.payments[p].status == w.db.payments[p].status <==> !Overwrites(w, a, p)
    ensures !CancelCommits(w, a, p) ==> Step(w, a).db.payments[p] == w.db.payments[p]
  {
  }

  lemma StatusKeptIff(w: World, a: Action, p: nat)
    requires CopiesFit(w) && TablesAgree(w.db, w.log) && p < |w.db.payments| && w.db.payments[p].IsFinal()
    ensures p < |Step(w, a).db.payments|
    ensures Step(w, a).db.payments[p].status == w.db.payments[p].status <==> !Overwrites(w, a, p)
    ensures !CancelCommits(w, a, p) ==> Step(w, a).db.payments[p] == w.db.payments[p]
  {
    if a.CancelTx1? || a.CancelTx3? {
      CancelStep(w, a, p);
    } else {
      StepRespectsFinal(w, a, p);
    }
  }

  /** In any reachable state, a step changes a final status exactly when it commits a cancel transaction that does
      not merely confirm; and it leaves the whole row alone unless it commits a cancel transaction. */
  lemma {:induction false} FinalKeptIff(actions: seq<Action>, a: Action, p: nat)
    requires p < |Run(actions).db.payments| && Run(actions).db.payments[p].IsFinal()
    ensures var w, w' := Run(actions), Run(actions + [a]);
            && p < |w'.db.payments|
            && (w'.db.payments[p].status == w.db.payments[p].status <==> !Overwrites(w, a, p))
            && (!CancelCommits(w, a, p) ==> w'.db.payments[p] == w.db.payments[p])
  {
    RunAppend(actions, a);
    RunKeepsTables(actions);
    StatusKeptIff(Run(actions), a, p);
  }

  /** No step of the continuation is such a write. */
  ghost predicate NoOverwrite(actions: seq<Action>, more: seq<Action>, p: nat) {
    more == [] ||
    var front := more[..|more| - 1];
    var w := Run(actions + front);
    NoOverwrite(actions, front, p) && (p < |w.db.payments| ==> !Overwrites(w, more[|more| - 1], p))
  }

  ghost predicate HasStatus(w: World, p: nat, status: PaymentStatus) {
    p < |w.db.payments| && w.db.payments[p].status == status
  }

  /** In every state of the continuation. */
  ghost predicate HeldStatus(actions: seq<Action>, more: seq<Action>, p: nat, status: PaymentStatus) {
    && HasStatus(Run(actions + more), p, status)
    && (more == [] || HeldStatus(actions, more[..|more| - 1], p, status))
  }

  /** Final means final, exactly: a final payment keeps its status through every state of any continuation if and
      only if no cancel transaction in it overwrites the status. */
  lemma {:induction false} FinalMeansFinal(actions: seq<Action>, more: seq<Action>, p: nat)
    requires p < |Run(actions).db.payments| && Run(actions).db.payments[p].IsFinal()
    ensures HeldStatus(actions, more, p, Run(actions).db.payments[p].status) <==> NoOverwrite(actions, more, p)
    decreases |more|
  {
    if more == [] {
      assert actions + more == actions;
    } else {
      var front, a := more[..|more| - 1], more[|more| - 1];
      assert actions + more == (actions + front) + [a];
      FinalMeansFinal(actions, front, p);
      if HeldStatus(actions, front, p, Run(actions).db.payments[p].status) {
        FinalKeptIff(actions + front, a, p);
      }
    }
  }

  /** A sufficient condition on the requests alone: once final, a payment's whole row stays as it is for the rest of
      any run in which no cancel of it overlaps another writer. */
  lemma {:induction false} FinalWithoutOverlap(actions: seq<Action>, more: seq<Action>, p: nat)
    requires p < |Run(actions).db.payments| && Run(actions).db.payments[p].IsFinal()
    requires p !in Run(actions + more).overlapped
    ensures p < |Run(actions + more).db.payments|
    ensures Run(actions + more).db.payments[p] == Run(actions).db.payments[p]
    decreases |more|
  {
    if more == [] {
      assert actions + more == actions;
    } else {
      var front, a := more[..|more| - 1], more[|more| - 1];
      assert actions + more == (actions + front) + [a];
      RunAppend(actions + front, a);
      StepGrows(Run(actions + front), a);
      FinalWithoutOverlap(actions, front, p);
      RunKeepsTables(actions + front);
      RunKeepsOrderly(actions + front);
      StepRespectsFinal(Run(actions + front), a, p);
    }
  }

  // ---------- the audits of cancels ----------

  /** A committing cancel transaction finds another status stored than its audit row will say. */
  predicate BreaksChain(w: World, a: Action, p: nat)
    requires p < |w.db.payments|
  {
    && CancelCommits(w, a, p)
    && w.db.payments[p].status != if a.CancelTx1? then PaymentStatus.Pending else Cancelling
  }

  /** A cancel holds a copy it read as pending. */
  ghost predicate CopiesPending(w: World) {
    forall i :: 0 <= i < |w.procs| && (w.procs[i].CancelHolds? || w.procs[i].CancelMarked?) ==>
      w.procs[i].copy.CanCancel()
  }

  lemma StepCopiesPending(w: World, a: Action, i: nat)
    requires CopiesPending(w) && i < |Step(w, a).procs|
    requires Step(w, a).procs[i].CancelHolds? || Step(w, a).procs[i].CancelMarked?
    ensures Step(w, a).procs[i].copy.CanCancel()
  {
  }

  lemma {:induction false} RunCopiesPending(actions: seq<Action>)
    ensures CopiesPending(Run(actions))
  {
    if actions != [] {
      var front, a := actions[..|actions| - 1], actions[|actions| - 1];
      RunCopiesPending(front);
      var w' := Run(actions);
      forall i | 0 <= i < |w'.procs| && (w'.procs[i].CancelHolds? || w'.procs[i].CancelMarked?)
        ensures w'.procs[i].copy.CanCancel()
      {
        StepCopiesPending(Run(front), a, i);
      }
    }
  }

  /** A cancel transaction's audit row. */
  lemma CancelChains(w: World, a: Action, p: nat)
    requires TrailAgrees(w.db) && CopiesPending(w) && p < |w.db.payments| && (a.CancelTx1? || a.CancelTx3?)
    ensures ChainedFor(Step(w, a).db.audits, p) <==> ChainedFor(w.db.audits, p) && !BreaksChain(w, a, p)
  {
    if a.i < |w.procs| && (w.procs[a.i].CancelHolds? || w.procs[a.i].CancelMarked?) {
      var pr := w.procs[a.i];
      AuditAppend(w.db.audits, Audit(pr.p, StatusChanged, Some(pr.copy.status), Cancelling));
      AuditAppend(w.db.audits, Audit(pr.p, StatusChanged, Some(Cancelling), PaymentStatus.Pending));
      AuditAppend(w.db.audits, Audit(pr.p, PaymentCancelled, Some(Cancelling), Cancelled));
    }
  }

  lemma WebhookChains(w: World, i: nat, fee: int, fault: Fault, p: nat)
    requires TrailAgrees(w.db) && i < |w.procs| && w.procs[i].WebhookHolds?
    ensures ChainedFor(DoWebhookCommit(w, i, fee, fault).db.audits, p) <==> ChainedFor(w.db.audits, p)
  {
    var pr := w.procs[i];
    if pr.p < |w.db.payments| {
      AuditAppend(w.db.audits, Audit(pr.p, WebhookReceived, Some(w.db.payments[pr.p].status), pr.event));
    }
  }

  lemma StepChains(w: World, a: Action, p: nat)
    requires TablesAgree(w.db, w.log) && CopiesPending(w) && p < |w.db.payments|
    ensures ChainedFor(Step(w, a).db.audits, p) <==> ChainedFor(w.db.audits, p) && !BreaksChain(w, a, p)
  {
    match a {
      case CancelTx1(_, _) => CancelChains(w, a, p);
      case CancelTx3(_, _, _, _) => CancelChains(w, a, p);
      case WebhookCommit(i, fee, fault) =>
        if i < |w.procs| && w.procs[i].WebhookHolds? { WebhookChains(w, i, fee, fault, p); }
      case Sweep(now, _) => SweepChains(w.db, w.log, |w.db.payments|, now, p);
      case _ => OtherStepTables(w, a, p);
    }
  }

  ghost predicate NoBrokenChain(actions: seq<Action>, p: nat) {
    actions == [] ||
    var front := actions[..|actions| - 1];
    NoBrokenChain(front, p)
    && (p < |Run(front).db.payments| ==> !BreaksChain(Run(front), actions[|actions| - 1], p))
  }

  /** Every audit row of a payment starts where the rows before it ended if and only if every committed mark of a
      cancel found it pending and every committed finish found it cancelling. */
  lemma {:induction false} AuditsChainIff(actions: seq<Action>, p: nat)
    ensures ChainedFor(Run(actions).db.audits, p) <==> NoBrokenChain(actions, p)
  {
    if actions != [] {
      var front, a := actions[..|actions| - 1], actions[|actions| - 1];
      AuditsChainIff(front, p);
      RunKeepsTables(front);
      RunCopiesPending(front);
      if p < |Run(front).db.payments| {
        StepChains(Run(front), a, p);
      } else {
        NewPaymentChains(Run(front), a, p);
      }
    }
  }

  /** A payment without rows yet chains, and so does its first. */
  lemma NewPaymentChains(w: World, a: Action, p: nat)
    requires TablesAgree(w.db, w.log) && p >= |w.db.payments|
    ensures ChainedFor(w.db.audits, p) && ChainedFor(Step(w, a).db.audits, p)
  {
    Unheard(w.db.audits, p);
    if a.Create? {
      AuditAppend(w.db.audits, Audit(|w.db.payments|, PaymentCreated, None, PaymentStatus.Pending));
    } else {
      StepKeepsTables(w, a);
      StepGrows(w, a);
      Unheard(Step(w, a).db.audits, p);
    }
  }

  // ---------- the committed webhooks ----------

  /** The committed webhooks appear one for one and in order in the audits, those to paid in the ledger and
      those with a callback URL in the outbox; what was credited is what was announced plus what had no URL. */
  lemma {:induction false} WebhookTablesMatch(actions: seq<Action>, m: MerchantId)
    ensures var w := Run(actions);
            && WebhookRows(w.db.audits) == RowsOf(w.log)
            && PaymentEntries(w.db.mutations) == CreditsOf(w.log)
            && PaymentEvents(w.db.outbox) == NoticesOf(w.log)
            && CashInNet(w.db.mutations, m) == AnnouncedNet(w.db.outbox, m) + SilentNet(w.log, m)
            && ((forall r <- w.log :: r.copy.merchant == m && r.event == Paid ==> r.url != "")
                ==> AnnouncedNet(w.db.outbox, m) == CashInNet(w.db.mutations, m))
  {
    RunKeepsTables(actions);
    var log := Run(actions).log;
    if forall r <- log :: r.copy.merchant == m && r.event == Paid ==> r.url != "" {
      NothingSilent(log, m);
    }
  }

  lemma {:induction false} NothingSilent(log: seq<Receipt>, m: MerchantId)
    requires forall r <- log :: r.copy.merchant == m && r.event == Paid ==> r.url != ""
    ensures SilentNet(log, m) == 0
  {
    if log != [] {
      assert log[|log| - 1] in log;
      NothingSilent(log[..|log| - 1], m);
    }
  }

  lemma PaidAllowed(w: World, i: nat, fee: int)
    requires CopiesFit(w) && TrailAgrees(w.db) && CreditsTell(w)
    requires i < |w.procs| && w.procs[i].WebhookHolds?
    requires w.procs[i].p < |w.db.payments| && !w.db.payments[w.procs[i].p].IsFinal()
    ensures var pr := w.procs[i];
            MutationAllowed(w.db.mutations, Credit(pr.p, pr.copy, fee))
            <==> 0 <= fee <= pr.copy.amount && pr.p !in w.erased
    ensures w.procs[i].p !in w.erased ==> EntriesOf(w.db.mutations, w.procs[i].p, RefPayment) == []
  {
    assert CopyFits(w.db, w.procs[i]) && CreditTells(w, w.procs[i].p);
  }

  lemma PaidCommit(w: World, i: nat, fee: int)
    requires CopiesFit(w) && i < |w.procs| && w.procs[i].WebhookHolds? && w.procs[i].event == Paid
    requires w.procs[i].p < |w.db.payments| && !w.db.payments[w.procs[i].p].IsFinal()
    requires MutationAllowed(w.db.mutations, Credit(w.procs[i].p, w.procs[i].copy, fee))
    ensures var p := w.procs[i].p;
            var db' := DoWebhookCommit(w, i, fee, Healthy).db;
            && p < |db'.payments| && db'.payments[p].status == Paid
            && EntriesOf(db'.mutations, p, RefPayment) == [Credit(p, db'.payments[p], fee)]
  {
    var pr := w.procs[i];
    assert CopyFits(w.db, pr);
    EntryAppend(w.db.mutations, Credit(pr.p, pr.copy, fee));
    var row := DoWebhookCommit(w, i, fee, Healthy).db.payments[pr.p];
    assert Credit(pr.p, row, fee) == Credit(pr.p, pr.copy, fee);
  }

  /** A confirmed payment is credited exactly when its fee does not exceed its amount and no cancel has overwritten
      an earlier paid row of it: otherwise a constraint of the ledger, on the fee or on the one entry per payment,
      rolls the whole webhook back, and so every later delivery of it. */
  lemma {:induction false} PaidWebhookCommitsIffFeeCovered(actions: seq<Action>, i: nat, fee: int)
    requires i < |Run(actions).procs| && Run(actions).procs[i].WebhookHolds? && Run(actions).procs[i].event == Paid
    requires Run(actions).procs[i].p < |Run(actions).db.payments|
    requires !Run(actions).db.payments[Run(actions).procs[i].p].IsFinal()
    ensures var p := Run(actions).procs[i].p;
            var w, w' := Run(actions), Run(actions + [WebhookCommit(i, fee, Healthy)]);
            var credited := p < |w'.db.payments| && w'.db.payments[p].status == Paid
                            && EntriesOf(w'.db.mutations, p, RefPayment) == [Credit(p, w'.db.payments[p], fee)];
            && (credited <==> 0 <= fee <= w.procs[i].copy.amount && p !in w.erased)
            && (!credited ==> w'.db == w.db)
  {
    var w := Run(actions);
    RunAppend(actions, WebhookCommit(i, fee, Healthy));
    RunKeepsTables(actions);
    RunKeepsCredits(actions);
    PaidAllowed(w, i, fee);
    WebhookIsStep(w, i, fee);
    if MutationAllowed(w.db.mutations, Credit(w.procs[i].p, w.procs[i].copy, fee)) {
      PaidCommit(w, i, fee);
    }
  }

  lemma WebhookIsStep(w: World, i: nat, fee: int)
    requires i < |w.procs| && w.procs[i].WebhookHolds?
    ensures Step(w, WebhookCommit(i, fee, Healthy)) == DoWebhookCommit(w, i, fee, Healthy)
    ensures !WebhookCommits(w.db, w.procs[i].p, w.procs[i].copy, w.procs[i].event, w.procs[i].url, fee, Healthy)
            ==> DoWebhookCommit(w, i, fee, Healthy).db == w.db
  {
  }

  /** A payment reopened after its credit is never paid again, and keeps its one credit. */
  lemma {:induction false} ErasedNeverPaid(actions: seq<Action>, more: seq<Action>, p: nat)
    requires p in Run(actions).erased
    ensures var w := Run(actions + more);
            && p in w.erased && p < |w.db.payments| && w.db.payments[p].status != Paid
            && |EntriesOf(w.db.mutations, p, RefPayment)| == 1
    decreases |more|
  {
    if more == [] {
      assert actions + more == actions;
    } else {
      var front, a := more[..|more| - 1], more[|more| - 1];
      assert actions + more == (actions + front) + [a];
      ErasedNeverPaid(actions, front, p);
      RunAppend(actions + front, a);
      StepGrows(Run(actions + front), a);
    }
    RunKeepsCredits(actions + more);
    assert CreditTells(Run(actions + more), p);
  }

  /** Layers that each fit the amount can still exceed it together. */
  lemma LayersCanExceedAmount()
    ensures var flat := Fees.MethodFee(Fees.Flat, 60, 0.0);
            var table := Fees.FeeTable(flat, flat, flat);
            var repo := Fees.FeeRepo(None, Some(Fees.Margin(true, table)), None);
            && Fees.SaneTable(table) && Fees.SaneRepo(repo)
            && Fees.ChargedFee(table, Fees.VA, 100, repo) == 120 > 100
  {
  }

  const Opened := Payment(0, 100, 10, "", PaymentStatus.Pending, None, None)

  /** A payment is created, read by a cancel, and then paid. */
  lemma PaidUnderCancel() returns (actions: seq<Action>)
    ensures var w := Run(actions);
            && w.db.payments == [Opened.(status := Paid, paidAt := Some(5))]
            && w.db.mutations == [Credit(0, Opened, 7)] && w.procs == [CancelHolds(0, Opened), Done]
  {
    var a0 := Create(0, 100, 10, "", Healthy);
    var a1 := CancelRead(0, 0);
    var a2 := WebhookRead(0, Paid, Some(5), "");
    var a3 := WebhookCommit(1, 7, Healthy);
    RunAppend([], a0);
    RunAppend([a0], a1);
    RunAppend([a0, a1], a2);
    RunAppend([a0, a1, a2], a3);
    assert [] + [a0] == [a0] && [a0] + [a1] == [a0, a1] && [a0, a1] + [a2] == [a0, a1, a2];
    assert Run([a0]).db.payments == [Opened];
    assert Run([a0, a1, a2]).procs == [CancelHolds(0, Opened), WebhookHolds(0, Opened, Paid, Some(5), "")];
    actions := [a0, a1, a2] + [a3];
  }

  // ---------- two cancels of one payment ----------

  predicate Marked(pr: Proc, p: nat) {
    pr.CancelMarked? && pr.p == p
  }

  /** A request past its mark was there before the step, or no other request was cancelling the payment. */
  lemma MarkedKept(w: World, a: Action, i: nat, p: nat)
    requires i < |Step(w, a).procs| && Marked(Step(w, a).procs[i], p)
    ensures (i < |w.procs| && Step(w, a).procs[i] == w.procs[i])
            || (a.CancelTx1? && a.i == i && i < |w.procs| && (OtherCancel(w, i, p) ==> p in Step(w, a).overlapped))
  {
  }

  /** Unless it was overlapped, at most one request is between the two transactions of a cancel. */
  lemma {:induction false} OneCancelAtWork(actions: seq<Action>, p: nat, i: nat, j: nat)
    requires i < j < |Run(actions).procs| && Marked(Run(actions).procs[i], p) && Marked(Run(actions).procs[j], p)
    ensures p in Run(actions).overlapped
  {
    var front, a := actions[..|actions| - 1], actions[|actions| - 1];
    var w := Run(front);
    StepGrows(w, a);
    MarkedKept(w, a, i, p);
    MarkedKept(w, a, j, p);
    if j < |w.procs| && Marked(w.procs[i], p) && Marked(w.procs[j], p) {
      OneCancelAtWork(front, p, i, j);
    } else if a.CancelTx1? && a.i == i {
      assert CancelOf(w.procs[j], p);
    } else {
      assert CancelOf(w.procs[i], p);
    }
  }

  // ---------- what a status guard would do ----------

  /** A mark finds the payment stored as pending, and a webhook does not make it pending. */
  ghost predicate Guards(w: World, a: Action, p: nat)
    requires p < |w.db.payments|
  {
    && (a.CancelTx1? && CancelCommits(w, a, p) ==> w.db.payments[p].status == PaymentStatus.Pending)
    && (a.WebhookCommit? && a.i < |w.procs| && w.procs[a.i].WebhookHolds? && w.procs[a.i].p == p
        ==> w.procs[a.i].event != PaymentStatus.Pending)
  }

  ghost predicate GuardedRun(actions: seq<Action>, p: nat) {
    actions == [] ||
    var front := actions[..|actions| - 1];
    GuardedRun(front, p) && (p < |Run(front).db.payments| ==> Guards(Run(front), actions[|actions| - 1], p))
  }

  ghost predicate AloneAtWork(w: World, p: nat) {
    && (forall i :: 0 <= i < |w.procs| && Marked(w.procs[i], p) ==>
          p < |w.db.payments| && w.db.payments[p].status != PaymentStatus.Pending)
    && (forall i, j :: 0 <= i < j < |w.procs| ==> !(Marked(w.procs[i], p) && Marked(w.procs[j], p)))
  }

  /** Only the request's own last transaction, or a webhook, makes a payment pending again. */
  lemma StaysNotPending(w: World, a: Action, p: nat)
    requires p < |w.db.payments| && w.db.payments[p].status != PaymentStatus.Pending && Guards(w, a, p)
    requires !(a.CancelTx3? && CancelCommits(w, a, p))
    ensures p < |Step(w, a).db.payments| && Step(w, a).db.payments[p].status != PaymentStatus.Pending
  {
    match a {
      case Sweep(now, _) => SweepIsSetUpdate(w.db, |w.db.payments|, now);
      case WebhookCommit(_, _, _) =>
      case CancelTx1(_, _) =>
      case CancelTx3(_, _, _, _) =>
      case _ => OtherStepTables(w, a, p);
    }
  }

  lemma MarkGuarded(w: World, a: Action, p: nat)
    requires a.CancelTx1? && CancelCommits(w, a, p)
    ensures p < |Step(w, a).db.payments| && Step(w, a).db.payments[p].status == Cancelling
  {
  }

  /** A request newly past its mark has committed it. */
  lemma NewlyMarked(w: World, a: Action, i: nat, p: nat)
    requires i < |Step(w, a).procs| && Marked(Step(w, a).procs[i], p) && !(i < |w.procs| && Marked(w.procs[i], p))
    ensures a.CancelTx1? && a.i == i && CancelCommits(w, a, p)
  {
  }

  lemma FinishedIsGone(w: World, a: Action, p: nat)
    requires a.CancelTx3? && CancelCommits(w, a, p)
    ensures |Step(w, a).procs| == |w.procs| && !Marked(Step(w, a).procs[a.i], p)
  {
  }

  lemma StepAlone(w: World, a: Action, p: nat, i: nat)
    requires AloneAtWork(w, p) && (p < |w.db.payments| ==> Guards(w, a, p))
    requires i < |Step(w, a).procs| && Marked(Step(w, a).procs[i], p)
    ensures p < |Step(w, a).db.payments| && Step(w, a).db.payments[p].status != PaymentStatus.Pending
    ensures forall j :: 0 <= j < |w.procs| && j != i ==> !Marked(w.procs[j], p)
  {
    if i < |w.procs| && Marked(w.procs[i], p) {
      if a.CancelTx3? && CancelCommits(w, a, p) {
        FinishedIsGone(w, a, p);
      }
      StaysNotPending(w, a, p);
    } else {
      NewlyMarked(w, a, i, p);
      MarkGuarded(w, a, p);
    }
  }

  /** If every mark found the stored status pending and no webhook made it pending, at most one request is at work,
      and the status it marked is not pending: a second mark could only have found another status. */
  lemma {:induction false} GuardAdmitsOneCancel(actions: seq<Action>, p: nat)
    requires GuardedRun(actions, p)
    ensures AloneAtWork(Run(actions), p)
  {
    if actions != [] {
      var front, a := actions[..|actions| - 1], actions[|actions| - 1];
      GuardAdmitsOneCancel(front, p);
      forall i | 0 <= i < |Run(actions).procs| && Marked(Run(actions).procs[i], p)
        ensures p < |Run(actions).db.payments| && Run(actions).db.payments[p].status != PaymentStatus.Pending
      {
        StepAlone(Run(front), a, p, i);
      }
      forall i, j | 0 <= i < j < |Run(actions).procs|
        ensures !(Marked(Run(actions).procs[i], p) && Marked(Run(actions).procs[j], p))
      {
        if Marked(Run(actions).procs[i], p) && Marked(Run(actions).procs[j], p) {
          SameMarked(Run(front), a, p, i, j);
        }
      }
    }
  }

  lemma SameMarked(w: World, a: Action, p: nat, i: nat, j: nat)
    requires AloneAtWork(w, p) && (p < |w.db.payments| ==> Guards(w, a, p))
    requires i < |Step(w, a).procs| && Marked(Step(w, a).procs[i], p)
    requires j < |Step(w, a).procs| && Marked(Step(w, a).procs[j], p)
    ensures i == j
  {
    StepAlone(w, a, p, i);
    if !(j < |w.procs| && Marked(w.procs[j], p)) {
      NewlyMarked(w, a, j, p);
      StepAlone(w, a, p, j);
      if i != j { NewlyMarked(w, a, i, p); }
    }
  }

  lemma MarkStep(w: World, i: nat, copy: Payment)
    requires i < |w.procs| && w.procs[i] == CancelHolds(0, copy) && |w.db.payments| == 1
    ensures var w' := Step(w, CancelTx1(i, Healthy));
            && w'.procs == w.procs[i := CancelMarked(0, copy)] && |w'.db.payments| == 1
            && w'.db.mutations == w.db.mutations && (w.db.payments[0].status == Paid ==> 0 in w'.erased)
  {
  }

  lemma FinishStep(w: World, i: nat, copy: Payment, providerOk: bool)
    requires i < |w.procs| && w.procs[i] == CancelMarked(0, copy) && |w.db.payments| == 1
    ensures var w' := Step(w, CancelTx3(i, providerOk, 6, Healthy));
            && w'.procs == w.procs[i := Done] && |w'.db.payments| == 1
            && w'.db.mutations == w.db.mutations && w.erased <= w'.erased
            && w'.db.payments[0].status == if providerOk then Cancelled else PaymentStatus.Pending
  {
  }

  /** Without the assumption on overlapping cancels the status claims fail: a cancel that read the payment
      before it was paid ends with a credited payment in status cancelled. */
  lemma StaleCancelErasesPaid()
    ensures exists actions: seq<Action> ::
              var w := Run(actions);
              && |w.db.payments| == 1 && w.db.payments[0].status == Cancelled
              && |EntriesOf(w.db.mutations, 0, RefPayment)| == 1 && 0 in w.erased
  {
    var paid := PaidUnderCancel();
    RunAppend(paid, CancelTx1(0, Healthy));
    MarkStep(Run(paid), 0, Opened);
    var marked := paid + [CancelTx1(0, Healthy)];
    RunAppend(marked, CancelTx3(0, true, 6, Healthy));
    FinishStep(Run(marked), 0, Opened, true);
    var ends := marked + [CancelTx3(0, true, 6, Healthy)];
    EntryAppend([], Credit(0, Opened, 7));
    assert Run(ends).db.mutations == [] + [Credit(0, Opened, 7)];
  }

  /** Two cancels that both read the payment while it was pending. */
  lemma TwoReadersRun() returns (actions: seq<Action>)
    ensures var w := Run(actions);
            w.db.payments == [Opened] && w.procs == [CancelHolds(0, Opened), CancelHolds(0, Opened)]
  {
    var a0 := Create(0, 100, 10, "", Healthy);
    var a1 := CancelRead(0, 0);
    RunAppend([], a0);
    RunAppend([a0], a1);
    RunAppend([a0, a1], a1);
    assert [] + [a0] == [a0] && [a0] + [a1] == [a0, a1];
    assert Run([a0]).db.payments == [Opened];
    actions := [a0, a1] + [a1];
  }

  /** The marking step does not keep two cancels apart: both are marked, and when the provider confirms the
      first and refuses the second, the cancelled payment is pending again. */
  lemma SecondCancelReopens() returns (actions: seq<Action>, last: Action)
    ensures |Run(actions).db.payments| == 1 && Run(actions).db.payments[0].status == Cancelled
    ensures |Run(actions + [last]).db.payments| == 1
    ensures Run(actions + [last]).db.payments[0].status == PaymentStatus.Pending
  {
    var r := TwoReadersRun();
    RunAppend(r, CancelTx1(0, Healthy));
    MarkStep(Run(r), 0, Opened);
    var one := r + [CancelTx1(0, Healthy)];
    RunAppend(one, CancelTx1(1, Healthy));
    MarkStep(Run(one), 1, Opened);
    var both := one + [CancelTx1(1, Healthy)];
    RunAppend(both, CancelTx3(0, true, 6, Healthy));
    FinishStep(Run(both), 0, Opened, true);
    actions, last := both + [CancelTx3(0, true, 6, Healthy)], CancelTx3(1, false, 6, Healthy);
    RunAppend(actions, last);
    FinishStep(Run(actions), 1, Opened, false);
  }
}
