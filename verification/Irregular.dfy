/** Concrete runs that break one regularity each, with the claims they lose: an immediate completion and split reads
    lose conservation; overlapped callbacks lose, in one order, the match of debit and status, and in the other,
    conservation, the overdraft bound and the daily limit; an empty id loses the hand-off. */
module Irregular {
  import opened Entities
  import opened Sums
  import opened Store
  import opened Trail
  import opened Platform
  import opened DisbursementClaims

  const Funding := Payment(0, 100, 10, "", PaymentStatus.Pending, None, None)
  const Funded := Credit(0, Funding, 0)

  function Row(externalId: string, status: DisbursementStatus): Disbursement {
    Disbursement(0, Xendit, 100, 0, 1, externalId, status)
  }

  // ---------- single steps ----------

  function Read(limit: int): Action {
    ReserveRead(0, Xendit, 100, 0, limit, 1)
  }

  function Held(w: World, limit: int): Proc {
    Reserving(0, Xendit, 100, 0, limit, 1, Balance(w.db.mutations, 0), CashOutTotal(w.db.mutations, 0))
  }

  predicate NoneReserving(w: World) {
    forall j :: 0 <= j < |w.procs| ==> !w.procs[j].Reserving?
  }

  predicate DayFree(w: World, limit: int) {
    limit > 0 ==> TodayTotal(w.db.disbursements, 0, 1) + 100 <= limit
  }

  /** A reservation of 100 more. */
  ghost predicate Reserved(w: World, w': World) {
    && w'.db == w.db.(disbursements := w.db.disbursements + [Row("", DisbursementStatus.Pending)])
    && |w'.procs| == |w.procs| + 1 && w'.procs[|w.procs|] == AwaitingAnswer(|w.db.disbursements|)
    && (forall j :: 0 <= j < |w.procs| ==> w'.procs[j] == w.procs[j]) && w'.undebited == w.undebited
  }

  /** It saw no debit between its reads, and this much completed without one. */
  ghost predicate SawAll(w': World, missed: int) {
    w'.TallyOf(0).slip == 0 && w'.TallyOf(0).feesSince == 0 && w'.TallyOf(0).missed == missed
  }

  lemma ReadStep(w: World, limit: int)
    requires NoneReserving(w)
    ensures Step(w, Read(limit)) == Spawn(w, Held(w, limit))
  {
  }

  /** A reservation of 100 by request i commits. */
  ghost predicate Committed(w: World, i: nat, slip: int, missed: int, w': World)
    requires i < |w.procs|
  {
    && w'.db == w.db.(disbursements := w.db.disbursements + [Row("", DisbursementStatus.Pending)])
    && w'.procs == w.procs[i := AwaitingAnswer(|w.db.disbursements|)] && w'.undebited == w.undebited
    && w'.TallyOf(0).slip == slip && w'.TallyOf(0).feesSince == 0 && w'.TallyOf(0).missed == missed
  }

  lemma CommitStep(w: World, i: nat, limit: int, balance: int, out: int)
    requires i < |w.procs| && w.procs[i] == Reserving(0, Xendit, 100, 0, limit, 1, balance, out)
    requires balance - PendingTotal(w.db.disbursements, 0) >= 100 && DayFree(w, limit)
    ensures Committed(w, i, CashOutTotal(w.db.mutations, 0) - out, GrossAmong(w.db.disbursements, w.undebited, 0),
                      DoReserveCommit(w, i, Healthy))
  {
  }

  lemma CommitIsStep(w: World, i: nat)
    requires i < |w.procs| && w.procs[i].Reserving?
    ensures Step(w, ReserveCommit(i, Healthy)) == DoReserveCommit(w, i, Healthy)
  {
  }

  lemma CommitAfterRead(w: World, s: World, limit: int)
    requires Balance(w.db.mutations, 0) - PendingTotal(w.db.disbursements, 0) >= 100 && DayFree(w, limit)
    requires s.db == w.db && s.procs == w.procs + [Held(w, limit)] && s.undebited == w.undebited
    ensures Committed(s, |w.procs|, 0, GrossAmong(w.db.disbursements, w.undebited, 0),
                      DoReserveCommit(s, |w.procs|, Healthy))
  {
    var held := Held(w, limit);
    CommitStep(s, |w.procs|, limit, held.balance, held.cashOutAtRead);
  }

  /** Reading and committing at once is a reservation. */
  lemma ReadAndCommit(actions: seq<Action>, limit: int)
    requires NoneReserving(Run(actions))
    ensures var w := Run(actions);
            Run(actions + [Read(limit)] + [ReserveCommit(|w.procs|, Healthy)])
            == DoReserveCommit(Spawn(w, Held(w, limit)), |w.procs|, Healthy)
  {
    var w := Run(actions);
    RunAppend(actions, Read(limit));
    ReadStep(w, limit);
    RunAppend(actions + [Read(limit)], ReserveCommit(|w.procs|, Healthy));
    CommitIsStep(Spawn(w, Held(w, limit)), |w.procs|);
  }

  lemma CommittedAtOnce(w: World, held: Proc, s: World, missed: int, w': World)
    requires s.db == w.db && s.procs == w.procs + [held] && s.undebited == w.undebited
    requires Committed(s, |w.procs|, 0, missed, w')
    ensures Reserved(w, w') && SawAll(w', missed)
  {
  }

  lemma AnswerStep(w: World, i: nat, d: nat, status: DisbursementStatus)
    requires i < |w.procs| && w.procs[i] == AwaitingAnswer(d) && d == 0 && |w.db.disbursements| == 1
    ensures var w' := Step(w, ProviderAnswers(i, Accepted("x", status), Healthy));
            && w'.db == w.db.(disbursements := [w.db.disbursements[0].(externalId := "x", status := status)])
            && w'.procs == w.procs[i := Done] && (status != Completed && w.undebited == {} ==> w'.undebited == {})
  {
  }

  lemma CallbackStep(w: World, i: nat, copy: Disbursement, outcome: DisbursementStatus)
    requires i < |w.procs| && w.procs[i] == CallbackHolds(0, copy, outcome, "") && |w.db.disbursements| >= 1
    requires copy.externalId == "" || copy.provider == w.db.disbursements[0].provider
    requires forall k :: 0 < k < |w.db.disbursements| ==> w.db.disbursements[k].externalId == ""
    requires w.db.disbursements[0].merchant == 0 && w.db.disbursements[0].fee == 0
    requires outcome == Completed ==>
               copy.amount == 100 && copy.fee == 0 && EntriesOf(w.db.mutations, 0, RefDisbursement) == []
    ensures var w' := Step(w, CallbackCommit(i, Healthy));
            && w'.db.disbursements == w.db.disbursements[0 := CalledBack(w.db.disbursements[0], copy, outcome)]
            && w'.db.mutations == (if outcome == Completed then w.db.mutations + [Debit(0, copy)] else w.db.mutations)
            && w'.procs == w.procs[i := Done] && (w.undebited == {} ==> w'.undebited == {})
            && w'.TallyOf(0).slip == w.TallyOf(0).slip && w'.TallyOf(0).missed == w.TallyOf(0).missed
            && w'.TallyOf(0).feesSince == w.TallyOf(0).feesSince
  {
  }

  const Spent := Debit(0, Row("x", Processing))

  lemma FundedLedger()
    ensures Balance([Funded], 0) == 100 && CashInNet([Funded], 0) == 100 && CashOutTotal([Funded], 0) == 0
    ensures Balance([Funded] + [Spent], 0) == 0 && CashInNet([Funded] + [Spent], 0) == 100
  {
    SumOfTwo(Funded, Spent, BalanceWeight(0));
    SumOfTwo(Funded, Spent, CashInWeight(0));
    SumOfTwo(Funded, Spent, CashOutWeight(0));
  }

  lemma FundedEntries()
    ensures EntriesOf([Funded], 0, RefDisbursement) == []
  {
    EntryAppend([], Funded);
    assert [] + [Funded] == [Funded];
  }

  /** One disbursement with this status, and another one reserved. */
  lemma RowsSums(status: DisbursementStatus)
    ensures var one := [Row("x", status)];
            var two := one + [Row("", DisbursementStatus.Pending)];
            && PendingTotal(one, 0) == (if Row("x", status).InFlight() then 100 else 0)
            && TodayTotal(one, 0, 1) == (if status != DisbursementStatus.Failed then 100 else 0)
            && PendingTotal(two, 0) == PendingTotal(one, 0) + 100
            && (status == Completed ==> NonFailedGross(two, 0) == 200 && DayGross(two, 0, 1) == 200)
  {
    var x, y := Row("x", status), Row("", DisbursementStatus.Pending);
    SumOfTwo(x, y, PendingWeight(0));
    SumOfTwo(x, y, TodayWeight(0, 1));
    SumOfTwo(x, y, NonFailedWeight(0));
    SumOfTwo(x, y, DayWeight(0, 1));
  }

  // ---------- common beginnings ----------

  /** A merchant with one credit of 100. */
  lemma FundedRun() returns (actions: seq<Action>)
    ensures Run(actions).db.mutations == [Funded] && Run(actions).db.disbursements == [] && Run(actions).procs == [Done]
    ensures Run(actions).undebited == {} && forall a <- actions :: !a.ReserveRead?
  {
    var a0, a1, a2 := Create(0, 100, 10, "", Healthy), WebhookRead(0, Paid, None, ""), WebhookCommit(0, 0, Healthy);
    RunAppend([], a0);
    assert [] + [a0] == [a0];
    assert Run([a0]) == Start.(db := Run([a0]).db) && Run([a0]).db.payments == [Funding];
    RunAppend([a0], a1);
    FundingRead(Run([a0]));
    RunAppend([a0] + [a1], a2);
    FundingCommit(Run([a0] + [a1]));
    actions := [a0] + [a1] + [a2];
  }

  lemma FundingRead(w: World)
    requires w.db.payments == [Funding] && w.procs == []
    ensures Step(w, WebhookRead(0, Paid, None, "")) == Spawn(w, WebhookHolds(0, Funding, Paid, None, ""))
  {
  }

  lemma FundingCommit(w: World)
    requires w.db.payments == [Funding] && w.db.mutations == [] && w.procs == [WebhookHolds(0, Funding, Paid, None, "")]
    ensures var w' := Step(w, WebhookCommit(0, 0, Healthy));
            && w'.db.mutations == [Funded] && w'.db.disbursements == w.db.disbursements && w'.procs == [Done]
            && w'.undebited == w.undebited
  {
  }

  /** A reservation of 100 goes through whenever 100 is unreserved and the limit leaves room. */
  lemma ReserveHundred(actions: seq<Action>, limit: int) returns (next: seq<Action>)
    requires Balance(Run(actions).db.mutations, 0) - PendingTotal(Run(actions).db.disbursements, 0) >= 100
    requires NoneReserving(Run(actions)) && DayFree(Run(actions), limit)
    ensures Reserved(Run(actions), Run(next))
    ensures SawAll(Run(next), GrossAmong(Run(actions).db.disbursements, Run(actions).undebited, 0))
    ensures limit > 0 && LimitedTo(actions, 0, limit) ==> LimitedTo(next, 0, limit)
  {
    var w := Run(actions);
    var s := Spawn(w, Held(w, limit));
    ReadAndCommit(actions, limit);
    CommitAfterRead(w, s, limit);
    next := actions + [Read(limit)] + [ReserveCommit(|w.procs|, Healthy)];
    CommittedAtOnce(w, Held(w, limit), s, GrossAmong(w.db.disbursements, w.undebited, 0), Run(next));
  }

  lemma ReservedRun(limit: int) returns (actions: seq<Action>)
    requires limit == 0 || limit == 100
    ensures var w := Run(actions);
            && w.db.mutations == [Funded] && w.db.disbursements == [Row("", DisbursementStatus.Pending)]
            && w.procs == [Done, AwaitingAnswer(0)] && w.undebited == {}
    ensures limit > 0 ==> LimitedTo(actions, 0, limit)
  {
    var r := FundedRun();
    FundedLedger();
    actions := ReserveHundred(r, limit);
  }

  lemma AnsweredRun(limit: int, status: DisbursementStatus) returns (actions: seq<Action>)
    requires limit == 0 || limit == 100
    ensures var w := Run(actions);
            && w.db.mutations == [Funded] && w.db.disbursements == [Row("x", status)] && w.procs == [Done, Done]
            && (status != Completed ==> w.undebited == {})
    ensures limit > 0 ==> LimitedTo(actions, 0, limit)
  {
    var r := ReservedRun(limit);
    RunAppend(r, ProviderAnswers(1, Accepted("x", status), Healthy));
    AnswerStep(Run(r), 1, 0, status);
    actions := r + [ProviderAnswers(1, Accepted("x", status), Healthy)];
  }

  /** The disbursement is processing and a completing callback has read it. */
  lemma CallbackPendingRun(limit: int) returns (actions: seq<Action>)
    requires limit == 0 || limit == 100
    ensures var w := Run(actions);
            && w.db.mutations == [Funded] && w.db.disbursements == [Row("x", Processing)] && w.undebited == {}
            && w.procs == [Done, Done, CallbackHolds(0, Row("x", Processing), Completed, "")]
    ensures limit > 0 ==> LimitedTo(actions, 0, limit)
  {
    var r := AnsweredRun(limit, Processing);
    RunAppend(r, CallbackRead(0, Xendit, "x", Completed, ""));
    actions := r + [CallbackRead(0, Xendit, "x", Completed, "")];
  }

  // ---------- what goes wrong ----------

  /** A provider that completes at once frees the reservation without a debit: the credit is spent twice. */
  lemma SyncCompletionOverspends()
    ensures exists actions: seq<Action> ::
              NonFailedGross(Run(actions).db.disbursements, 0) == 200 && CashInNet(Run(actions).db.mutations, 0) == 100
  {
    var r := AnsweredRun(0, Completed);
    FundedLedger();
    RowsSums(Completed);
    var t := ReserveHundred(r, 0);
    assert NonFailedGross(Run(t).db.disbursements, 0) == 200;
  }

  /** A debit that commits between the balance read and the pending read is seen by neither. */
  lemma SplitReadsOverspend()
    ensures exists actions: seq<Action> ::
              NonFailedGross(Run(actions).db.disbursements, 0) == 200 && CashInNet(Run(actions).db.mutations, 0) == 100
  {
    var r := CallbackPendingRun(0);
    RunAppend(r, Read(0));
    ReadStep(Run(r), 0);
    FundedLedger();
    var r1 := r + [Read(0)];
    assert Run(r1).procs[3] == Reserving(0, Xendit, 100, 0, 0, 1, 100, 0);
    var r2 := CompleteFirst(r1);
    ReserveAfterDebit(r2);
  }

  /** The completing callback commits. */
  lemma CompleteFirst(actions: seq<Action>) returns (next: seq<Action>)
    requires var w := Run(actions);
             && |w.procs| >= 3 && w.procs[2] == CallbackHolds(0, Row("x", Processing), Completed, "")
             && w.db.disbursements == [Row("x", Processing)] && w.db.mutations == [Funded]
    ensures var w, w' := Run(actions), Run(next);
            && w'.db.disbursements == [Row("x", Completed)] && w'.db.mutations == [Funded] + [Spent]
            && w'.procs == w.procs[2 := Done]
  {
    RunAppend(actions, CallbackCommit(2, Healthy));
    FundedEntries();
    CallbackStep(Run(actions), 2, Row("x", Processing), Completed);
    next := actions + [CallbackCommit(2, Healthy)];
  }

  /** The reservation goes through on the balance it read before the debit. */
  lemma ReserveAfterDebit(actions: seq<Action>)
    requires var w := Run(actions);
             && w.db.disbursements == [Row("x", Completed)] && w.db.mutations == [Funded] + [Spent]
             && |w.procs| == 4 && w.procs[3] == Reserving(0, Xendit, 100, 0, 0, 1, 100, 0)
    ensures var w := Run(actions + [ReserveCommit(3, Healthy)]);
            NonFailedGross(w.db.disbursements, 0) == 200 && CashInNet(w.db.mutations, 0) == 100
  {
    RunAppend(actions, ReserveCommit(3, Healthy));
    RowsSums(Completed);
    FundedLedger();
    CommitIsStep(Run(actions), 3);
    CommitStep(Run(actions), 3, 0, 100, 0);
  }

  /** A callback reporting this outcome reads the processing row. */
  lemma ReadAgain(actions: seq<Action>, outcome: DisbursementStatus) returns (next: seq<Action>)
    requires Run(actions).db.disbursements == [Row("x", Processing)]
    ensures Run(next) == Spawn(Run(actions), CallbackHolds(0, Row("x", Processing), outcome, ""))
    ensures LimitedTo(actions, 0, 100) ==> LimitedTo(next, 0, 100)
  {
    RunAppend(actions, CallbackRead(0, Xendit, "x", outcome, ""));
    next := actions + [CallbackRead(0, Xendit, "x", outcome, "")];
  }

  /** Two callbacks that both read an unsettled row: the second one fails a disbursement already debited. */
  lemma OverlappedCallbacksFailDebited()
    ensures exists actions: seq<Action> ::
              var w := Run(actions);
              && w.db.disbursements == [Row("x", DisbursementStatus.Failed)]
              && w.db.mutations == [Funded] + [Spent]
  {
    var r := CallbackPendingRun(0);
    var r1 := ReadAgain(r, DisbursementStatus.Failed);
    var r2 := CompleteFirst(r1);
    RunAppend(r2, CallbackCommit(3, Healthy));
    CallbackStep(Run(r2), 3, Row("x", Processing), DisbursementStatus.Failed);
    assert Run(r2 + [CallbackCommit(3, Healthy)]).db.disbursements == [Row("x", DisbursementStatus.Failed)];
  }

  /** A completing and a failing callback have both read the row, and the failing one commits. */
  lemma FailedUnderCallbackRun() returns (actions: seq<Action>)
    ensures var w := Run(actions);
            && w.db.mutations == [Funded] && w.db.disbursements == [Row("x", DisbursementStatus.Failed)]
            && w.procs == [Done, Done, CallbackHolds(0, Row("x", Processing), Completed, ""), Done] && w.undebited == {}
    ensures LimitedTo(actions, 0, 100)
  {
    var r := CallbackPendingRun(100);
    var r1 := ReadAgain(r, DisbursementStatus.Failed);
    RunAppend(r1, CallbackCommit(3, Healthy));
    CallbackStep(Run(r1), 3, Row("x", Processing), DisbursementStatus.Failed);
    actions := r1 + [CallbackCommit(3, Healthy)];
  }

  /** Its gross is then reserved again. */
  lemma ReservedAgainRun() returns (actions: seq<Action>)
    ensures var w := Run(actions);
            && w.db.mutations == [Funded] && SawAll(w, 0)
            && w.db.disbursements == [Row("x", DisbursementStatus.Failed), Row("", DisbursementStatus.Pending)]
            && |w.procs| >= 3 && w.procs[2] == CallbackHolds(0, Row("x", Processing), Completed, "")
    ensures LimitedTo(actions, 0, 100)
  {
    var r := FailedUnderCallbackRun();
    FundedLedger();
    RowsSums(DisbursementStatus.Failed);
    AmongNone(Run(r).db.disbursements, AmountWeight(0));
    actions := ReserveHundred(r, 100);
  }

  /** The same two callbacks in the other order, with a reservation between them: the completing one brings the
      failed disbursement back after its gross has been reserved again. With no debit slipped, none missed and no
      fees, the credit is spent twice, the balance is 100 below what is reserved, and the day is 100 over its limit. */
  lemma RevivedDisbursementOverspends()
    ensures exists actions: seq<Action> ::
              var w := Run(actions);
              && NonFailedGross(w.db.disbursements, 0) == 200 && CashInNet(w.db.mutations, 0) == 100
              && Balance(w.db.mutations, 0) - PendingTotal(w.db.disbursements, 0) == -100
              && w.TallyOf(0).slip == w.TallyOf(0).missed == w.TallyOf(0).feesSince == 0
              && LimitedTo(actions, 0, 100) && DayGross(w.db.disbursements, 0, 1) == 200
  {
    var r := ReservedAgainRun();
    RunAppend(r, CallbackCommit(2, Healthy));
    FundedEntries();
    CallbackStep(Run(r), 2, Row("x", Processing), Completed);
    var ends := r + [CallbackCommit(2, Healthy)];
    assert Run(ends).db.disbursements == [Row("x", Completed)] + [Row("", DisbursementStatus.Pending)];
    FundedLedger();
    RowsSums(Completed);
    assert NonFailedGross(Run(ends).db.disbursements, 0) == 200;
  }

  /** A callback without an external id finds a row still awaiting its provider, and is overwritten. */
  lemma EmptyIdIsOverwritten()
    ensures exists actions: seq<Action> ::
              var w := Run(actions);
              && w.db.disbursements == [Row("x", Processing)]
              && w.db.mutations == [Funded, Debit(0, Row("", DisbursementStatus.Pending))]
  {
    var r := CompletedWhileAwaitingRun();
    RunAppend(r, ProviderAnswers(1, Accepted("x", Processing), Healthy));
    AnswerStep(Run(r), 1, 0, Processing);
    assert Run(r + [ProviderAnswers(1, Accepted("x", Processing), Healthy)]).db.disbursements == [Row("x", Processing)];
  }

  lemma CompletedWhileAwaitingRun() returns (actions: seq<Action>)
    ensures var w := Run(actions);
            && w.db.disbursements == [Row("", Completed)] && |w.procs| >= 2 && w.procs[1] == AwaitingAnswer(0)
            && w.db.mutations == [Funded, Debit(0, Row("", DisbursementStatus.Pending))]
  {
    var r := ReservedRun(0);
    RunAppend(r, CallbackRead(0, Xendit, "", Completed, ""));
    var r1 := r + [CallbackRead(0, Xendit, "", Completed, "")];
    assert Run(r1).procs[2] == CallbackHolds(0, Row("", DisbursementStatus.Pending), Completed, "");
    RunAppend(r1, CallbackCommit(2, Healthy));
    FundedEntries();
    CallbackStep(Run(r1), 2, Row("", DisbursementStatus.Pending), Completed);
    actions := r1 + [CallbackCommit(2, Healthy)];
  }
}
