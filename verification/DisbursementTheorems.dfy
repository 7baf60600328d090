/** The claims about disbursements and money: for every run, with what each irregular write costs, then for
    the single write, with the stored status that decides it, then for runs without irregular writes. */
module DisbursementTheorems {
  import opened Entities
  import opened Sums
  import opened Store
  import opened Trail
  import opened Platform
  import opened PaymentClaims
  import opened DisbursementClaims

  // ---------- every run ----------

  /** A merchant's non-failed disbursements, not counting those brought back from failed since its last accepted
      reservation, never exceed its credits by more than what that reservation did not see: the debits between its
      two reads and the gross completed without a debit. */
  lemma {:induction false} Conservation(actions: seq<Action>, m: MerchantId)
    ensures var w := Run(actions);
            NonFailedGross(w.db.disbursements, m) - RevivedGross(w, m)
            <= CashInNet(w.db.mutations, m) + w.TallyOf(m).slip + w.TallyOf(m).missed
    ensures var w := Run(actions);
            (forall d <- w.revived :: d < |w.db.disbursements| ==> w.db.disbursements[d].merchant != m)
            ==> RevivedGross(w, m) == 0
  {
    RunKeepsMoney(actions, m);
    var w := Run(actions);
    if forall d <- w.revived :: d < |w.db.disbursements| ==> w.db.disbursements[d].merchant != m {
      NoneAmong(w.db.disbursements, w.revived, NonFailedWeight(m));
    }
  }

  lemma {:induction false} NoneAmong(ds: seq<Disbursement>, among: set<nat>, f: Disbursement -> int)
    requires forall d <- among :: d < |ds| ==> f(ds[d]) == 0
    ensures SumAmong(ds, among, f) == 0
  {
    if ds != [] {
      NoneAmong(ds[..|ds| - 1], among, f);
    }
  }

  /** The balance minus the reserved gross never falls below minus what happened since the last accepted
      reservation: the fees debited, the debits that slipped past its balance read, and the gross of settled rows
      debited or put in flight again. */
  lemma {:induction false} OverdraftBound(actions: seq<Action>, m: MerchantId)
    ensures var w := Run(actions);
            var t := w.TallyOf(m);
            && Balance(w.db.mutations, m) - PendingTotal(w.db.disbursements, m)
               >= -(t.feesSince + t.slip + t.reopenedSince)
            && PendingTotal(w.db.disbursements, m) >= 0
  {
    RunKeepsMoney(actions, m);
    RunPositive(actions);
    SumNonNegative(Run(actions).db.disbursements, PendingWeight(m));
  }

  lemma RunPositive(actions: seq<Action>)
    ensures forall k :: 0 <= k < |Run(actions).db.disbursements| ==> Run(actions).db.disbursements[k].amount > 0
  {
    RunKeepsDebits(actions);
    var w := Run(actions);
    forall k | 0 <= k < |w.db.disbursements|
      ensures w.db.disbursements[k].amount > 0
    {
      assert DebitState(w, k);
    }
  }

  /** With a positive limit, no day's non-failed gross exceeds it by more than the disbursements brought back since
      the last accepted reservation that counted the day. */
  lemma {:induction false} DailyLimit(actions: seq<Action>, m: MerchantId, most: int, day: int)
    requires LimitedTo(actions, m, most) && most >= 0
    ensures var w := Run(actions);
            && DayGross(w.db.disbursements, m, day) <= most + RevivedOnDay(w, m, day)
            && ((forall d <- w.dayRevived :: d < |w.db.disbursements| ==>
                   w.db.disbursements[d].merchant != m || w.db.disbursements[d].day != day)
                ==> DayGross(w.db.disbursements, m, day) <= most)
  {
    RunKeepsLimit(actions, m, most);
    var w := Run(actions);
    assert DayWithin(w, m, most, day);
    if forall d <- w.dayRevived :: d < |w.db.disbursements| ==>
         w.db.disbursements[d].merchant != m || w.db.disbursements[d].day != day
    {
      NoneAmong(w.db.disbursements, w.dayRevived, DayWeight(m, day));
    }
  }

  /** Completed means exactly one debit, of gross plus fee, and any other status none. */
  predicate DebitMatches(db: Db, d: nat)
    requires d < |db.disbursements|
  {
    var row := db.disbursements[d];
    EntriesOf(db.mutations, d, RefDisbursement) == if row.status == Completed then [Debit(d, row)] else []
  }

  /** In every run a disbursement has at most one debit, on its own terms, and debit and status match exactly for
      those neither completed without a debit nor given another status after it. */
  lemma {:induction false} DebitExactness(actions: seq<Action>, d: nat)
    requires d < |Run(actions).db.disbursements|
    ensures var w := Run(actions);
            var debits := EntriesOf(w.db.mutations, d, RefDisbursement);
            && (debits == [] || debits == [Debit(d, w.db.disbursements[d])])
            && (DebitMatches(w.db, d) <==> d !in w.undebited && d !in w.stranded)
  {
    RunKeepsDebits(actions);
    assert DebitState(Run(actions), d);
  }

  // ---------- the single write ----------

  /** The writes that part debit and status: a callback that takes a completed row elsewhere, and an answer that
      completes a row or takes a completed one elsewhere. */
  predicate Unmatches(w: World, a: Action, d: nat)
    requires d < |w.db.disbursements|
  {
    match a
    case CallbackCommit(i, fault) =>
      && i < |w.procs| && w.procs[i].CallbackHolds? && w.procs[i].d == d
      && CallbackCommits(w.db, d, w.procs[i].row, w.procs[i].outcome, w.procs[i].url, fault)
      && w.db.disbursements[d].status == Completed && w.procs[i].outcome != Completed
    case ProviderAnswers(i, answer, fault) =>
      && i < |w.procs| && w.procs[i].AwaitingAnswer? && w.procs[i].d == d && AnswerCommits(w.db, d, answer, fault)
      && ((w.db.disbursements[d].status == Completed) != (Answered(w.db.disbursements[d], answer).status == Completed))
    case _ => false
  }

  lemma CallbackMatches(
    db: Db, e: nat, copy: Disbursement, event: DisbursementStatus, url: string, fault: Fault, d: nat)
    requires CallbackCommits(db, e, copy, event, url, fault)
    requires CalledBack(db.disbursements[e], copy, copy.status) == copy
    requires d < |db.disbursements| && DebitMatches(db, d)
    ensures DebitMatches(Callback(db, e, copy, event, url, fault), d)
            <==> !(e == d && db.disbursements[d].status == Completed && event != Completed)
  {
    if e == d {
      CallbackRow(db, d, copy, event, url, fault);
    } else {
      EntryAppend(db.mutations, Debit(e, copy));
    }
  }

  lemma CallbackMatchesIff(w: World, i: nat, fault: Fault, d: nat)
    requires CopiesFit(w) && d < |w.db.disbursements| && DebitMatches(w.db, d)
    requires i < |w.procs| && w.procs[i].CallbackHolds?
    ensures var db' := DoCallbackCommit(w, i, fault).db;
            && d < |db'.disbursements|
            && (DebitMatches(db', d) <==> !Unmatches(w, CallbackCommit(i, fault), d))
  {
    var pr := w.procs[i];
    assert CopyFits(w.db, pr);
    if CallbackCommits(w.db, pr.d, pr.row, pr.outcome, pr.url, fault) {
      CallbackMatches(w.db, pr.d, pr.row, pr.outcome, pr.url, fault, d);
    }
  }

  lemma QuietMatches(w: World, a: Action, d: nat)
    requires d < |w.db.disbursements| && DebitMatches(w.db, d)
    requires !a.CallbackCommit? && !a.ProviderAnswers?
    ensures d < |Step(w, a).db.disbursements| && DebitMatches(Step(w, a).db, d)
  {
    if a.WebhookCommit? && a.i < |w.procs| && w.procs[a.i].WebhookHolds? {
      EntryAppend(w.db.mutations, Credit(w.procs[a.i].p, w.procs[a.i].copy, a.fee));
    }
  }

  lemma AnswerMatchesIff(w: World, i: nat, answer: Answer, fault: Fault, d: nat)
    requires d < |w.db.disbursements| && DebitMatches(w.db, d)
    requires i < |w.procs| && w.procs[i].AwaitingAnswer?
    ensures var db' := DoAnswer(w, i, answer, fault).db;
            && d < |db'.disbursements|
            && (DebitMatches(db', d) <==> !Unmatches(w, ProviderAnswers(i, answer, fault), d))
  {
    var row := w.db.disbursements[d];
    assert Debit(d, Answered(row, answer)) == Debit(d, row);
  }

  lemma StepMatchesIff(w: World, a: Action, d: nat)
    requires CopiesFit(w) && d < |w.db.disbursements| && DebitMatches(w.db, d)
    ensures d < |Step(w, a).db.disbursements|
    ensures DebitMatches(Step(w, a).db, d) <==> !Unmatches(w, a, d)
  {
    match a {
      case CallbackCommit(i, fault) =>
        if i < |w.procs| && w.procs[i].CallbackHolds? { CallbackMatchesIff(w, i, fault, d); }
      case ProviderAnswers(i, answer, fault) =>
        if i < |w.procs| && w.procs[i].AwaitingAnswer? { AnswerMatchesIff(w, i, answer, fault, d); }
      case _ => QuietMatches(w, a, d);
    }
  }

  /** From any reachable state in which debit and status match, a step parts them exactly when it is such a write. */
  lemma {:induction false} DebitKeptIff(actions: seq<Action>, a: Action, d: nat)
    requires d < |Run(actions).db.disbursements| && DebitMatches(Run(actions).db, d)
    ensures d < |Run(actions + [a]).db.disbursements|
    ensures DebitMatches(Run(actions + [a]).db, d) <==> !Unmatches(Run(actions), a, d)
  {
    RunAppend(actions, a);
    RunKeepsTables(actions);
    StepMatchesIff(Run(actions), a, d);
  }

  /** How far a new status on row d moves the bounds of its own merchant. */
  lemma StatusMovesSums(ds: seq<Disbursement>, d: nat, row: Disbursement)
    requires d < |ds| && row.amount > 0
    requires SameTerms(row, ds[d])
    ensures var m, revives := row.merchant, Revives(ds[d], row.status);
            && (NonFailedGross(ds[d := row], m) <= NonFailedGross(ds, m) <==> !revives)
            && (DayGross(ds[d := row], m, row.day) <= DayGross(ds, m, row.day) <==> !revives)
            && PendingTotal(ds[d := row], m)
               == PendingTotal(ds, m) - Is(ds[d].InFlight(), row.amount) + Is(row.InFlight(), row.amount)
  {
    RowSums(ds, d, row, row.merchant);
    SumUpdate(ds, d, row, DayWeight(row.merchant, row.day));
  }

  lemma CallbackMovesBounds(w: World, i: nat, fault: Fault)
    requires CopiesFit(w) && Debits(w) && i < |w.procs| && w.procs[i].CallbackHolds?
    requires var pr := w.procs[i]; CallbackCommits(w.db, pr.d, pr.row, pr.outcome, pr.url, fault)
    ensures var pr, w' := w.procs[i], DoCallbackCommit(w, i, fault);
            var row := w.db.disbursements[pr.d];
            && w'.db.disbursements == w.db.disbursements[pr.d := CalledBack(row, pr.row, pr.outcome)]
            && CalledBack(row, pr.row, pr.outcome).amount > 0
            && (Room(w', row.merchant) >= Room(w, row.merchant)
                <==> !(row.IsFinal() && pr.outcome != DisbursementStatus.Failed))
  {
    var pr := w.procs[i];
    assert CopyFits(w.db, pr) && DebitState(w, pr.d);
    var row := CalledBack(w.db.disbursements[pr.d], pr.row, pr.outcome);
    CallbackSums(w, i, fault, row.merchant);
    StatusMovesSums(w.db.disbursements, pr.d, row);
  }

  /** A committed callback raises the non-failed gross of its merchant, and of its row's day, exactly when the stored
      row was failed and the outcome is not; it takes room exactly when the stored row was settled and the outcome
      is not failed. So these stored statuses decide whether it keeps every bound above. */
  lemma {:induction false} CallbackKeepsBounds(actions: seq<Action>, i: nat, fault: Fault)
    requires i < |Run(actions).procs| && Run(actions).procs[i].CallbackHolds?
    requires var w := Run(actions);
             var pr := w.procs[i];
             CallbackCommits(w.db, pr.d, pr.row, pr.outcome, pr.url, fault)
    ensures var w, w' := Run(actions), Run(actions + [CallbackCommit(i, fault)]);
            var outcome, row := w.procs[i].outcome, w.db.disbursements[w.procs[i].d];
            var m := row.merchant;
            && (NonFailedGross(w'.db.disbursements, m) <= NonFailedGross(w.db.disbursements, m)
                <==> !Revives(row, outcome))
            && (DayGross(w'.db.disbursements, m, row.day) <= DayGross(w.db.disbursements, m, row.day)
                <==> !Revives(row, outcome))
            && (Room(w', m) >= Room(w, m) <==> !(row.IsFinal() && outcome != DisbursementStatus.Failed))
  {
    var w := Run(actions);
    var pr := w.procs[i];
    RunAppend(actions, CallbackCommit(i, fault));
    assert Step(w, CallbackCommit(i, fault)) == DoCallbackCommit(w, i, fault);
    RunKeepsTables(actions);
    RunKeepsDebits(actions);
    CallbackMovesBounds(w, i, fault);
    StatusMovesSums(w.db.disbursements, pr.d, CalledBack(w.db.disbursements[pr.d], pr.row, pr.outcome));
  }

  lemma AnswerMovesRoom(w: World, i: nat, a: Answer, fault: Fault)
    requires Debits(w) && i < |w.procs| && w.procs[i].AwaitingAnswer? && AnswerCommits(w.db, w.procs[i].d, a, fault)
    ensures var row, w' := w.db.disbursements[w.procs[i].d], DoAnswer(w, i, a, fault);
            && w'.db.disbursements == w.db.disbursements[w.procs[i].d := Answered(row, a)] && row.amount > 0
            && (Room(w', row.merchant) >= Room(w, row.merchant) <==> !(row.IsFinal() && Answered(row, a).InFlight()))
  {
    assert DebitState(w, w.procs[i].d);
    StatusMovesSums(w.db.disbursements, w.procs[i].d, Answered(w.db.disbursements[w.procs[i].d], a));
  }

  /** The same of the provider's answer: it takes room only from a settled row put in flight. */
  lemma {:induction false} AnswerKeepsBounds(actions: seq<Action>, i: nat, a: Answer, fault: Fault)
    requires i < |Run(actions).procs| && Run(actions).procs[i].AwaitingAnswer?
    requires AnswerCommits(Run(actions).db, Run(actions).procs[i].d, a, fault)
    ensures var w, w' := Run(actions), Run(actions + [ProviderAnswers(i, a, fault)]);
            var row := w.db.disbursements[w.procs[i].d];
            var row' := Answered(row, a);
            var m := row.merchant;
            && (NonFailedGross(w'.db.disbursements, m) <= NonFailedGross(w.db.disbursements, m)
                <==> !Revives(row, row'.status))
            && (DayGross(w'.db.disbursements, m, row.day) <= DayGross(w.db.disbursements, m, row.day)
                <==> !Revives(row, row'.status))
            && (Room(w', m) >= Room(w, m) <==> !(row.IsFinal() && row'.InFlight()))
  {
    var w := Run(actions);
    var d := w.procs[i].d;
    RunAppend(actions, ProviderAnswers(i, a, fault));
    assert Step(w, ProviderAnswers(i, a, fault)) == DoAnswer(w, i, a, fault);
    RunKeepsDebits(actions);
    AnswerMovesRoom(w, i, a, fault);
    StatusMovesSums(w.db.disbursements, d, Answered(w.db.disbursements[d], a));
  }

  /** An accepted reservation leaves its gross covered, and conserves, exactly when what was debited between its two
      reads is made up by what its check left over and what was credited between them; for conservation the gross
      completed without a debit counts with the debits, and debits beyond the completed gross count against them. */
  lemma {:induction false} ReservationKeepsBounds(actions: seq<Action>, i: nat, fault: Fault)
    requires i < |Run(actions).procs| && Run(actions).procs[i].Reserving?
    requires var w := Run(actions);
             var pr := w.procs[i];
             ReserveCommits(w.db, pr.m, pr.amount, pr.fee, pr.limit, pr.day, pr.balance, fault)
    ensures var w, w' := Run(actions), Run(actions + [ReserveCommit(i, fault)]);
            var pr, ds := w.procs[i], w.db.disbursements;
            var left := pr.balance - PendingTotal(ds, pr.m) - pr.amount;
            var debited := CashOutTotal(w.db.mutations, pr.m) - pr.cashOutAtRead;
            var credited := CashInNet(w.db.mutations, pr.m) - (pr.balance + pr.cashOutAtRead);
            && left >= 0 && debited >= 0 && credited >= 0
            && (Balance(w'.db.mutations, pr.m) >= PendingTotal(w'.db.disbursements, pr.m)
                <==> debited <= left + credited)
            && (NonFailedGross(w'.db.disbursements, pr.m) <= CashInNet(w'.db.mutations, pr.m)
                <==> debited + GrossAmong(ds, w.undebited, pr.m)
                     <= left + credited + GrossAmong(ds, w.stranded, pr.m) + w.TallyOf(pr.m).feesTotal)
  {
    var w := Run(actions);
    var pr := w.procs[i];
    RunAppend(actions, ReserveCommit(i, fault));
    assert Step(w, ReserveCommit(i, fault)) == DoReserveCommit(w, i, fault);
    RunKeepsDebits(actions);
    RunKeepsReads(actions);
    RunKeepsMoney(actions, pr.m);
    ReservationMovesBounds(w, i, fault);
  }

  lemma ReservationMovesBounds(w: World, i: nat, fault: Fault)
    requires Debits(w) && i < |w.procs| && w.procs[i].Reserving? && DebitsAddUp(w, w.procs[i].m)
    requires var pr := w.procs[i];
             ReserveCommits(w.db, pr.m, pr.amount, pr.fee, pr.limit, pr.day, pr.balance, fault)
    ensures var w', pr, ds := DoReserveCommit(w, i, fault), w.procs[i], w.db.disbursements;
            var m := pr.m;
            && w'.db.mutations == w.db.mutations
            && Balance(w.db.mutations, m) == CashInNet(w.db.mutations, m) - CashOutTotal(w.db.mutations, m)
            && PendingTotal(w'.db.disbursements, m) == PendingTotal(ds, m) + pr.amount
            && NonFailedGross(w'.db.disbursements, m)
               == PendingTotal(ds, m) + pr.amount + CashOutTotal(w.db.mutations, m) + GrossAmong(ds, w.undebited, m)
                  - GrossAmong(ds, w.stranded, m) - w.TallyOf(m).feesTotal
  {
    var pr := w.procs[i];
    NewRowSums(w, Disbursement(pr.m, pr.provider, pr.amount, pr.fee, pr.day, "", DisbursementStatus.Pending), pr.m);
    SplitNonFailed(w.db.disbursements, pr.m);
    BalanceIsInMinusOut(w.db.mutations, pr.m);
  }

  // ---------- the initiating request ----------

  /** When callbacks carry external ids, a request awaiting its provider still owns its row as reserved and
      no callback holds it: its single write of id and status overwrites nobody's outcome. */
  lemma {:induction false} InitiatorOwnsRow(actions: seq<Action>, i: nat, j: nat)
    requires IdsNonEmpty(actions) && i < |Run(actions).procs| && Run(actions).procs[i].AwaitingAnswer?
    ensures var w := Run(actions);
            var d := w.procs[i].d;
            && d < |w.db.disbursements| && w.db.disbursements[d].AsReserved()
            && (j < |w.procs| && w.procs[j].CallbackHolds? ==> w.procs[j].d != d)
            && (j < |w.procs| && w.procs[j].AwaitingAnswer? && i != j ==> w.procs[j].d != d)
  {
    RunKeepsHandOff(actions);
    var w := Run(actions);
    assert HandedOver(w.db, w.procs[i]);
    if j < |w.procs| && i != j && (w.procs[j].CallbackHolds? || w.procs[j].AwaitingAnswer?) {
      AnswererAlone(w, i, j);
    }
  }

  /** In every run: a request awaiting its provider is the only one to, its row has no id, and callbacks on that
      row hold none either. */
  ghost predicate Awaits(w: World) {
    && (forall i :: 0 <= i < |w.procs| ==> AwaitsEmpty(w.db, w.procs[i]))
    && (forall i, j :: 0 <= i < |w.procs| && 0 <= j < |w.procs| ==> Apart(w, i, j))
  }

  ghost predicate AwaitsEmpty(db: Db, pr: Proc) {
    pr.AwaitingAnswer? ==> pr.d < |db.disbursements| && db.disbursements[pr.d].externalId == ""
  }

  ghost predicate Apart(w: World, i: nat, j: nat)
    requires i < |w.procs| && j < |w.procs|
  {
    var pr, other := w.procs[i], w.procs[j];
    && (i != j && pr.AwaitingAnswer? && other.AwaitingAnswer? ==> pr.d != other.d)
    && (pr.AwaitingAnswer? && other.CallbackHolds? && pr.d == other.d ==> other.row.externalId == "")
  }

  lemma StepAwaitsEmpty(w: World, a: Action, i: nat)
    requires CopiesFit(w) && Awaits(w) && i < |Step(w, a).procs|
    ensures AwaitsEmpty(Step(w, a).db, Step(w, a).procs[i])
  {
    StepHolds(w, a, i);
    var pr := Step(w, a).procs[i];
    if pr.AwaitingAnswer? && i < |w.procs| && pr == w.procs[i] {
      assert AwaitsEmpty(w.db, pr);
      if a.ProviderAnswers? && a.i < |w.procs| && w.procs[a.i].AwaitingAnswer? {
        AnsweredEnds(w, a);
        assert Apart(w, i, a.i);
        StepRow(w, a, pr.d);
      } else if a.CallbackCommit? && a.i < |w.procs| && w.procs[a.i].CallbackHolds? {
        assert Apart(w, i, a.i);
        CallbackWritesId(w, a, pr.d);
      } else {
        StepRow(w, a, pr.d);
      }
    }
  }

  lemma CallbackWritesId(w: World, a: Action, d: nat)
    requires a.CallbackCommit? && a.i < |w.procs| && w.procs[a.i].CallbackHolds? && d < |w.db.disbursements|
    ensures d < |Step(w, a).db.disbursements|
    ensures Step(w, a).db.disbursements[d].externalId == w.db.disbursements[d].externalId
            || (w.procs[a.i].d == d && Step(w, a).db.disbursements[d].externalId == w.procs[a.i].row.externalId)
  {
  }

  lemma StepApart(w: World, a: Action, i: nat, j: nat)
    requires CopiesFit(w) && Awaits(w) && i < |Step(w, a).procs| && j < |Step(w, a).procs|
    ensures Apart(Step(w, a), i, j)
  {
    StepHolds(w, a, i);
    StepHolds(w, a, j);
    if i < |w.procs| { assert AwaitsEmpty(w.db, w.procs[i]); }
    if j < |w.procs| { assert AwaitsEmpty(w.db, w.procs[j]) && CopyFits(w.db, w.procs[j]); }
    if i < |w.procs| && j < |w.procs| { assert Apart(w, i, j); }
  }

  lemma {:induction false} RunKeepsAwaits(actions: seq<Action>)
    ensures Awaits(Run(actions))
  {
    if actions != [] {
      var front, a := actions[..|actions| - 1], actions[|actions| - 1];
      RunKeepsTables(front);
      RunKeepsAwaits(front);
      forall i | 0 <= i < |Run(actions).procs|
        ensures AwaitsEmpty(Run(actions).db, Run(actions).procs[i])
      {
        StepAwaitsEmpty(Run(front), a, i);
      }
      forall i, j | 0 <= i < |Run(actions).procs| && 0 <= j < |Run(actions).procs|
        ensures Apart(Run(actions), i, j)
      {
        StepApart(Run(front), a, i, j);
      }
    }
  }

  /** What lets another request at a row that awaits its provider: in every run, exactly a callback with an empty
      id for the row's provider, while the row is unsettled; every callback that holds the row holds no id. */
  lemma {:induction false} EmptyIdAdmitsCallback(actions: seq<Action>, i: nat, j: nat, a: Action)
    requires i < |Run(actions).procs| && Run(actions).procs[i].AwaitingAnswer?
    requires a.CallbackRead? && a.d == Run(actions).procs[i].d
    ensures var w := Run(actions);
            && a.d < |w.db.disbursements| && w.db.disbursements[a.d].externalId == ""
            && (|Run(actions + [a]).procs| > |w.procs| <==>
                  a.externalId == "" && a.provider == w.db.disbursements[a.d].provider
                  && !w.db.disbursements[a.d].IsFinal())
            && (j < |w.procs| && w.procs[j].CallbackHolds? && w.procs[j].d == a.d ==> w.procs[j].row.externalId == "")
            && (j < |w.procs| && w.procs[j].AwaitingAnswer? && j != i ==> w.procs[j].d != a.d)
  {
    RunKeepsAwaits(actions);
    RunAppend(actions, a);
    var w := Run(actions);
    assert AwaitsEmpty(w.db, w.procs[i]);
    assert j < |w.procs| ==> Apart(w, i, j);
  }

  /** A disbursement failed by a provider error has no external id and is never revived. */
  lemma {:induction false} RefusedStaysFailed(actions: seq<Action>, more: seq<Action>, d: nat)
    requires IdsNonEmpty(actions + more) && d < |Run(actions).db.disbursements|
    requires Run(actions).db.disbursements[d].externalId == ""
    requires Run(actions).db.disbursements[d].status == DisbursementStatus.Failed
    ensures d < |Run(actions + more).db.disbursements|
    ensures Run(actions + more).db.disbursements[d] == Run(actions).db.disbursements[d]
    decreases |more|
  {
    if more == [] {
      assert actions + more == actions;
    } else {
      var front, a := more[..|more| - 1], more[|more| - 1];
      assert actions + more == (actions + front) + [a];
      assert forall x <- actions + front :: x in actions + more;
      RunAppend(actions + front, a);
      RefusedStaysFailed(actions, front, d);
      RunKeepsHandOff(actions + front);
      var w := Run(actions + front);
      if (a.ProviderAnswers? || a.CallbackCommit?) && a.i < |w.procs| {
        assert HandedOver(w.db, w.procs[a.i]);
      }
      StepRow(w, a, d);
    }
  }

  // ---------- runs without irregular events ----------

  /** Callbacks carry ids and run one at a time per disbursement, a reservation's reads see one snapshot,
      and no provider answers "completed" at once. */
  ghost predicate Regular(w: World, a: Action) {
    match a
    case CallbackRead(d, _, externalId, _, _) =>
      externalId != "" && forall i :: 0 <= i < |w.procs| && w.procs[i].CallbackHolds? ==> w.procs[i].d != d
    case ReserveCommit(i, _) =>
      i < |w.procs| && w.procs[i].Reserving? ==> CashOutTotal(w.db.mutations, w.procs[i].m) == w.procs[i].cashOutAtRead
    case ProviderAnswers(_, answer, _) => !(answer.Accepted? && answer.status == Completed)
    case _ => true
  }

  ghost predicate RegularRun(actions: seq<Action>) {
    actions == [] ||
    (RegularRun(actions[..|actions| - 1]) && Regular(Run(actions[..|actions| - 1]), actions[|actions| - 1]))
  }

  ghost predicate CallbackCurrent(db: Db, pr: Proc) {
    pr.CallbackHolds? ==> pr.d < |db.disbursements| && !db.disbursements[pr.d].IsFinal()
  }

  ghost predicate NothingIrregular(w: World) {
    && w.undebited == {} && w.stranded == {} && w.revived == {} && w.dayRevived == {}
    && (forall m :: w.TallyOf(m).slip == 0 && w.TallyOf(m).missed == 0 && w.TallyOf(m).reopenedSince == 0)
    && (forall i :: 0 <= i < |w.procs| ==> CallbackCurrent(w.db, w.procs[i]))
    && (forall i, j :: 0 <= i < j < |w.procs| && w.procs[i].CallbackHolds? && w.procs[j].CallbackHolds?
                       ==> w.procs[i].d != w.procs[j].d)
  }

  lemma {:induction false} RegularHasIds(actions: seq<Action>)
    requires RegularRun(actions)
    ensures IdsNonEmpty(actions)
  {
    if actions != [] {
      RegularHasIds(actions[..|actions| - 1]);
    }
  }

  lemma RegularHistory(w: World, a: Action)
    requires HandOff(w) && NothingIrregular(w) && Regular(w, a)
    ensures Step(w, a).undebited == {} && Step(w, a).stranded == {}
    ensures Step(w, a).revived == {} && Step(w, a).dayRevived == {}
  {
    if (a.ProviderAnswers? || a.CallbackCommit?) && a.i < |w.procs| {
      assert HandedOver(w.db, w.procs[a.i]) && CallbackCurrent(w.db, w.procs[a.i]);
    }
  }

  lemma RegularTally(w: World, a: Action, m: MerchantId)
    requires HandOff(w) && NothingIrregular(w) && Regular(w, a)
    ensures var t := Step(w, a).TallyOf(m); t.slip == 0 && t.missed == 0 && t.reopenedSince == 0
  {
    var t := w.TallyOf(m);
    assert t.slip == 0 && t.missed == 0 && t.reopenedSince == 0;
    if (a.ProviderAnswers? || a.CallbackCommit?) && a.i < |w.procs| {
      assert HandedOver(w.db, w.procs[a.i]) && CallbackCurrent(w.db, w.procs[a.i]);
    } else if a.ReserveCommit? && a.i < |w.procs| && w.procs[a.i].Reserving? {
      AmongNone(w.db.disbursements, AmountWeight(w.procs[a.i].m));
    }
  }

  lemma CallbackEnds(w: World, a: Action)
    requires a.CallbackCommit? && a.i < |w.procs| && w.procs[a.i].CallbackHolds?
    ensures Step(w, a).procs == w.procs[a.i := Done]
  {
  }

  lemma CallbackReadIsCurrent(w: World, a: Action, i: nat)
    requires a.CallbackRead? && i < |Step(w, a).procs|
    ensures |w.procs| <= i ==>
              && CallbackCurrent(Step(w, a).db, Step(w, a).procs[i])
              && Step(w, a).procs[i].CallbackHolds? && Step(w, a).procs[i].d == a.d
    ensures i < |w.procs| ==> Step(w, a).procs[i] == w.procs[i]
  {
  }

  lemma RegularCurrent(w: World, a: Action, i: nat)
    requires HandOff(w) && NothingIrregular(w) && Regular(w, a) && i < |Step(w, a).procs|
    ensures CallbackCurrent(Step(w, a).db, Step(w, a).procs[i])
  {
    StepHolds(w, a, i);
    var pr := Step(w, a).procs[i];
    if a.CallbackRead? {
      CallbackReadIsCurrent(w, a, i);
      assert i < |w.procs| ==> CallbackCurrent(w.db, w.procs[i]);
    } else if pr.CallbackHolds? {
      assert CallbackCurrent(w.db, w.procs[i]);
      if a.ProviderAnswers? && a.i < |w.procs| && w.procs[a.i].AwaitingAnswer? {
        AnswererAlone(w, a.i, i);
      } else if a.CallbackCommit? && a.i < |w.procs| && w.procs[a.i].CallbackHolds? {
        CallbackEnds(w, a);
      }
      StepRow(w, a, pr.d);
    }
  }

  lemma RegularExclusive(w: World, a: Action, i: nat, j: nat)
    requires NothingIrregular(w) && Regular(w, a) && i < j < |Step(w, a).procs|
    requires Step(w, a).procs[i].CallbackHolds? && Step(w, a).procs[j].CallbackHolds?
    ensures Step(w, a).procs[i].d != Step(w, a).procs[j].d
  {
    if a.CallbackRead? {
      CallbackReadIsCurrent(w, a, i);
      CallbackReadIsCurrent(w, a, j);
    } else {
      StepHolds(w, a, i);
      StepHolds(w, a, j);
    }
  }

  lemma {:induction false} RunStaysRegular(actions: seq<Action>)
    requires RegularRun(actions)
    ensures NothingIrregular(Run(actions))
  {
    if actions != [] {
      var front, a := actions[..|actions| - 1], actions[|actions| - 1];
      var w, w' := Run(front), Run(actions);
      RegularHasIds(front);
      RunKeepsHandOff(front);
      RunStaysRegular(front);
      RegularHistory(w, a);
      forall m: MerchantId
        ensures w'.TallyOf(m).slip == 0 && w'.TallyOf(m).missed == 0 && w'.TallyOf(m).reopenedSince == 0
      {
        RegularTally(w, a, m);
      }
      forall i | 0 <= i < |w'.procs|
        ensures CallbackCurrent(w'.db, w'.procs[i])
      {
        RegularCurrent(w, a, i);
      }
      forall i, j | 0 <= i < j < |w'.procs| && w'.procs[i].CallbackHolds? && w'.procs[j].CallbackHolds?
        ensures w'.procs[i].d != w'.procs[j].d
      {
        RegularExclusive(w, a, i, j);
      }
    }
  }

  /** In a regular run money is conserved, a balance with no fees debited since the last reservation covers
      what is reserved, and completed disbursements are exactly the debited ones. */
  lemma {:induction false} RegularRunsConserve(actions: seq<Action>, m: MerchantId)
    requires RegularRun(actions)
    ensures var w := Run(actions);
            && NonFailedGross(w.db.disbursements, m) <= CashInNet(w.db.mutations, m)
            && Balance(w.db.mutations, m) - PendingTotal(w.db.disbursements, m) >= -w.TallyOf(m).feesSince
            && (w.TallyOf(m).feesTotal == 0 ==> Balance(w.db.mutations, m) >= PendingTotal(w.db.disbursements, m) >= 0)
            && CashOutTotal(w.db.mutations, m) == CompletedGross(w.db.disbursements, m) + w.TallyOf(m).feesTotal
            && forall d :: 0 <= d < |w.db.disbursements| ==> DebitMatches(w.db, d)
  {
    RunStaysRegular(actions);
    var w := Run(actions);
    Conservation(actions, m);
    OverdraftBound(actions, m);
    RunKeepsMoney(actions, m);
    AmongNone(w.db.disbursements, NonFailedWeight(m));
    AmongNone(w.db.disbursements, AmountWeight(m));
    forall d | 0 <= d < |w.db.disbursements|
      ensures DebitMatches(w.db, d)
    {
      DebitExactness(actions, d);
    }
  }
}
