/** The database as the use cases drive it: one write after another inside a transaction, any of which
    may fail, with a rollback to the state before it. Each transaction method is proved equal to its
    function in Store, which says that no partial write survives. */
module Database {
  import opened Entities
  import opened Store
  import opened Sums

  class Tables {
    var payments: seq<Payment>
    var disbursements: seq<Disbursement>
    var mutations: seq<Mutation>
    var audits: seq<Audit>
    var outbox: seq<Event>

    constructor ()
      ensures Value() == EmptyDb
    {
      payments, disbursements, mutations, audits, outbox := [], [], [], [], [];
    }

    function Value(): Db
      reads this
    {
      Db(payments, disbursements, mutations, audits, outbox)
    }

    /** The end of RunInTx: commit when the body succeeded and the commit does, otherwise roll back. */
    method EndTx(bodyOk: bool, begin: Db, fault: Fault) returns (ok: bool)
      modifies this
      ensures ok == (bodyOk && fault != AtCommit)
      ensures Value() == if ok then old(Value()) else begin
    {
      ok := bodyOk && fault != AtCommit;
      if !ok {
        payments, disbursements, mutations := begin.payments, begin.disbursements, begin.mutations;
        audits, outbox := begin.audits, begin.outbox;
      }
    }

    method UpdatePayment(p: nat, copy: Payment, fault: Fault) returns (ok: bool)
      requires p < |payments|
      modifies `payments
      ensures ok == (fault != AtUpdate)
      ensures payments == if ok then old(payments)[p := WithColumns(old(payments)[p], copy)] else old(payments)
    {
      ok := fault != AtUpdate;
      if ok {
        var row := payments[p];
        row := row.(status := copy.status, paidAt := copy.paidAt, cancelledAt := copy.cancelledAt);
        payments := payments[p := row];
      }
    }

    method InsertAudit(a: Audit, fault: Fault) returns (ok: bool)
      modifies `audits
      ensures ok == (fault != AtAudit)
      ensures audits == if ok then old(audits) + [a] else old(audits)
    {
      ok := fault != AtAudit;
      if ok {
        audits := audits + [a];
      }
    }

    method InsertMutation(m: Mutation, fault: Fault) returns (ok: bool)
      modifies `mutations
      ensures ok == (fault != AtMutation && MutationAllowed(old(mutations), m))
      ensures mutations == if ok then old(mutations) + [m] else old(mutations)
    {
      ok := fault != AtMutation && MutationAllowed(mutations, m);
      if ok {
        mutations := mutations + [m];
      }
    }

    method InsertOutbox(e: Event, fault: Fault) returns (ok: bool)
      modifies `outbox
      ensures ok == (fault != AtOutbox)
      ensures outbox == if ok then old(outbox) + [e] else old(outbox)
    {
      ok := fault != AtOutbox;
      if ok {
        outbox := outbox + [e];
      }
    }

    method UpdateDisbursement(d: nat, copy: Disbursement, fault: Fault) returns (ok: bool)
      requires d < |disbursements|
      modifies `disbursements
      ensures ok == (fault != AtUpdate
                     && ExternalIdFree(old(disbursements), d, CalledBack(old(disbursements)[d], copy, copy.status)))
      ensures disbursements == if ok then old(disbursements)[d := CalledBack(old(disbursements)[d], copy, copy.status)]
                               else old(disbursements)
    {
      var row := disbursements[d].(status := copy.status, externalId := copy.externalId);
      ok := fault != AtUpdate && ExternalIdFree(disbursements, d, row);
      if ok {
        disbursements := disbursements[d := row];
      }
    }

    // ---------- payments ----------

    method SavePaymentWithAudit(merchant: MerchantId, amount: int, expiryAt: Time, callbackUrl: string, fault: Fault)
      returns (ok: bool)
      modifies this
      ensures Value() == CreatePayment(old(Value()), merchant, amount, expiryAt, callbackUrl, fault)
      ensures ok == CreateCommits(amount, fault)
    {
      var begin := Value();
      ok := amount > 0 && fault != AtUpdate;
      if ok {
        payments := payments + [Payment(merchant, amount, expiryAt, callbackUrl, PaymentStatus.Pending, None, None)];
        ok := InsertAudit(Audit(|payments| - 1, PaymentCreated, None, PaymentStatus.Pending), fault);
      }
      ok := EndTx(ok, begin, fault);
    }

    /** A status write and its audit row. */
    method WriteStatusRows(p: nat, row: Payment, kind: AuditKind, before: PaymentStatus, fault: Fault)
      returns (ok: bool)
      requires p < |payments|
      modifies `payments, `audits
      ensures ok == Survives(fault, {AtUpdate, AtAudit})
      ensures ok ==> Value() == WriteStatus(old(Value()), p, row, kind, before)
    {
      ok := UpdatePayment(p, row, fault);
      if ok {
        ok := InsertAudit(Audit(p, kind, Some(before), row.status), fault);
      }
    }

    /** The ledger and outbox writes that follow the status write of a webhook. */
    method CreditAndNotify(p: nat, row: Payment, url: string, fee: int, fault: Fault) returns (ok: bool)
      modifies `mutations, `outbox
      ensures ok == ((row.status == Paid ==>
                        fault != AtMutation && MutationAllowed(old(mutations), Credit(p, row, fee)))
                     && (url != "" ==> fault != AtOutbox))
      ensures ok ==> mutations == Grow(old(mutations), row.status == Paid, Credit(p, row, fee))
      ensures ok ==> outbox == Grow(old(outbox), url != "", Notice(p, row, row.status, url, fee))
    {
      ok := true;
      var charged := 0;
      if row.status == Paid {
        charged := fee;
        ok := InsertMutation(Mutation(p, RefPayment, row.merchant, CashIn, row.amount, charged), fault);
      }
      if ok && url != "" {
        var net := row.amount - charged;
        ok := InsertOutbox(PaymentEvent(p, row.merchant, row.status, url, row.amount, charged, net), fault);
      }
    }

    /** The body of the webhook transaction, in the order of its writes. */
    method WebhookWrites(
      p: nat, copy: Payment, event: PaymentStatus, paidAt: Option<Time>, url: string, fee: int, fault: Fault)
      returns (ok: bool)
      requires fault != AtCommit
      modifies this
      ensures ok == (p < |old(payments)| && fault != AtRead
                     && (old(payments)[p].IsFinal() || WebhookCommits(old(Value()), p, copy, event, url, fee, fault)))
      ensures ok ==> Value() == Webhook(old(Value()), p, copy, event, paidAt, url, fee, fault)
    {
      ok := p < |payments| && fault != AtRead;
      if !ok { return; }
      var locked := payments[p];
      if locked.IsFinal() { return; }
      var row := copy;
      row := row.(status := event);
      if event == Paid {
        row := row.(paidAt := paidAt);
      }
      ok := WriteStatusRows(p, row, WebhookReceived, locked.status, fault);
      if !ok { return; }
      ok := CreditAndNotify(p, row, url, fee, fault);
    }

    method WebhookTx(
      p: nat, copy: Payment, event: PaymentStatus, paidAt: Option<Time>, url: string, fee: int, fault: Fault)
      returns (ok: bool)
      modifies this
      ensures Value() == Webhook(old(Value()), p, copy, event, paidAt, url, fee, fault)
      ensures ok == (p < |old(payments)| && fault != AtRead && fault != AtCommit
                     && (old(payments)[p].IsFinal() || WebhookCommits(old(Value()), p, copy, event, url, fee, fault)))
    {
      var begin := Value();
      ok := WebhookWrites(p, copy, event, paidAt, url, fee, if fault == AtCommit then Healthy else fault);
      ok := EndTx(ok, begin, fault);
    }

    method StatusTx(p: nat, row: Payment, kind: AuditKind, before: PaymentStatus, fault: Fault) returns (ok: bool)
      modifies this
      ensures ok == StatusWriteCommits(old(Value()), p, fault)
      ensures Value() == if ok then WriteStatus(old(Value()), p, row, kind, before) else old(Value())
    {
      var begin := Value();
      ok := p < |payments|;
      if ok {
        ok := WriteStatusRows(p, row, kind, before, fault);
      }
      ok := EndTx(ok, begin, fault);
    }

    method CancelMarkTx(p: nat, copy: Payment, fault: Fault) returns (ok: bool)
      modifies this
      ensures Value() == CancelMark(old(Value()), p, copy, fault)
      ensures ok == StatusWriteCommits(old(Value()), p, fault)
    {
      ok := StatusTx(p, copy.(status := Cancelling), StatusChanged, copy.status, fault);
    }

    method CancelFinishTx(p: nat, copy: Payment, providerOk: bool, now: Time, fault: Fault) returns (ok: bool)
      modifies this
      ensures Value() == CancelFinish(old(Value()), p, copy, providerOk, now, fault)
      ensures ok == StatusWriteCommits(old(Value()), p, fault)
    {
      var row := copy;
      if providerOk {
        row := row.(status := Cancelled, cancelledAt := Some(now));
        ok := StatusTx(p, row, PaymentCancelled, Cancelling, fault);
      } else {
        row := row.(status := PaymentStatus.Pending, cancelledAt := None);
        ok := StatusTx(p, row, StatusChanged, Cancelling, fault);
      }
    }

    /** The sweep visits the rows one by one; a failure on the way undoes the rows already expired. */
    method ExpirePayments(now: Time, fault: Fault) returns (ok: bool)
      modifies this
      ensures Value() == ExpireSweep(old(Value()), now, fault)
    {
      var begin := Value();
      var i := 0;
      while i < |payments|
        invariant |payments| == |begin.payments| && i <= |payments|
        invariant Value() == ExpireUpTo(begin, i, now)
      {
        if payments[i].status == PaymentStatus.Pending && payments[i].expiryAt < now {
          payments := payments[i := payments[i].(status := Expired)];
          audits := audits + [Audit(i, PaymentExpired, Some(PaymentStatus.Pending), Expired)];
        }
        i := i + 1;
      }
      ok := EndTx(fault != AtUpdate, begin, fault);
    }

    // ---------- disbursements ----------

    /** The reservation transaction after its balance read. */
    method ReserveTx(
      m: MerchantId, provider: Provider, amount: int, fee: int, limit: int, day: int, balance: int, fault: Fault)
      returns (ok: bool)
      modifies this
      ensures Value() == Reserve(old(Value()), m, provider, amount, fee, limit, day, balance, fault)
      ensures ok == ReserveCommits(old(Value()), m, amount, fee, limit, day, balance, fault)
    {
      var begin := Value();
      ok := fault != AtRead;
      if ok {
        var available := balance - PendingTotal(disbursements, m);
        ok := available >= amount;
        if ok && limit > 0 {
          var todayTotal := TodayTotal(disbursements, m, day);
          ok := todayTotal + amount <= limit;
        }
        if ok {
          ok := fault != AtUpdate && amount > 0 && 0 <= fee <= amount;
        }
        if ok {
          var row := Disbursement(m, provider, amount, fee, day, "", DisbursementStatus.Pending);
          disbursements := disbursements + [row];
        }
      }
      ok := EndTx(ok, begin, fault);
    }

    /** The write after the provider call: a refusal fails the row, an acceptance stores id and status together. */
    method StoreProviderAnswer(d: nat, held: Disbursement, a: Answer, fault: Fault) returns (ok: bool)
      requires held.externalId == ""
      modifies this
      ensures Value() == StoreAnswer(old(Value()), d, a, fault)
      ensures ok == AnswerCommits(old(Value()), d, a, fault)
    {
      var begin := Value();
      ok := d < |disbursements|;
      if ok {
        var row := held;
        match a {
          case Refused =>
            row := row.(status := DisbursementStatus.Failed);
          case Accepted(id, status) =>
            row := row.(externalId := id);
            row := row.(status := status);
        }
        ok := UpdateDisbursement(d, row, fault);
      }
      ok := EndTx(ok, begin, fault);
    }

    /** The ledger and outbox writes that follow the status write of a callback. */
    method DebitAndNotify(d: nat, copy: Disbursement, event: DisbursementStatus, url: string, fault: Fault)
      returns (ok: bool)
      modifies `mutations, `outbox
      ensures ok == ((event == Completed ==> fault != AtMutation && MutationAllowed(old(mutations), Debit(d, copy)))
                     && (url != "" ==> fault != AtOutbox))
      ensures ok ==> mutations == Grow(old(mutations), event == Completed, Debit(d, copy))
      ensures ok ==> outbox == Grow(old(outbox), url != "",
                                    DisbursementEvent(d, copy.merchant, event, url, copy.amount, copy.fee))
    {
      ok := true;
      if event == Completed {
        ok := InsertMutation(Mutation(d, RefDisbursement, copy.merchant, CashOut, copy.amount + copy.fee, 0), fault);
      }
      if ok && url != "" {
        ok := InsertOutbox(DisbursementEvent(d, copy.merchant, event, url, copy.amount, copy.fee), fault);
      }
    }

    method CallbackTx(d: nat, copy: Disbursement, event: DisbursementStatus, url: string, fault: Fault)
      returns (ok: bool)
      modifies this
      ensures Value() == Callback(old(Value()), d, copy, event, url, fault)
      ensures ok == CallbackCommits(old(Value()), d, copy, event, url, fault)
    {
      var begin := Value();
      ok := d < |disbursements|;
      if ok {
        ok := UpdateDisbursement(d, copy.(status := event), fault);
      }
      if ok {
        ok := DebitAndNotify(d, copy, event, url, fault);
      }
      ok := EndTx(ok, begin, fault);
    }
  }
}
