/** What can be read back from the append-only tables: the audit trail of a payment, and the webhook
    commits that audits, ledger and outbox each record in their own way. */
module Trail {
  import opened Entities
  import opened Sums
  import opened Store

  // ---------- audits ----------

  /** The status an audit trail folds to. */
  function Replay(audits: seq<Audit>, p: nat): Option<PaymentStatus> {
    if audits == [] then None
    else
      var last := audits[|audits| - 1];
      if last.payment == p then Some(last.after) else Replay(audits[..|audits| - 1], p)
  }

  /** Every webhook and expiry row starts from the status the rows before it fold to. */
  ghost predicate Chained(audits: seq<Audit>) {
    audits == [] ||
    var front, last := audits[..|audits| - 1], audits[|audits| - 1];
    && Chained(front)
    && (last.kind == WebhookReceived || last.kind == PaymentExpired ==> last.before == Replay(front, last.payment))
  }

  /** Every row of this payment, of whatever kind, starts from the status the rows before it fold to. */
  ghost predicate ChainedFor(audits: seq<Audit>, p: nat) {
    audits == [] ||
    var front, last := audits[..|audits| - 1], audits[|audits| - 1];
    ChainedFor(front, p) && (last.payment == p ==> last.before == Replay(front, p))
  }

  function PaidWebhooks(audits: seq<Audit>, p: nat): nat {
    if audits == [] then 0
    else
      var last := audits[|audits| - 1];
      PaidWebhooks(audits[..|audits| - 1], p)
      + if last.payment == p && last.kind == WebhookReceived && last.after == Paid then 1 else 0
  }

  function WebhookRows(audits: seq<Audit>): seq<Audit> {
    if audits == [] then []
    else
      var last := audits[|audits| - 1];
      Grow(WebhookRows(audits[..|audits| - 1]), last.kind == WebhookReceived, last)
  }

  lemma AuditAppend(audits: seq<Audit>, x: Audit)
    ensures forall p: nat :: Replay(audits + [x], p) == if x.payment == p then Some(x.after) else Replay(audits, p)
    ensures Chained(audits + [x]) <==>
              && Chained(audits)
              && (x.kind == WebhookReceived || x.kind == PaymentExpired ==> x.before == Replay(audits, x.payment))
    ensures forall p: nat :: ChainedFor(audits + [x], p) <==>
              ChainedFor(audits, p) && (x.payment == p ==> x.before == Replay(audits, p))
    ensures forall p: nat :: PaidWebhooks(audits + [x], p) ==
              PaidWebhooks(audits, p) + if x.payment == p && x.kind == WebhookReceived && x.after == Paid then 1 else 0
    ensures WebhookRows(audits + [x]) == Grow(WebhookRows(audits), x.kind == WebhookReceived, x)
  {
    assert (audits + [x])[..|audits|] == audits;
  }

  lemma EntryAppend(ms: seq<Mutation>, m: Mutation)
    ensures forall id: nat, ty :: EntriesOf(ms + [m], id, ty) ==
              Grow(EntriesOf(ms, id, ty), m.refId == id && m.refType == ty, m)
  {
    assert (ms + [m])[..|ms|] == ms;
  }

  // ---------- webhook commits ----------

  /** One committed webhook transaction. */
  datatype Receipt = Receipt(
    payment: nat, before: PaymentStatus, copy: Payment, event: PaymentStatus, url: string, fee: int)

  function AuditOf(r: Receipt): Audit {
    Audit(r.payment, WebhookReceived, Some(r.before), r.event)
  }

  function RowsOf(log: seq<Receipt>): seq<Audit> {
    if log == [] then [] else RowsOf(log[..|log| - 1]) + [AuditOf(log[|log| - 1])]
  }

  function CreditsOf(log: seq<Receipt>): seq<Mutation> {
    if log == [] then []
    else
      var r := log[|log| - 1];
      Grow(CreditsOf(log[..|log| - 1]), r.event == Paid, Credit(r.payment, r.copy, r.fee))
  }

  function NoticesOf(log: seq<Receipt>): seq<Event> {
    if log == [] then []
    else
      var r := log[|log| - 1];
      Grow(NoticesOf(log[..|log| - 1]), r.url != "", Notice(r.payment, r.copy, r.event, r.url, r.fee))
  }

  function PaymentEntries(ms: seq<Mutation>): seq<Mutation> {
    if ms == [] then []
    else Grow(PaymentEntries(ms[..|ms| - 1]), ms[|ms| - 1].refType == RefPayment, ms[|ms| - 1])
  }

  function PaymentEvents(es: seq<Event>): seq<Event> {
    if es == [] then []
    else Grow(PaymentEvents(es[..|es| - 1]), es[|es| - 1].PaymentEvent?, es[|es| - 1])
  }

  function PaidNoticeWeight(m: MerchantId): Event -> int {
    (e: Event) => if e.PaymentEvent? && e.merchant == m && e.status == Paid then e.net else 0
  }

  function SilentWeight(m: MerchantId): Receipt -> int {
    (r: Receipt) => if r.copy.merchant == m && r.event == Paid && r.url == "" then r.copy.amount - r.fee else 0
  }

  /** The NetAmounts that payment.paid payloads have announced to a merchant. */
  function AnnouncedNet(es: seq<Event>, m: MerchantId): int {
    SumBy(es, PaidNoticeWeight(m))
  }

  /** The nets credited by webhooks that had no callback URL. */
  function SilentNet(log: seq<Receipt>, m: MerchantId): int {
    SumBy(log, SilentWeight(m))
  }

  lemma ReceiptAppend(log: seq<Receipt>, r: Receipt)
    ensures RowsOf(log + [r]) == RowsOf(log) + [AuditOf(r)]
    ensures CreditsOf(log + [r]) == Grow(CreditsOf(log), r.event == Paid, Credit(r.payment, r.copy, r.fee))
    ensures NoticesOf(log + [r]) == Grow(NoticesOf(log), r.url != "", Notice(r.payment, r.copy, r.event, r.url, r.fee))
  {
    assert (log + [r])[..|log|] == log;
  }

  lemma PaymentTablesAppend(ms: seq<Mutation>, m: Mutation, es: seq<Event>, e: Event)
    ensures PaymentEntries(ms + [m]) == Grow(PaymentEntries(ms), m.refType == RefPayment, m)
    ensures PaymentEvents(es + [e]) == Grow(PaymentEvents(es), e.PaymentEvent?, e)
  {
    assert (ms + [m])[..|ms|] == ms;
    assert (es + [e])[..|es|] == es;
  }
}
