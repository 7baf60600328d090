/** Rows of the platform's tables and the predicates the domain layer puts on them.
    A row id is the position of the row in its table: ids are fresh and rows are never deleted. */
module Entities {
  datatype Option<+T> = None | Some(value: T)

  type MerchantId = nat
  type Time = int

  datatype Provider = Midtrans | Xendit | Doku | IPaymu

  datatype PaymentStatus = Pending | Cancelling | Paid | Expired | Failed | Cancelled

  /** The columns that cancel, webhook and expiry write (status, paidAt, cancelledAt),
      and those fixed at creation. */
  datatype Payment = Payment(
    merchant: MerchantId, amount: int, expiryAt: Time, callbackUrl: string,
    status: PaymentStatus, paidAt: Option<Time>, cancelledAt: Option<Time>)
  {
    predicate IsFinal() {
      status == Paid || status == Expired || status == PaymentStatus.Failed || status == Cancelled
    }

    predicate CanCancel() {
      status == PaymentStatus.Pending
    }

    /** The merchant's own URL unless the payment carries one. */
    function CallbackUrl(merchantUrl: string): string {
      if callbackUrl != "" then callbackUrl else merchantUrl
    }
  }

  datatype DisbursementStatus = Pending | Processing | Completed | Failed

  datatype Disbursement = Disbursement(
    merchant: MerchantId, provider: Provider, amount: int, fee: int, day: int,
    externalId: string, status: DisbursementStatus)
  {
    predicate IsFinal() {
      status == Completed || status == DisbursementStatus.Failed
    }

    predicate InFlight() {
      status == DisbursementStatus.Pending || status == Processing
    }

    /** As the reservation inserted it: no provider answer stored yet. */
    predicate AsReserved() {
      status == DisbursementStatus.Pending && externalId == ""
    }
  }

  datatype MutationType = CashIn | CashOut
  datatype ReferenceType = RefPayment | RefDisbursement

  datatype Mutation = Mutation(
    refId: nat, refType: ReferenceType, merchant: MerchantId,
    kind: MutationType, amount: int, fee: int)
  {
    function NetAmount(): int {
      if kind == CashIn then amount - fee else amount
    }
  }

  datatype AuditKind = PaymentCreated | StatusChanged | WebhookReceived | PaymentCancelled | PaymentExpired

  datatype Audit = Audit(payment: nat, kind: AuditKind, before: Option<PaymentStatus>, after: PaymentStatus)

  /** An outbox row as the use cases insert it. */
  datatype Event =
    | PaymentEvent(payment: nat, merchant: MerchantId, status: PaymentStatus, url: string,
                   amount: int, fee: int, net: int)
    | DisbursementEvent(disbursement: nat, merchant: MerchantId, outcome: DisbursementStatus, url: string,
                        amount: int, fee: int)
}
