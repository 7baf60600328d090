/** Layered fees. Percentages are exact rationals; the conversion to whole IDR truncates towards zero. */
module Fees {
  import opened Entities

  datatype FeeType = Unset | Flat | Percentage | Other
  datatype MethodFee = MethodFee(kind: FeeType, amount: int, percentage: real)
  datatype Method = VA | QRIS | CC | Payout

  const NoFee := MethodFee(Unset, 0, 0.0)

  datatype FeeTable = FeeTable(va: MethodFee, qris: MethodFee, disbursement: MethodFee)
  {
    /** The configured fee of a method; cards have none. */
    function For(m: Method): MethodFee {
      match m
      case VA => va
      case QRIS => qris
      case CC => NoFee
      case Payout => disbursement
    }
  }

  /** What the fee repository answers; None is a failed read. A missing holiday is no surcharge. */
  datatype FeeRepo = FeeRepo(defaults: Option<FeeTable>, margin: Option<Margin>, surcharge: Option<MethodFee>)
  datatype Margin = Margin(enabled: bool, table: FeeTable)

  datatype Resolution = Resolution(base: int, platform: int, holiday: int, total: int, fromContract: bool)

  function Truncate(x: real): int {
    if x >= 0.0 then x.Floor else -((-x).Floor)
  }

  function Share(amount: real, percentage: real): real {
    amount * percentage / 100.0
  }

  function ComputeMethodFee(f: MethodFee, amount: int): int {
    match f.kind
    case Flat => if f.amount > amount then amount else f.amount
    case Percentage => Truncate(Share(amount as real, f.percentage))
    case Unset => 0
    case Other => 0
  }

  predicate IsZeroFee(f: MethodFee) {
    f.kind == Unset || (f.amount == 0 && f.percentage == 0.0)
  }

  /** Merchant contract first, then the global default, read only when the contract is empty. */
  function MerchantFee(contract: FeeTable, m: Method, repo: FeeRepo): Option<(MethodFee, bool)> {
    if !IsZeroFee(contract.For(m)) then Some((contract.For(m), true))
    else if repo.defaults.None? then None
    else Some((repo.defaults.value.For(m), false))
  }

  /** `resolve` for payments and `ResolveDisbursement` for payouts: None is the error path. */
  function Resolve(contract: FeeTable, m: Method, amount: int, repo: FeeRepo): Option<Resolution> {
    var chosen := MerchantFee(contract, m, repo);
    if chosen.None? || repo.margin.None? then None
    else
      var base := ComputeMethodFee(chosen.value.0, amount);
      var margin := repo.margin.value;
      var platform := if margin.enabled then ComputeMethodFee(margin.table.For(m), amount) else 0;
      var holiday := if repo.surcharge.Some? then ComputeMethodFee(repo.surcharge.value, amount) else 0;
      Some(Resolution(base, platform, holiday, base + platform + holiday, chosen.value.1))
  }

  /** Both callers fall back to a zero fee when resolution fails. */
  function ChargedFee(contract: FeeTable, m: Method, amount: int, repo: FeeRepo): int {
    match Resolve(contract, m, amount, repo)
    case Some(r) => r.total
    case None => 0
  }

  predicate SaneFee(f: MethodFee) {
    f.amount >= 0 && 0.0 <= f.percentage <= 100.0
  }

  predicate SaneTable(t: FeeTable) {
    SaneFee(t.va) && SaneFee(t.qris) && SaneFee(t.disbursement)
  }

  predicate SaneRepo(r: FeeRepo) {
    && (r.defaults.Some? ==> SaneTable(r.defaults.value))
    && (r.margin.Some? ==> SaneTable(r.margin.value.table))
    && (r.surcharge.Some? ==> SaneFee(r.surcharge.value))
  }

  lemma ShareMonotone(a: real, b: real, p: real)
    requires 0.0 <= a <= b && 0.0 <= p <= 100.0
    ensures 0.0 <= Share(a, p) <= Share(b, p) && Share(a, p) <= a
  {
    assert 0.0 <= a * p <= b * p;
    assert a * p <= a * 100.0;
  }

  lemma TruncateMonotone(x: real, y: real, n: nat)
    requires 0.0 <= x <= y && x <= n as real
    ensures 0 <= Truncate(x) <= n && Truncate(x) <= Truncate(y)
  {
    assert x.Floor as real <= x < x.Floor as real + 1.0;
    assert y.Floor as real <= y < y.Floor as real + 1.0;
  }

  lemma LayerBounds(f: MethodFee, a: int, b: int)
    requires SaneFee(f) && 0 <= a <= b
    ensures 0 <= ComputeMethodFee(f, a) <= a
    ensures ComputeMethodFee(f, a) <= ComputeMethodFee(f, b)
  {
    if f.kind == Percentage {
      ShareMonotone(a as real, b as real, f.percentage);
      TruncateMonotone(Share(a as real, f.percentage), Share(b as real, f.percentage), a);
    }
  }

  /** Every layer lies in 0..amount, the total is their sum, and all of it is monotone in the amount,
      for payments and payouts alike. Which layer applies does not depend on the amount. */
  lemma FeeBounds(contract: FeeTable, m: Method, a: int, b: int, repo: FeeRepo)
    requires SaneTable(contract) && SaneRepo(repo) && 0 <= a <= b
    ensures Resolve(contract, m, a, repo).Some? <==> Resolve(contract, m, b, repo).Some?
    ensures Resolve(contract, m, a, repo).Some? ==>
              var ra := Resolve(contract, m, a, repo).value;
              var rb := Resolve(contract, m, b, repo).value;
              && 0 <= ra.base <= a && 0 <= ra.platform <= a && 0 <= ra.holiday <= a
              && ra.total == ra.base + ra.platform + ra.holiday && 0 <= ra.total <= 3 * a
              && ra.base <= rb.base && ra.platform <= rb.platform && ra.holiday <= rb.holiday
              && ra.total <= rb.total && ra.fromContract == rb.fromContract
  {
    var chosen := MerchantFee(contract, m, repo);
    if chosen.Some? && repo.margin.Some? {
      LayerBounds(chosen.value.0, a, b);
      LayerBounds(repo.margin.value.table.For(m), a, b);
      if repo.surcharge.Some? {
        LayerBounds(repo.surcharge.value, a, b);
      }
    }
  }

  /** What a configured fee means: a flat fee is the smaller of itself and the amount, a percentage the integer part of
      its share, anything else nothing. */
  predicate IsFee(f: MethodFee, amount: int, n: int) {
    match f.kind
    case Flat => n <= f.amount && n <= amount && (n == f.amount || n == amount)
    case Percentage =>
      var share := amount as real * f.percentage / 100.0;
      if share >= 0.0 then n as real <= share < n as real + 1.0 else n as real - 1.0 < share <= n as real
    case Unset => n == 0
    case Other => n == 0
  }

  /** Each layer is exactly that. */
  lemma LayerExact(f: MethodFee, amount: int)
    ensures IsFee(f, amount, ComputeMethodFee(f, amount))
    ensures forall n :: IsFee(f, amount, n) ==> n == ComputeMethodFee(f, amount)
  {
    if f.kind == Percentage {
      var share := Share(amount as real, f.percentage);
      var x := if share >= 0.0 then share else -share;
      assert x.Floor as real <= x < x.Floor as real + 1.0;
    }
  }

  /** The base layer is the contract's fee for the method if it has a type and an amount or a percentage, otherwise the
      default's; the platform's is added while its margin is enabled, the holiday's on a holiday. Resolution fails
      exactly when a fee it needs cannot be read, and then nothing is charged. */
  lemma ResolutionExact(contract: FeeTable, m: Method, amount: int, repo: FeeRepo)
    ensures var own := match m { case VA => contract.va case QRIS => contract.qris case CC => NoFee
                                 case Payout => contract.disbursement };
            var configured := own.kind != Unset && (own.amount != 0 || own.percentage != 0.0);
            var r := Resolve(contract, m, amount, repo);
            && (r.Some? <==> (configured || repo.defaults.Some?) && repo.margin.Some?)
            && (r.None? ==> ChargedFee(contract, m, amount, repo) == 0)
            && (r.Some? ==>
                  && r.value.fromContract == configured
                  && ChargedFee(contract, m, amount, repo) == r.value.total
                  && r.value.total == r.value.base + r.value.platform + r.value.holiday
                  && IsFee(if configured then own else OfTable(repo.defaults.value, m), amount, r.value.base)
                  && (if repo.margin.value.enabled then
                        IsFee(OfTable(repo.margin.value.table, m), amount, r.value.platform)
                      else r.value.platform == 0)
                  && (if repo.surcharge.Some? then IsFee(repo.surcharge.value, amount, r.value.holiday)
                      else r.value.holiday == 0))
  {
    var chosen := MerchantFee(contract, m, repo);
    if chosen.Some? && repo.margin.Some? {
      LayerExact(chosen.value.0, amount);
      LayerExact(repo.margin.value.table.For(m), amount);
      if repo.surcharge.Some? {
        LayerExact(repo.surcharge.value, amount);
      }
    }
  }

  /** The column of a fee table that is the method's; cards have none. */
  function OfTable(t: FeeTable, m: Method): (f: MethodFee)
    ensures (m == VA ==> f == t.va) && (m == QRIS ==> f == t.qris) && (m == Payout ==> f == t.disbursement)
    ensures m == CC ==> f.kind == Unset
  {
    t.For(m)
  }
}
