/**
 An independent account of what each yen unit charges: month by month, which
 payments fall due during a tenancy, and how many there are in all. For a
 lease and a term of at least one month, and a non-negative value for a
 renewal fee, the closed-form resolution in `Calculator.Get` is proved to
 equal the value times this count; its growth with the lease length follows
 from it.
 */
module PaymentSchedule {
  import opened Constants
  import opened RustInt
  import opened Calculator

  /** The number of payments a fee in yen unit `u` falls due in month `m`
      (counted from zero) under a contract renewed every `contract` months. */
  function DueIn(u: UnitId, m: nat, contract: int): nat
    requires IsYen(u) && contract >= 1
  {
    match u
    case MonthlyYen => 1
    case OneShotYen => if m == 0 then 1 else 0
    case EveryContractYen => if m % contract == 0 then 1 else 0
    case EveryContractUpdateYen => if m % contract == 0 && m > 0 then 1 else 0
  }

  /** The payments due over the first `lease` months. */
  function Payments(u: UnitId, lease: nat, contract: int): nat
    requires IsYen(u) && contract >= 1
  {
    if lease == 0 then 0 else Payments(u, lease - 1, contract) + DueIn(u, lease - 1, contract)
  }

  /** Stepping one month further crosses a term boundary exactly when the new
      month is a multiple of the term. */
  lemma TermBoundaryStep(m: int, c: int)
    requires m >= 1 && c >= 1
    ensures TruncDiv(m, c) == TruncDiv(m - 1, c) + (if m % c == 0 then 1 else 0)
  {
    var q := TruncDiv(m - 1, c);
    assert 0 <= q * c <= m - 1 < q * c + c;
    TruncDivOfNatural(m, c);
    assert m == (m / c) * c + m % c;
    if m == q * c + c {
      assert (q + 1) * c == m;
      assert TruncQuotient(m, c, q + 1);
      TruncQuotientUnique(m, c, TruncDiv(m, c), q + 1);
      assert m % c == 0;
    } else {
      assert TruncQuotient(m, c, q);
      TruncQuotientUnique(m, c, TruncDiv(m, c), q);
      assert m % c == m - q * c;
    }
  }

  /** The count of payments in closed form, for a lease of at least one month. */
  lemma {:induction false} PaymentsClosedForm(u: UnitId, lease: nat, contract: int)
    requires IsYen(u) && lease >= 1 && contract >= 1
    ensures u.MonthlyYen? ==> Payments(u, lease, contract) == lease
    ensures u.OneShotYen? ==> Payments(u, lease, contract) == 1
    ensures u.EveryContractYen? ==> Payments(u, lease, contract) == 1 + TruncDiv(lease - 1, contract)
    ensures u.EveryContractUpdateYen? ==> Payments(u, lease, contract) == TruncDiv(lease - 1, contract)
  {
    if lease == 1 {
      TruncDivOfNatural(0, contract);
    } else {
      PaymentsClosedForm(u, lease - 1, contract);
      TermBoundaryStep(lease - 1, contract);
    }
  }

  /** Resolving a yen fee charges its value once per payment due. A renewal
      fee is clamped at zero, so for it the value must not be negative. */
  lemma GetMatchesSchedule(item: RentItem, lease: int, contract: int)
    requires IsYen(item.unit) && lease >= 1 && contract >= 1
    requires item.unit.EveryContractUpdateYen? ==> item.value >= 0
    ensures Get(item, lease, contract) == item.value * Payments(item.unit, lease, contract)
  {
    PaymentsClosedForm(item.unit, lease, contract);
    if item.unit.EveryContractUpdateYen? {
      TruncDivOfNatural(lease - 1, contract);
      assert item.value * TruncDiv(lease - 1, contract) >= 0;
    }
  }

  /** Payments only accumulate as the lease grows. */
  lemma {:induction false} PaymentsMonotone(u: UnitId, lease: nat, lease': nat, contract: int)
    requires IsYen(u) && contract >= 1 && lease <= lease'
    ensures Payments(u, lease, contract) <= Payments(u, lease', contract)
  {
    if lease < lease' {
      PaymentsMonotone(u, lease, lease' - 1, contract);
    }
  }

  /** Lengthening the lease by one month adds the month numbered `lease`
      (counted from zero): a per-contract fee rises by exactly its value when
      that month opens a new term, i.e. `lease` is a multiple of the term, and
      stays put otherwise. */
  lemma GetStep(item: RentItem, lease: int, contract: int)
    requires IsPerContract(item.unit) && lease >= 1 && contract >= 1 && item.value >= 0
    ensures Get(item, lease + 1, contract)
         == Get(item, lease, contract) + (if lease % contract == 0 then item.value else 0)
  {
    GetMatchesSchedule(item, lease, contract);
    GetMatchesSchedule(item, lease + 1, contract);
    var p, d := Payments(item.unit, lease, contract), DueIn(item.unit, lease, contract);
    assert Payments(item.unit, lease + 1, contract) == p + d;
    assert d == (if lease % contract == 0 then 1 else 0);
    assert item.value * (p + d) == item.value * p + item.value * d;
  }

  /** For a fee that is not negative, a longer lease never costs less. */
  lemma GetMonotone(item: RentItem, lease: int, lease': int, contract: int)
    requires item.value >= 0 && 1 <= lease <= lease' && contract >= 1
    ensures Get(item, lease, contract) <= Get(item, lease', contract)
  {
    if IsYen(item.unit) {
      GetMatchesSchedule(item, lease, contract);
      GetMatchesSchedule(item, lease', contract);
      var p, p' := Payments(item.unit, lease, contract), Payments(item.unit, lease', contract);
      PaymentsMonotone(item.unit, lease, lease', contract);
      ScaleMonotone(item.value, p, p');
    }
  }

  /** Scaling by a non-negative value keeps the order. */
  lemma ScaleMonotone(v: int, p: int, p': int)
    requires v >= 0 && p <= p'
    ensures v * p <= v * p'
  {
    assert v * p' == v * p + v * (p' - p);
  }
}
