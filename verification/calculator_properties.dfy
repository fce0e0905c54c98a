/**
 Properties of the rent calculator: the unit tests' vectors, how the units
 relate to one another, what the total is made of, and what the report
 derives from it.
 */
module CalculatorProperties {
  import opened Constants
  import opened RustInt
  import opened Calculator
  import opened PaymentSchedule

  /** The unit tests' vectors for a fee of 111, plus a zero-month lease that
      shows the renewal fee's clamp at work. */
  lemma GetVectors()
    ensures Get(RentItem(111, EveryContractUpdateYen), 1, 1) == 0
    ensures Get(RentItem(111, EveryContractUpdateYen), 10, 11) == 0
    ensures Get(RentItem(111, EveryContractUpdateYen), 11, 11) == 0
    ensures Get(RentItem(111, EveryContractUpdateYen), 12, 11) == 111
    ensures Get(RentItem(111, EveryContractUpdateYen), 22, 11) == 111
    ensures Get(RentItem(111, EveryContractUpdateYen), 23, 11) == 222
    ensures Get(RentItem(111, OneShotYen), 1, 1) == 111
    ensures Get(RentItem(111, OneShotYen), 10, 11) == 111
    ensures Get(RentItem(111, OneShotYen), 11, 11) == 111
    ensures Get(RentItem(111, OneShotYen), 12, 11) == 111
    ensures Get(RentItem(111, OneShotYen), 22, 11) == 111
    ensures Get(RentItem(111, OneShotYen), 23, 11) == 111
    ensures Get(RentItem(111, EveryContractYen), 1, 1) == 111
    ensures Get(RentItem(111, EveryContractYen), 10, 11) == 111
    ensures Get(RentItem(111, EveryContractYen), 11, 11) == 111
    ensures Get(RentItem(111, EveryContractYen), 12, 11) == 222
    ensures Get(RentItem(111, EveryContractYen), 22, 11) == 222
    ensures Get(RentItem(111, EveryContractYen), 23, 11) == 333
    ensures Get(RentItem(111, EveryContractUpdateYen), 0, 1) == 0
  {
    assert 111 * TruncDiv(0 - 1, 1) == -111;  // what the clamp turns into 0
  }

  /** A one-time fee and a month count come back unchanged, whatever the durations. */
  lemma FlatUnitsIgnoreDurations(item: RentItem, lease: int, contract: int, lease': int, contract': int)
    requires item.unit.OneShotYen? || item.unit.Month?
    ensures Get(item, lease, contract) == Get(item, lease', contract') == item.value
  {
  }

  /** A monthly fee is charged for every month of the lease. */
  lemma MonthlyScalesWithLease(item: RentItem, lease: int, lease': int, contract: int, contract': int)
    requires item.unit.MonthlyYen?
    ensures Get(item, lease + lease', contract) == Get(item, lease, contract') + Get(item, lease', contract')
  {
  }

  /** The renewal fee is never negative, for any value and any lease. */
  lemma RenewalNeverNegative(item: RentItem, lease: int, contract: int)
    requires item.unit.EveryContractUpdateYen? && contract != 0
    ensures Get(item, lease, contract) >= 0
  {
  }

  /** Charged per contract, a fee is paid exactly once more than when charged
      per renewal: the first term has no renewal. */
  lemma PerContractExceedsRenewalByOne(value: int, lease: int, contract: int)
    requires value >= 0 && lease >= 1 && contract >= 1
    ensures Get(RentItem(value, EveryContractYen), lease, contract)
         == Get(RentItem(value, EveryContractUpdateYen), lease, contract) + value
  {
  }

  /** The total is the sum of the amounts it adds (`CostSlotsAreTheAddedAmounts`:
      every amount but the support fee) less the free-rent discount: the
      resolved rent divided back to one month, times the free months. */
  lemma TotalIsSlotSum(e: RentElements)
    requires Calculable(e)
    ensures
      var lease, contract := LeaseOf(e), ContractOf(e);
      Total(e) == SlotSum(e, CostSlots)
                  - TruncDiv(Get(e.rent, lease, contract), lease) * Get(e.freeRentPeriod, lease, contract)
  {
    CostSlotsSum(e);
  }

  /** Without free months the total is the plain sum of the amounts it adds. */
  lemma TotalWithoutFreeRent(e: RentElements)
    requires Calculable(e) && Get(e.freeRentPeriod, LeaseOf(e), ContractOf(e)) == 0
    ensures Total(e) == SlotSum(e, CostSlots)
  {
    TotalIsSlotSum(e);
  }

  /** With the rent billed monthly, the discount is exactly the nominal rent
      times the free months: dividing the resolved rent back by the lease loses nothing. */
  lemma MonthlyRentDiscount(e: RentElements)
    requires Calculable(e) && e.rent.unit == MonthlyYen
    ensures Total(e) == SlotSum(e, CostSlots) - e.rent.value * Get(e.freeRentPeriod, LeaseOf(e), ContractOf(e))
  {
    TotalIsSlotSum(e);
    TruncDivExact(e.rent.value, LeaseOf(e));
  }

  /** Durations in months, at least one each, make a listing calculable. */
  lemma FormShapedIsCalculable(e: RentElements)
    requires FormShaped(e)
    ensures Calculable(e)
    ensures LeaseOf(e) == e.leasePeriod.value && ContractOf(e) == e.contractPeriod.value
  {
  }

  /** A lease of zero months, which the input form accepts, is not
      calculable: the rent is divided by the lease. */
  lemma ZeroLeaseNotCalculable(e: RentElements)
    requires e.leasePeriod == RentItem(0, Month)
    ensures !Calculable(e)
  {
  }

  /** A contract term of zero months, which the input form also accepts, is
      not calculable when the renewal fee is charged per renewal, the only
      unit the form offers for it: the lease is divided by the term. */
  lemma ZeroTermNotCalculable(e: RentElements)
    requires e.contractPeriod == RentItem(0, Month) && e.contractUpdateFee.unit == EveryContractUpdateYen
    ensures !Calculable(e)
  {
  }

  /** The support fee is never read: whatever it holds, the report is the same. */
  lemma SupportFeeIgnored(e: RentElements, fee: RentItem)
    requires Calculable(e)
    ensures Calculable(e.(supportFee := fee))
    ensures Calc(e.(supportFee := fee)) == Calc(e)
  {
  }

  /** The listing with every fee but rent and management fee, free-rent months
      included, set to zero. Units, durations and the unread support fee are kept. */
  function Baseline(e: RentElements): RentElements {
    e.(freeRentPeriod := Zeroed(e.freeRentPeriod),
       guaranteeFee := Zeroed(e.guaranteeFee),
       associationMembershipFee := Zeroed(e.associationMembershipFee),
       keyMoney := Zeroed(e.keyMoney),
       brokerageFee := Zeroed(e.brokerageFee),
       guaranteeAdministrativeFee := Zeroed(e.guaranteeAdministrativeFee),
       insuranceFee := Zeroed(e.insuranceFee),
       bicycleSpaceFee := Zeroed(e.bicycleSpaceFee),
       carSpaceFee := Zeroed(e.carSpaceFee),
       keyChangeFee := Zeroed(e.keyChangeFee),
       cleaningFee := Zeroed(e.cleaningFee),
       contractUpdateFee := Zeroed(e.contractUpdateFee))
  }

  function Zeroed(item: RentItem): RentItem {
    item.(value := 0)
  }

  /** Every read fee other than rent and management fee is zero. */
  predicate OnlyRentAndManagement(e: RentElements) {
    && e.freeRentPeriod.value == 0
    && e.guaranteeFee.value == 0
    && e.associationMembershipFee.value == 0
    && e.keyMoney.value == 0
    && e.brokerageFee.value == 0
    && e.guaranteeAdministrativeFee.value == 0
    && e.insuranceFee.value == 0
    && e.bicycleSpaceFee.value == 0
    && e.carSpaceFee.value == 0
    && e.keyChangeFee.value == 0
    && e.cleaningFee.value == 0
    && e.contractUpdateFee.value == 0
  }

  /** A zero fee costs nothing, whatever its unit and durations. */
  lemma ZeroFeeCostsNothing(item: RentItem, lease: int, contract: int)
    requires item.value == 0 && Resolvable(item, lease, contract)
    ensures Get(item, lease, contract) == 0
  {
  }

  /** With no fee but rent and management fee, the total and its monthly average
      are the nominal figures. */
  lemma NominalWhenNoOtherFees(e: RentElements)
    requires Calculable(e) && OnlyRentAndManagement(e)
    ensures Calc(e).total == Calc(e).originalTotal
    ensures Calc(e).monthly == Calc(e).originalMonthly
  {
    var lease, contract := LeaseOf(e), ContractOf(e);
    ZeroFeeCostsNothing(e.freeRentPeriod, lease, contract);
    ZeroFeeCostsNothing(e.guaranteeFee, lease, contract);
    ZeroFeeCostsNothing(e.associationMembershipFee, lease, contract);
    ZeroFeeCostsNothing(e.keyMoney, lease, contract);
    ZeroFeeCostsNothing(e.brokerageFee, lease, contract);
    ZeroFeeCostsNothing(e.guaranteeAdministrativeFee, lease, contract);
    ZeroFeeCostsNothing(e.insuranceFee, lease, contract);
    ZeroFeeCostsNothing(e.bicycleSpaceFee, lease, contract);
    ZeroFeeCostsNothing(e.carSpaceFee, lease, contract);
    ZeroFeeCostsNothing(e.keyChangeFee, lease, contract);
    ZeroFeeCostsNothing(e.cleaningFee, lease, contract);
    ZeroFeeCostsNothing(e.contractUpdateFee, lease, contract);
  }

  /** The nominal figures of a listing are the full figures of its baseline:
      the same listing with every other fee removed. */
  lemma BaselineIsNominal(e: RentElements)
    requires Calculable(e)
    ensures Calculable(Baseline(e)) && OnlyRentAndManagement(Baseline(e))
    ensures Calc(Baseline(e)).total == Calc(e).originalTotal
    ensures Calc(Baseline(e)).monthly == Calc(e).originalMonthly
  {
    NominalWhenNoOtherFees(Baseline(e));
  }

  /** Every amount after rent and management fee is not negative. */
  predicate ExtraFeesNonNegative(e: RentElements) {
    && e.guaranteeFee.value >= 0
    && e.associationMembershipFee.value >= 0
    && e.keyMoney.value >= 0
    && e.brokerageFee.value >= 0
    && e.guaranteeAdministrativeFee.value >= 0
    && e.insuranceFee.value >= 0
    && e.bicycleSpaceFee.value >= 0
    && e.carSpaceFee.value >= 0
    && e.keyChangeFee.value >= 0
    && e.cleaningFee.value >= 0
    && e.contractUpdateFee.value >= 0
  }

  /** Without free rent, extra fees can only raise the effective cost above
      the nominal one, in total and per month. */
  lemma ExtraFeesRaiseCost(e: RentElements)
    requires FormShaped(e) && ExtraFeesNonNegative(e) && e.freeRentPeriod.value == 0
    ensures Calculable(e)
    ensures Calc(e).total >= Calc(e).originalTotal
    ensures Calc(e).monthly >= Calc(e).originalMonthly
  {
    var lease, contract := e.leasePeriod.value, e.contractPeriod.value;
    ZeroFeeCostsNothing(e.freeRentPeriod, lease, contract);
    TruncDivMonotone(Calc(e).originalTotal, Calc(e).total, lease);
  }

  /** A listing with rent and management fee only, quoted monthly over a
      two-year lease and a two-year contract. */
  function TwoYearListing(): RentElements {
    var none := RentItem(0, OneShotYen);
    RentElements(
      rent := RentItem(50000, MonthlyYen), managementFee := RentItem(2000, MonthlyYen),
      freeRentPeriod := RentItem(0, Month), guaranteeFee := none, supportFee := none,
      associationMembershipFee := none, keyMoney := none, brokerageFee := none,
      guaranteeAdministrativeFee := none, insuranceFee := none, bicycleSpaceFee := none,
      carSpaceFee := none, keyChangeFee := none, cleaningFee := none, contractUpdateFee := none,
      contractPeriod := RentItem(24, Month), leasePeriod := RentItem(24, Month))
  }

  lemma TwoYearListingReport()
    ensures Calculable(TwoYearListing())
    ensures Calc(TwoYearListing()) == RentResult(24, 1248000, 52000, 1248000, 52000)
  {
  }

  /** Free months beyond the lease drive the total below zero; its monthly
      average is then truncated toward zero, -1499 where floor division gives -1500. */
  lemma NegativeTotalTruncates()
    ensures
      var e := TwoYearListing().(rent := RentItem(1000, MonthlyYen), managementFee := RentItem(0, MonthlyYen),
                                 cleaningFee := RentItem(1, OneShotYen), freeRentPeriod := RentItem(5, Month),
                                 leasePeriod := RentItem(2, Month));
      Calculable(e) && Calc(e) == RentResult(2, -2999, -1499, 2000, 1000)
  {
    var e := TwoYearListing().(rent := RentItem(1000, MonthlyYen), managementFee := RentItem(0, MonthlyYen),
                               cleaningFee := RentItem(1, OneShotYen), freeRentPeriod := RentItem(5, Month),
                               leasePeriod := RentItem(2, Month));
    assert Calculable(e) && LeaseOf(e) == 2;
    assert Total(e) == 2000 - 1000 * 5 + 1;
    TruncQuotientUnique(-2999, 2, TruncDiv(-2999, 2), -1499);
    TruncQuotientUnique(2000, 2, TruncDiv(2000, 2), 1000);
    assert -2999 / 2 == -1500;  // Dafny's Euclidean division, for contrast
  }
}
