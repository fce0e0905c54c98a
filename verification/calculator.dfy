/**
 The rent calculator: each fee is resolved to its total over the tenancy
 according to its billing unit, and the resolved fees are netted into the
 total cost, the average monthly cost and the "rent + management fee only"
 baseline. Division follows Rust's truncating `/`; a division by zero, a panic
 in the program, is excluded by preconditions.
 */
module Calculator {
  import opened Constants
  import opened RustInt

  /** One fee: a value and the unit it is quoted in. */
  datatype RentItem = RentItem(value: int, unit: UnitId)

  /** The two units whose resolution divides by the contract term. */
  predicate IsPerContract(u: UnitId) {
    u.EveryContractYen? || u.EveryContractUpdateYen?
  }

  /** Resolving `item` with these durations does not divide by zero. */
  predicate Resolvable(item: RentItem, lease: int, contract: int) {
    IsPerContract(item.unit) ==> contract != 0
  }

  function Max(a: int, b: int): int {
    if a < b then b else a
  }

  /** The total `item` costs over a tenancy of `lease` months under a
      contract renewed every `contract` months. Over a single month every fee
      is charged once, except the renewal fee, which never falls due; and a
      fee that is not negative never costs a negative total.
      `PaymentSchedule.GetMatchesSchedule` relates the result to a
      month-by-month count of the payments. */
  function Get(item: RentItem, lease: int, contract: int): (r: int)
    requires Resolvable(item, lease, contract)
    ensures lease == 1 ==> r == (if item.unit.EveryContractUpdateYen? then 0 else item.value)
    ensures item.value >= 0 && lease >= 1 && contract >= 1 ==> r >= 0
  {
    match item.unit
    case MonthlyYen => item.value * lease
    case OneShotYen => item.value
    case EveryContractYen => item.value * (1 + TruncDiv(lease - 1, contract))
    case EveryContractUpdateYen => Max(0, item.value * TruncDiv(lease - 1, contract))
    case Month => item.value
  }

  /** The named fields of the fee record, used to speak about one fee at a time. */
  datatype Slot =
    | Rent | ManagementFee | FreeRentPeriod | GuaranteeFee | SupportFee
    | AssociationMembershipFee | KeyMoney | BrokerageFee | GuaranteeAdministrativeFee
    | InsuranceFee | BicycleSpaceFee | CarSpaceFee | KeyChangeFee | CleaningFee
    | ContractUpdateFee | ContractPeriod | LeasePeriod

  /** Every fee of one listing. `freeRentPeriod`, `contractPeriod` and
      `leasePeriod` hold numbers of months rather than amounts. */
  datatype RentElements = RentElements(
    rent: RentItem,
    managementFee: RentItem,
    freeRentPeriod: RentItem,
    guaranteeFee: RentItem,
    supportFee: RentItem,
    associationMembershipFee: RentItem,
    keyMoney: RentItem,
    brokerageFee: RentItem,
    guaranteeAdministrativeFee: RentItem,
    insuranceFee: RentItem,
    bicycleSpaceFee: RentItem,
    carSpaceFee: RentItem,
    keyChangeFee: RentItem,
    cleaningFee: RentItem,
    contractUpdateFee: RentItem,
    contractPeriod: RentItem,
    leasePeriod: RentItem)
  {
    function At(s: Slot): RentItem {
      match s
      case Rent => rent
      case ManagementFee => managementFee
      case FreeRentPeriod => freeRentPeriod
      case GuaranteeFee => guaranteeFee
      case SupportFee => supportFee
      case AssociationMembershipFee => associationMembershipFee
      case KeyMoney => keyMoney
      case BrokerageFee => brokerageFee
      case GuaranteeAdministrativeFee => guaranteeAdministrativeFee
      case InsuranceFee => insuranceFee
      case BicycleSpaceFee => bicycleSpaceFee
      case CarSpaceFee => carSpaceFee
      case KeyChangeFee => keyChangeFee
      case CleaningFee => cleaningFee
      case ContractUpdateFee => contractUpdateFee
      case ContractPeriod => contractPeriod
      case LeasePeriod => leasePeriod
    }
  }

  /** The amounts that are added into the total. */
  const CostSlots: seq<Slot> := [
    Rent, ManagementFee, GuaranteeFee, AssociationMembershipFee, KeyMoney,
    BrokerageFee, GuaranteeAdministrativeFee, InsuranceFee, BicycleSpaceFee,
    CarSpaceFee, KeyChangeFee, CleaningFee, ContractUpdateFee]

  /** Whether the total adds the resolved fee in slot `s`: every slot but the
      support fee, which is never read, the free months, which are subtracted,
      and the two durations. */
  predicate AddedToTotal(s: Slot) {
    !(s.SupportFee? || s.FreeRentPeriod? || s.ContractPeriod? || s.LeasePeriod?)
  }

  /** `CostSlots` lists every slot the total adds, each exactly once. */
  lemma CostSlotsAreTheAddedAmounts()
    ensures forall s :: s in CostSlots <==> AddedToTotal(s)
    ensures forall i, j :: 0 <= i < j < |CostSlots| ==> CostSlots[i] != CostSlots[j]
  {
  }

  /** The lease length, read by resolving its slot with both durations zero. */
  function LeaseOf(e: RentElements): int
    requires Resolvable(e.leasePeriod, 0, 0)
  {
    Get(e.leasePeriod, 0, 0)
  }

  /** The contract term, read the same way. */
  function ContractOf(e: RentElements): int
    requires Resolvable(e.contractPeriod, 0, 0)
  {
    Get(e.contractPeriod, 0, 0)
  }

  /** Every fee that is resolved with the tenancy's durations can be. */
  predicate ReadFeesResolvable(e: RentElements, lease: int, contract: int) {
    && Resolvable(e.rent, lease, contract)
    && Resolvable(e.managementFee, lease, contract)
    && Resolvable(e.guaranteeFee, lease, contract)
    && Resolvable(e.associationMembershipFee, lease, contract)
    && Resolvable(e.freeRentPeriod, lease, contract)
    && Resolvable(e.keyMoney, lease, contract)
    && Resolvable(e.brokerageFee, lease, contract)
    && Resolvable(e.guaranteeAdministrativeFee, lease, contract)
    && Resolvable(e.insuranceFee, lease, contract)
    && Resolvable(e.bicycleSpaceFee, lease, contract)
    && Resolvable(e.carSpaceFee, lease, contract)
    && Resolvable(e.keyChangeFee, lease, contract)
    && Resolvable(e.cleaningFee, lease, contract)
    && Resolvable(e.contractUpdateFee, lease, contract)
  }

  /** The calculation runs without dividing by zero: both durations can be
      read, the lease is non-zero, and the contract term is non-zero if any
      fee that is read divides by it. */
  predicate Calculable(e: RentElements) {
    && Resolvable(e.leasePeriod, 0, 0)
    && Resolvable(e.contractPeriod, 0, 0)
    && LeaseOf(e) != 0
    && ReadFeesResolvable(e, LeaseOf(e), ContractOf(e))
  }

  /** The listings the model mostly reasons about: durations in months, both
      at least one. The input form offers only the month unit for the two
      durations, but it admits zero months, which this predicate excludes. */
  predicate FormShaped(e: RentElements) {
    && e.leasePeriod.unit == Month && e.leasePeriod.value >= 1
    && e.contractPeriod.unit == Month && e.contractPeriod.value >= 1
  }

  /** A calculable listing can resolve every slot but the support fee. */
  lemma CalculableResolvesSlots(e: RentElements)
    requires Calculable(e)
    ensures forall s :: s != SupportFee ==> Resolvable(e.At(s), LeaseOf(e), ContractOf(e))
  {
  }

  /** The sum of the resolved fees in `slots` from position `k` on. The
      support fee cannot be among them: it is never resolved, so it may not
      be resolvable. */
  function SlotSum(e: RentElements, slots: seq<Slot>, k: nat := 0): int
    requires Calculable(e) && SupportFee !in slots
    decreases |slots| - k
  {
    if k >= |slots| then 0
    else
      CalculableResolvesSlots(e);
      Get(e.At(slots[k]), LeaseOf(e), ContractOf(e)) + SlotSum(e, slots, k + 1)
  }

  /** The thirteen amounts of the total, resolved and added in the order the total adds them. */
  lemma CostSlotsSum(e: RentElements)
    requires Calculable(e)
    ensures
      var lease, contract := LeaseOf(e), ContractOf(e);
      SlotSum(e, CostSlots)
      == Get(e.rent, lease, contract)
       + Get(e.managementFee, lease, contract)
       + Get(e.guaranteeFee, lease, contract)
       + Get(e.associationMembershipFee, lease, contract)
       + Get(e.keyMoney, lease, contract)
       + Get(e.brokerageFee, lease, contract)
       + Get(e.guaranteeAdministrativeFee, lease, contract)
       + Get(e.insuranceFee, lease, contract)
       + Get(e.bicycleSpaceFee, lease, contract)
       + Get(e.carSpaceFee, lease, contract)
       + Get(e.keyChangeFee, lease, contract)
       + Get(e.cleaningFee, lease, contract)
       + Get(e.contractUpdateFee, lease, contract)
  {
    var lease, contract := LeaseOf(e), ContractOf(e);
    // unfold the sum one slot at a time, from the last back to the first
    assert SlotSum(e, CostSlots, 13) == 0;
    assert SlotSum(e, CostSlots, 12) == Get(e.contractUpdateFee, lease, contract) + SlotSum(e, CostSlots, 13);
    assert SlotSum(e, CostSlots, 11) == Get(e.cleaningFee, lease, contract) + SlotSum(e, CostSlots, 12);
    assert SlotSum(e, CostSlots, 10) == Get(e.keyChangeFee, lease, contract) + SlotSum(e, CostSlots, 11);
    assert SlotSum(e, CostSlots, 9) == Get(e.carSpaceFee, lease, contract) + SlotSum(e, CostSlots, 10);
    assert SlotSum(e, CostSlots, 8) == Get(e.bicycleSpaceFee, lease, contract) + SlotSum(e, CostSlots, 9);
    assert SlotSum(e, CostSlots, 7) == Get(e.insuranceFee, lease, contract) + SlotSum(e, CostSlots, 8);
    assert SlotSum(e, CostSlots, 6) == Get(e.guaranteeAdministrativeFee, lease, contract) + SlotSum(e, CostSlots, 7);
    assert SlotSum(e, CostSlots, 5) == Get(e.brokerageFee, lease, contract) + SlotSum(e, CostSlots, 6);
    assert SlotSum(e, CostSlots, 4) == Get(e.keyMoney, lease, contract) + SlotSum(e, CostSlots, 5);
    assert SlotSum(e, CostSlots, 3) == Get(e.associationMembershipFee, lease, contract) + SlotSum(e, CostSlots, 4);
    assert SlotSum(e, CostSlots, 2) == Get(e.guaranteeFee, lease, contract) + SlotSum(e, CostSlots, 3);
    assert SlotSum(e, CostSlots, 1) == Get(e.managementFee, lease, contract) + SlotSum(e, CostSlots, 2);
    assert SlotSum(e, CostSlots, 0) == Get(e.rent, lease, contract) + SlotSum(e, CostSlots, 1);
  }

  /** The total cost over the lease: every amount but the support fee, less
      the free months charged at the resolved rent divided back to a month. */
  function Total(e: RentElements): int
    requires Calculable(e)
  {
    var lease, contract := LeaseOf(e), ContractOf(e);
    var rentSum := Get(e.rent, lease, contract);
    var rent := TruncDiv(rentSum, lease);
    rentSum
    + Get(e.managementFee, lease, contract)
    + Get(e.guaranteeFee, lease, contract)
    + Get(e.associationMembershipFee, lease, contract)
    - rent * Get(e.freeRentPeriod, lease, contract)
    + Get(e.keyMoney, lease, contract)
    + Get(e.brokerageFee, lease, contract)
    + Get(e.guaranteeAdministrativeFee, lease, contract)
    + Get(e.insuranceFee, lease, contract)
    + Get(e.bicycleSpaceFee, lease, contract)
    + Get(e.carSpaceFee, lease, contract)
    + Get(e.keyChangeFee, lease, contract)
    + Get(e.cleaningFee, lease, contract)
    + Get(e.contractUpdateFee, lease, contract)
  }

  /** What the calculator reports for one listing. */
  datatype RentResult = RentResult(
    leasePeriod: int,
    total: int,
    monthly: int,
    originalTotal: int,
    originalMonthly: int)

  /** The report: the lease length, the total and its monthly average, and
      the same two figures for rent and management fee alone. */
  function Calc(e: RentElements): (r: RentResult)
    requires Calculable(e)
    ensures r.leasePeriod == e.leasePeriod.value
    ensures r.leasePeriod != 0
    ensures r.total == Total(e)
    ensures r.originalTotal == Get(e.rent, LeaseOf(e), ContractOf(e)) + Get(e.managementFee, LeaseOf(e), ContractOf(e))
    ensures TruncQuotient(r.total, r.leasePeriod, r.monthly)
    ensures TruncQuotient(r.originalTotal, r.leasePeriod, r.originalMonthly)
  {
    var total := Total(e);
    var lease, contract := LeaseOf(e), ContractOf(e);
    var originalTotal := Get(e.rent, lease, contract) + Get(e.managementFee, lease, contract);
    RentResult(lease, total, TruncDiv(total, lease), originalTotal, TruncDiv(originalTotal, lease))
  }
}
