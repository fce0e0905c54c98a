/**
 The billing units a fee can be quoted in, their integer codes and display
 labels, and the fallible decoding of a code read from a form field.
 */
module Constants {
  import opened Wrappers

  /** How a fee is charged. The first four are amounts of yen; `Month` marks a
      value that is itself a number of months (lease length, contract term,
      free-rent period). */
  datatype UnitId =
    | MonthlyYen              // every month of the tenancy
    | OneShotYen              // once, at move-in
    | EveryContractYen        // once per contract term started
    | EveryContractUpdateYen  // once per contract renewal
    | Month                   // a duration, not an amount

  /** The variants in declaration order, as the enum iterator yields them. */
  const AllUnits: seq<UnitId> := [MonthlyYen, OneShotYen, EveryContractYen, EveryContractUpdateYen, Month]

  /** The explicit discriminant of each variant, i.e. `u as i32`: the
      discriminants run from zero in declaration order. */
  function Code(u: UnitId): (r: int)
    ensures 0 <= r < |AllUnits| && AllUnits[r] == u
  {
    match u
    case MonthlyYen => 0
    case OneShotYen => 1
    case EveryContractYen => 2
    case EveryContractUpdateYen => 3
    case Month => 4
  }

  predicate IsYen(u: UnitId) {
    !u.Month?
  }

  /** The label shown next to a fee's input field. Exactly the labels of the
      yen units start with the yen sign. */
  function Label(u: UnitId): (r: string)
    ensures |r| > 0
    ensures r[0] == '円' <==> IsYen(u)
  {
    match u
    case MonthlyYen => "円 / 月"
    case OneShotYen => "円（初回のみ）"
    case EveryContractYen => "円 / 契約"
    case EveryContractUpdateYen => "円 / 契約更新"
    case Month => "か月"
  }

  /** Distinct labels let a reader tell every unit apart. */
  lemma LabelsDistinct(u: UnitId, v: UnitId)
    requires u != v
    ensures Label(u) != Label(v)
  {
  }

  predicate DistinctCodes(units: seq<UnitId>) {
    forall i, j :: 0 <= i < j < |units| ==> Code(units[i]) != Code(units[j])
  }

  /** No two variants share a discriminant. */
  lemma AllUnitsHaveDistinctCodes()
    ensures DistinctCodes(AllUnits)
  {
  }

  /** The variants of `units` whose code is `code`, in order. */
  function Matching(units: seq<UnitId>, code: int): (r: seq<UnitId>)
    ensures forall u :: u in r <==> u in units && Code(u) == code
    ensures |r| <= |units|
  {
    if units == [] then []
    else if Code(units[0]) == code then [units[0]] + Matching(units[1..], code)
    else Matching(units[1..], code)
  }

  /** When no variant has the code, nothing matches. */
  lemma {:induction false} MatchingNone(units: seq<UnitId>, code: int)
    requires forall j :: 0 <= j < |units| ==> Code(units[j]) != code
    ensures Matching(units, code) == []
  {
    if units != [] {
      MatchingNone(units[1..], code);
    }
  }

  /** When no two variants share a code, at most one variant matches. */
  lemma {:induction false} MatchingAtMostOne(units: seq<UnitId>, code: int)
    requires DistinctCodes(units)
    ensures |Matching(units, code)| <= 1
  {
    if units != [] {
      var rest := units[1..];
      assert DistinctCodes(rest) by {
        forall i, j | 0 <= i < j < |rest|
          ensures Code(rest[i]) != Code(rest[j])
        {
          assert rest[i] == units[i + 1] && rest[j] == units[j + 1];
        }
      }
      if Code(units[0]) != code {
        MatchingAtMostOne(rest, code);
      } else {
        // no later variant shares the head's code
        forall j | 0 <= j < |rest|
          ensures Code(rest[j]) != code
        {
          assert rest[j] == units[j + 1];
        }
        MatchingNone(rest, code);
      }
    }
  }

  /** Why a code could not be decoded. */
  datatype DecodeError = InvalidInteger

  /** The unit whose discriminant is `code`: fails unless exactly one variant has it. */
  function Decode(code: int): (r: Result<UnitId, DecodeError>)
    ensures r.Success? <==> 0 <= code <= 4
    ensures r.Success? ==> Code(r.value) == code
  {
    AllUnitsHaveDistinctCodes();
    MatchingAtMostOne(AllUnits, code);
    var mt := Matching(AllUnits, code);
    assert 0 <= code <= 4 ==> AllUnits[code] in mt;
    if |mt| == 0 then
      Failure(InvalidInteger)
    else if |mt| > 1 then
      // a second variant with the same code: ambiguous
      Failure(InvalidInteger)
    else
      assert mt[0] in mt;
      Success(mt[0])
  }

  /** Decoding a variant's own discriminant gives that variant back. */
  lemma DecodeCode(u: UnitId)
    ensures Decode(Code(u)) == Success(u)
  {
  }

  /** The codes in use, and the variant each one decodes to. */
  lemma DecodeVectors()
    ensures Decode(0) == Success(MonthlyYen)
    ensures Decode(1) == Success(OneShotYen)
    ensures Decode(2) == Success(EveryContractYen)
    ensures Decode(3) == Success(EveryContractUpdateYen)
    ensures Decode(4) == Success(Month)
    ensures Decode(-1) == Failure(InvalidInteger)
    ensures Decode(5) == Failure(InvalidInteger)
  {
  }
}
