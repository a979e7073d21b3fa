/** `validateAllocations` of src/services/allocationService.ts: a transaction's split over
    fields is accepted when there is at least one share, the shares add up to 100% within
    0.01, and each share lies between 0% and 100%. The checks run in that order and the
    first that fails gives the error. */
module Allocation {
  import opened Common

  /** `AllocationInput`: a transaction, a field and the percentage of the transaction booked
      on that field. */
  datatype AllocationInput = AllocationInput(idTransacao: string, idTalhao: string, percentualAlocacao: real)

  /** `{ valid: true }` or `{ valid: false, error }`. */
  datatype Verdict = Valid | Invalid(error: string)

  const EmptyError: string := "Pelo menos um talhão deve ter alocação"
  const RangeError: string := "Cada alocação deve estar entre 0% e 100%"

  /** The sum error, with the total as `toFixed(2)` renders it. */
  function SumError(total: real, toFixed2: real -> string): string
  {
    "A soma das alocações deve ser 100%. Atual: " + toFixed2(total) + "%"
  }

  function Percentual(a: AllocationInput): real { a.percentualAlocacao }

  /** The `reduce` that adds the percentages, from 0. */
  function TotalPercentage(allocations: seq<AllocationInput>): real
  {
    SumOf(allocations, Percentual)
  }

  function Abs(x: real): real { if x < 0.0 then -x else x }

  predicate InRange(a: AllocationInput)
  {
    !(a.percentualAlocacao < 0.0 || a.percentualAlocacao > 100.0)
  }

  /** The `for...of` scan: the first share out of range ends it with the range error. */
  function FirstOutOfRange(allocations: seq<AllocationInput>): (r: Option<nat>)
    ensures r.Some? ==> r.value < |allocations| && !InRange(allocations[r.value])
    ensures r.Some? ==> forall i :: 0 <= i < r.value ==> InRange(allocations[i])
    ensures r.None? ==> forall i :: 0 <= i < |allocations| ==> InRange(allocations[i])
  {
    if allocations == [] then None
    else if !InRange(allocations[0]) then Some(0)
    else match FirstOutOfRange(allocations[1..])
      case Some(i) => Some(i + 1)
      case None => None
  }

  /** `validateAllocations(allocations)`; `toFixed2` stands for `Number.prototype.toFixed(2)`. */
  function ValidateAllocations(allocations: seq<AllocationInput>, toFixed2: real -> string): (r: Verdict)
    ensures allocations == [] ==> r == Invalid(EmptyError)
  {
    if |allocations| == 0 then Invalid(EmptyError)
    else
      var totalPercentage := TotalPercentage(allocations);
      if Abs(totalPercentage - 100.0) > 0.01 then Invalid(SumError(totalPercentage, toFixed2))
      else if FirstOutOfRange(allocations).Some? then Invalid(RangeError)
      else Valid
  }

  /** The verdict is `Valid` exactly when all three conditions hold. */
  lemma ValidIff(allocations: seq<AllocationInput>, toFixed2: real -> string)
    ensures ValidateAllocations(allocations, toFixed2) == Valid
      <==> && allocations != []
           && -0.01 <= TotalPercentage(allocations) - 100.0 <= 0.01
           && forall i :: 0 <= i < |allocations| ==> 0.0 <= allocations[i].percentualAlocacao <= 100.0
  {
  }

  /** A non-empty list whose sum is off reports the sum, whatever its shares are. */
  lemma SumCheckedFirst(allocations: seq<AllocationInput>, toFixed2: real -> string)
    requires allocations != []
    requires Abs(TotalPercentage(allocations) - 100.0) > 0.01
    ensures ValidateAllocations(allocations, toFixed2) == Invalid(SumError(TotalPercentage(allocations), toFixed2))
  {
  }

  /** A sum within the tolerance with some share out of range reports the range. */
  lemma RangeReported(allocations: seq<AllocationInput>, toFixed2: real -> string, k: nat)
    requires k < |allocations| && !InRange(allocations[k])
    requires Abs(TotalPercentage(allocations) - 100.0) <= 0.01
    ensures ValidateAllocations(allocations, toFixed2) == Invalid(RangeError)
  {
  }

  /** For instance `[150, -50]` adds up to 100 and is rejected for its range. */
  lemma RangeExample(toFixed2: real -> string)
    ensures ValidateAllocations([AllocationInput("t", "a", 150.0), AllocationInput("t", "b", -50.0)], toFixed2)
      == Invalid(RangeError)
  {
    var s := [AllocationInput("t", "a", 150.0), AllocationInput("t", "b", -50.0)];
    assert s[..1] == [s[0]] && [s[0]][..0] == [];
    assert SumOf(s[..1], Percentual) == 150.0;
    assert TotalPercentage(s) == SumOf(s[..1], Percentual) + (-50.0);
    RangeReported(s, toFixed2, 0);
  }

  /** The verdict does not depend on the order of the shares. */
  lemma OrderIndependent(s: seq<AllocationInput>, t: seq<AllocationInput>, toFixed2: real -> string)
    requires multiset(s) == multiset(t)
    ensures ValidateAllocations(s, toFixed2) == ValidateAllocations(t, toFixed2)
  {
    SumOfPermutation(s, t, Percentual);
    assert |s| == |multiset(s)| == |t|;
    if FirstOutOfRange(s).Some? {
      var k := FirstOutOfRange(s).value;
      assert s[k] in multiset(t);
    }
    if FirstOutOfRange(t).Some? {
      var k := FirstOutOfRange(t).value;
      assert t[k] in multiset(s);
    }
  }
}
