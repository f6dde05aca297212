/** The decision `validateForm` takes: every input control must report itself valid, then the
    parsed employee count must lie in the inclusive range [10, 100000]. */
module Validation {
  import opened Wrappers
  import opened Notifications

  const MinEmployees: int := 10
  const MaxEmployees: int := 100000
  const FixErrorsMessage: string := "Please fix the validation errors"
  const EmployeesRangeMessage: string := "Number of Employees must be between 10 and 100,000"

  /** The `reduce` over the controls' validity flags, accumulator first (a left fold). */
  function ReduceValidity(validSoFar: bool, controls: seq<bool>): bool
    decreases |controls|
  {
    if controls == [] then validSoFar
    else ReduceValidity(validSoFar && controls[0], controls[1..])
  }

  /** The fold is the conjunction of the seed and every flag. */
  lemma {:induction false} ReduceValidityIsConjunction(validSoFar: bool, controls: seq<bool>)
    ensures ReduceValidity(validSoFar, controls) <==>
            validSoFar && forall i :: 0 <= i < |controls| ==> controls[i]
    decreases |controls|
  {
    if controls != [] {
      ReduceValidityIsConjunction(validSoFar && controls[0], controls[1..]);
      assert forall i :: 1 <= i < |controls| ==> controls[i] == controls[1..][i - 1];
    }
  }

  /** `employees < 10 || employees > 100000` where `None` is `NaN`, for which both
      comparisons are false. */
  predicate OutOfRange(employees: Option<int>) {
    employees.Some? && (employees.value < MinEmployees || employees.value > MaxEmployees)
  }

  datatype Verdict = Accepted | ControlsInvalid | EmployeesOutOfRange

  /** The outcome of validation. The control check comes first: an invalid control decides
      the verdict whatever the employee count. The range is inclusive at both ends, and an
      unparseable count passes. */
  function Validate(controls: seq<bool>, employees: Option<int>): (v: Verdict)
    ensures v == ControlsInvalid <==> exists i :: 0 <= i < |controls| && !controls[i]
    ensures v == EmployeesOutOfRange <==>
              (forall i :: 0 <= i < |controls| ==> controls[i]) &&
              employees.Some? && !(MinEmployees <= employees.value <= MaxEmployees)
    ensures v == Accepted <==>
              (forall i :: 0 <= i < |controls| ==> controls[i]) &&
              (employees.None? || MinEmployees <= employees.value <= MaxEmployees)
  {
    ReduceValidityIsConjunction(true, controls);
    if !ReduceValidity(true, controls) then ControlsInvalid
    else if OutOfRange(employees) then EmployeesOutOfRange
    else Accepted
  }

  /** The toasts a validation run dispatches: one error toast per rejection, none on success. */
  function ValidationToasts(v: Verdict): seq<Toast> {
    match v
    case Accepted => []
    case ControlsInvalid => [ErrorToast(FixErrorsMessage)]
    case EmployeesOutOfRange => [ErrorToast(EmployeesRangeMessage)]
  }

  /** With every control valid, 10 and 100000 are accepted and 9 and 100001 are not. */
  lemma RangeIsInclusive(controls: seq<bool>)
    requires forall i :: 0 <= i < |controls| ==> controls[i]
    ensures Validate(controls, Some(MinEmployees)) == Accepted
    ensures Validate(controls, Some(MaxEmployees)) == Accepted
    ensures Validate(controls, Some(MinEmployees - 1)) == EmployeesOutOfRange
    ensures Validate(controls, Some(MaxEmployees + 1)) == EmployeesOutOfRange
    ensures Validate(controls, None) == Accepted
  {
  }
}
