/** The edit session as a value: the component's fields, one transition function per
    handler or callback, and the lifetime of a form as a sequence of such events. */
module Session {
  import opened Wrappers
  import opened Validation

  /** What an editable field can hold: a number (the initial 0 or a loaded value) or the raw
      text an input control hands over, which is stored without coercion. */
  datatype Value = Num(n: real) | Text(s: string)

  /** The record summary the data fetch resolves with; an absent number is `None`. */
  datatype OpportunityData = OpportunityData(
    opportunityName: string,
    accountName: string,
    amount: Option<real>,
    numberOfEmployees: Option<int>)

  /** The fields of the component that its handlers assign. */
  datatype FormState = FormState(
    isModalOpen: bool,
    isLoading: bool,
    opportunityName: string,
    accountName: string,
    amount: Value,
    numberOfEmployees: Value,
    originalAmount: Value,
    originalEmployees: Value)

  /** The field initialisers of the component. */
  function Initial(): FormState {
    FormState(false, false, "", "", Num(0.0), Num(0.0), Num(0.0), Num(0.0))
  }

  /** `result.amount || 0` */
  function LoadedAmount(d: OpportunityData): Value {
    match d.amount
    case Some(a) => Num(a)
    case None => Num(0.0)
  }

  /** `result.numberOfEmployees || 0` */
  function LoadedEmployees(d: OpportunityData): Value {
    match d.numberOfEmployees
    case Some(k) => Num(k as real)
    case None => Num(0.0)
  }

  function Open(s: FormState): FormState {
    s.(isModalOpen := true, isLoading := true)
  }

  function Reset(s: FormState): FormState {
    s.(isLoading := false, amount := s.originalAmount, numberOfEmployees := s.originalEmployees)
  }

  function Close(s: FormState): FormState {
    Reset(s.(isModalOpen := false))
  }

  function LoadSuccess(s: FormState, d: OpportunityData): FormState {
    s.(opportunityName := d.opportunityName, accountName := d.accountName,
       amount := LoadedAmount(d), numberOfEmployees := LoadedEmployees(d),
       originalAmount := LoadedAmount(d), originalEmployees := LoadedEmployees(d),
       isLoading := false)
  }

  function LoadFailure(s: FormState): FormState {
    Close(s.(isLoading := false))
  }

  function AmountChange(s: FormState, v: Value): FormState {
    s.(amount := v)
  }

  function EmployeesChange(s: FormState, v: Value): FormState {
    s.(numberOfEmployees := v)
  }

  /** Submitting changes the fields only when validation accepts: the form turns busy. */
  function Submit(s: FormState, v: Verdict): FormState {
    if v == Accepted then s.(isLoading := true) else s
  }

  function SubmitSuccess(s: FormState): FormState {
    Close(s)
  }

  function SubmitFailure(s: FormState): FormState {
    s.(isLoading := false)
  }

  /** Closing twice leaves the form as closing once does. */
  lemma CloseIsIdempotent(s: FormState)
    ensures Close(Close(s)) == Close(s)
  {
  }

  /** A failed load closes the form: the result does not depend on the busy flag. */
  lemma LoadFailureIsClose(s: FormState)
    ensures LoadFailure(s) == Close(s)
    ensures !LoadFailure(s).isModalOpen && !LoadFailure(s).isLoading
  {
  }

  /** The handler or callback that fires; `Submit` carries the verdict its validation reached. */
  datatype Event =
    | OpenModal
    | CloseModal
    | LoadSucceeded(data: OpportunityData)
    | LoadFailed
    | AmountChanged(amount: Value)
    | EmployeesChanged(employees: Value)
    | Submitted(verdict: Verdict)
    | SubmitSucceeded
    | SubmitFailed

  function Step(s: FormState, e: Event): FormState {
    match e
    case OpenModal => Open(s)
    case CloseModal => Close(s)
    case LoadSucceeded(d) => LoadSuccess(s, d)
    case LoadFailed => LoadFailure(s)
    case AmountChanged(v) => AmountChange(s, v)
    case EmployeesChanged(v) => EmployeesChange(s, v)
    case Submitted(v) => Submit(s, v)
    case SubmitSucceeded => SubmitSuccess(s)
    case SubmitFailed => SubmitFailure(s)
  }

  /** The state after the events, in order, starting from `s`. */
  function Run(s: FormState, events: seq<Event>): FormState
    decreases |events|
  {
    if events == [] then s
    else Step(Run(s, events[..|events| - 1]), events[|events| - 1])
  }

  /** The data of the most recent successful load among the events, if any. */
  function LastLoad(events: seq<Event>): Option<OpportunityData>
    decreases |events|
  {
    if events == [] then None
    else if events[|events| - 1].LoadSucceeded? then Some(events[|events| - 1].data)
    else LastLoad(events[..|events| - 1])
  }

  /** The reset snapshot is always the one taken by the most recent successful load; with no
      load it is whatever the form started with. */
  lemma {:induction false} SnapshotIsLastLoad(s: FormState, events: seq<Event>)
    ensures match LastLoad(events)
            case Some(d) =>
              Run(s, events).originalAmount == LoadedAmount(d) &&
              Run(s, events).originalEmployees == LoadedEmployees(d)
            case None =>
              Run(s, events).originalAmount == s.originalAmount &&
              Run(s, events).originalEmployees == s.originalEmployees
    decreases |events|
  {
    if events != [] {
      SnapshotIsLastLoad(s, events[..|events| - 1]);
    }
  }

  /** Closing a form, whatever happened to it, shows the values of the last successful load,
      or zero when no load ever succeeded (in particular after a failed first load). */
  lemma CloseShowsLastLoad(events: seq<Event>)
    ensures var r := Run(Initial(), events + [CloseModal]);
            !r.isModalOpen && !r.isLoading &&
            match LastLoad(events)
            case Some(d) => r.amount == LoadedAmount(d) && r.numberOfEmployees == LoadedEmployees(d)
            case None => r.amount == Num(0.0) && r.numberOfEmployees == Num(0.0)
  {
    var all := events + [CloseModal];
    assert all[..|all| - 1] == events;
    SnapshotIsLastLoad(Initial(), events);
  }

  /** Every submit fires while the modal is open (the submit button lives in the modal). */
  ghost predicate SubmitsWhileOpen(s: FormState, events: seq<Event>) {
    forall k :: 0 <= k < |events| && events[k].Submitted? ==> Run(s, events[..k]).isModalOpen
  }

  /** The form is busy only while it is open: no event sequence in which submits come from
      the open modal leaves a closed form busy, late callbacks included. */
  lemma {:induction false} BusyOnlyWhileOpen(s: FormState, events: seq<Event>)
    requires s.isLoading ==> s.isModalOpen
    requires SubmitsWhileOpen(s, events)
    ensures Run(s, events).isLoading ==> Run(s, events).isModalOpen
    decreases |events|
  {
    if events != [] {
      var n := |events| - 1;
      var prefix := events[..n];
      forall k | 0 <= k < |prefix| && prefix[k].Submitted?
        ensures Run(s, prefix[..k]).isModalOpen
      {
        assert prefix[..k] == events[..k];
      }
      BusyOnlyWhileOpen(s, prefix);
      if events[n].Submitted? {
        assert events[..n] == prefix;
      }
    }
  }
}
