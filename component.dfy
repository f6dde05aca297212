/** The `OpportunityUpdateForm` component: the fields its handlers assign and the handlers
    themselves. Remote calls are split into a method that issues the request (recorded in a
    ghost log) and methods for its success and failure callbacks; the callbacks carry no
    precondition on the form's state, as the callbacks in the component check none. */
module Component {
  import opened Wrappers
  import opened Notifications
  import opened ErrorMessages
  import opened Validation
  import opened Session

  type RecordId = string

  /** The arguments of one update call: the record, the amount as stored, and the employee
      count as `parseInt` read it. */
  datatype UpdateRequest = UpdateRequest(opportunityId: RecordId, amount: Value, numberOfEmployees: Option<int>)

  class OpportunityUpdateForm {
    /** The record the component sits on; the component never assigns it. */
    const recordId: RecordId
    /** `parseInt(value, 10)`, with `None` for `NaN`. */
    const parseInt: Value -> Option<int>

    var isModalOpen: bool
    var isLoading: bool
    var opportunityName: string
    var accountName: string
    var amount: Value
    var numberOfEmployees: Value
    var originalAmount: Value
    var originalEmployees: Value

    /** Toasts dispatched, oldest first. */
    ghost var toasts: seq<Toast>
    /** Record ids passed to the data fetch, one per fetch issued. */
    ghost var fetches: seq<RecordId>
    /** Update calls issued. */
    ghost var updates: seq<UpdateRequest>
    /** Page refreshes requested after a successful update. */
    ghost var refreshes: nat

    /** The fields as a value, so that the session lemmas apply to the component. */
    function State(): FormState
      reads this
    {
      FormState(isModalOpen, isLoading, opportunityName, accountName,
                amount, numberOfEmployees, originalAmount, originalEmployees)
    }

    constructor (recordId: RecordId, parseInt: Value -> Option<int>)
      ensures this.recordId == recordId && this.parseInt == parseInt
      ensures State() == Initial()
      ensures toasts == [] && fetches == [] && updates == [] && refreshes == 0
    {
      this.recordId := recordId;
      this.parseInt := parseInt;
      isModalOpen := false;
      isLoading := false;
      opportunityName := "";
      accountName := "";
      amount := Num(0.0);
      numberOfEmployees := Num(0.0);
      originalAmount := Num(0.0);
      originalEmployees := Num(0.0);
      toasts := [];
      fetches := [];
      updates := [];
      refreshes := 0;
    }

    method ShowToast(title: string, message: string, variant: string)
      modifies this`toasts
      ensures toasts == old(toasts) + [Toast(title, message, variant)]
    {
      toasts := toasts + [Toast(title, message, variant)];
    }

    /** Opens the modal, turns the form busy and issues exactly one fetch for the record. */
    method HandleOpenModal()
      modifies this
      ensures isModalOpen && isLoading
      ensures State() == Open(old(State()))
      ensures fetches == old(fetches) + [recordId]
      ensures toasts == old(toasts) && updates == old(updates) && refreshes == old(refreshes)
    {
      isModalOpen := true;
      isLoading := true;
      LoadOpportunityData();
    }

    /** Closes the modal and restores the edited fields to the snapshot; the snapshot, the
        names and the logs stay as they were. */
    method HandleCloseModal()
      modifies this
      ensures !isModalOpen && !isLoading
      ensures amount == originalAmount == old(originalAmount)
      ensures numberOfEmployees == originalEmployees == old(originalEmployees)
      ensures opportunityName == old(opportunityName) && accountName == old(accountName)
      ensures State() == Close(old(State()))
      ensures toasts == old(toasts) && fetches == old(fetches)
      ensures updates == old(updates) && refreshes == old(refreshes)
    {
      isModalOpen := false;
      ResetForm();
    }

    /** Issues the data fetch; its completion is `LoadSucceeded` or `LoadFailed`. */
    method LoadOpportunityData()
      modifies this`fetches
      ensures fetches == old(fetches) + [recordId]
    {
      fetches := fetches + [recordId];
    }

    /** The fetch resolved: the fields take the loaded values (0 for an absent number), the
        snapshot equals them, and the form is no longer busy. */
    method LoadSucceeded(result: OpportunityData)
      modifies this
      ensures opportunityName == result.opportunityName && accountName == result.accountName
      ensures amount == originalAmount == LoadedAmount(result)
      ensures numberOfEmployees == originalEmployees == LoadedEmployees(result)
      ensures !isLoading && isModalOpen == old(isModalOpen)
      ensures State() == LoadSuccess(old(State()), result)
      ensures toasts == old(toasts) && fetches == old(fetches)
      ensures updates == old(updates) && refreshes == old(refreshes)
    {
      opportunityName := result.opportunityName;
      accountName := result.accountName;
      amount := LoadedAmount(result);
      numberOfEmployees := LoadedEmployees(result);
      originalAmount := amount;
      originalEmployees := numberOfEmployees;
      isLoading := false;
    }

    /** The fetch was rejected: one error toast with the failure's message, then the form
        closes, showing the snapshot as it stood before the load. */
    method LoadFailed(error: RemoteError)
      modifies this
      ensures !isLoading && !isModalOpen
      ensures amount == old(originalAmount) && numberOfEmployees == old(originalEmployees)
      ensures State() == LoadFailure(old(State()))
      ensures toasts == old(toasts) + [ErrorToast(GetErrorMessage(error))]
      ensures fetches == old(fetches) && updates == old(updates) && refreshes == old(refreshes)
    {
      isLoading := false;
      ShowToast(ErrorTitle, GetErrorMessage(error), ErrorVariant);
      HandleCloseModal();
    }

    /** Stores the raw input as the amount; nothing else changes. */
    method HandleAmountChange(value: Value)
      modifies this`amount
      ensures amount == value
      ensures State() == AmountChange(old(State()), value)
    {
      amount := value;
    }

    /** Stores the raw input as the employee count; nothing else changes. */
    method HandleEmployeesChange(value: Value)
      modifies this`numberOfEmployees
      ensures numberOfEmployees == value
      ensures State() == EmployeesChange(old(State()), value)
    {
      numberOfEmployees := value;
    }

    /** Validates the form given each input control's validity, in document order, and
        dispatches the toast of a rejection. No field changes. */
    method ValidateForm(controls: seq<bool>) returns (valid: bool)
      modifies this`toasts
      ensures valid <==> Validate(controls, parseInt(numberOfEmployees)) == Accepted
      ensures toasts == old(toasts) + ValidationToasts(Validate(controls, parseInt(numberOfEmployees)))
    {
      var allValid := ReduceValidity(true, controls);
      if !allValid {
        ShowToast(ErrorTitle, FixErrorsMessage, ErrorVariant);
        return false;
      }
      var employees := parseInt(numberOfEmployees);
      if OutOfRange(employees) {
        ShowToast(ErrorTitle, EmployeesRangeMessage, ErrorVariant);
        return false;
      }
      return true;
    }

    /** Validates; on rejection nothing but the toast log changes and no update is issued.
        Otherwise the form turns busy and exactly one update is issued with the record id,
        the amount and the parsed employee count. */
    method HandleSubmit(controls: seq<bool>)
      modifies this
      ensures var v := Validate(controls, parseInt(old(numberOfEmployees)));
              && toasts == old(toasts) + ValidationToasts(v)
              && State() == Submit(old(State()), v)
              && (v != Accepted ==> updates == old(updates))
              && (v == Accepted ==>
                    isLoading &&
                    updates == old(updates) + [UpdateRequest(recordId, amount, parseInt(numberOfEmployees))])
      ensures fetches == old(fetches) && refreshes == old(refreshes)
    {
      var valid := ValidateForm(controls);
      if !valid {
        return;
      }
      isLoading := true;
      updates := updates + [UpdateRequest(recordId, amount, parseInt(numberOfEmployees))];
    }

    /** The update resolved with a confirmation text: a success toast carrying exactly that
        text, the form closes, and a page refresh is requested. */
    method SubmitSucceeded(result: string)
      modifies this
      ensures toasts == old(toasts) + [SuccessToast(result)]
      ensures !isModalOpen && !isLoading
      ensures amount == old(originalAmount) && numberOfEmployees == old(originalEmployees)
      ensures State() == SubmitSuccess(old(State()))
      ensures refreshes == old(refreshes) + 1
      ensures fetches == old(fetches) && updates == old(updates)
    {
      ShowToast(SuccessTitle, result, SuccessVariant);
      HandleCloseModal();
      refreshes := refreshes + 1;
    }

    /** The update was rejected: the form stops being busy and shows an error toast; the
        modal and the unsaved edits stay as they are, so the user can retry. */
    method SubmitFailed(error: RemoteError)
      modifies this
      ensures !isLoading
      ensures isModalOpen == old(isModalOpen)
      ensures amount == old(amount) && numberOfEmployees == old(numberOfEmployees)
      ensures State() == SubmitFailure(old(State()))
      ensures toasts == old(toasts) + [ErrorToast(GetErrorMessage(error))]
      ensures fetches == old(fetches) && updates == old(updates) && refreshes == old(refreshes)
    {
      isLoading := false;
      ShowToast(ErrorTitle, GetErrorMessage(error), ErrorVariant);
    }

    /** Stops the busy state and restores the edited fields to the snapshot. */
    method ResetForm()
      modifies this
      ensures !isLoading
      ensures amount == originalAmount && numberOfEmployees == originalEmployees
      ensures State() == Reset(old(State()))
      ensures toasts == old(toasts) && fetches == old(fetches)
      ensures updates == old(updates) && refreshes == old(refreshes)
    {
      isLoading := false;
      amount := originalAmount;
      numberOfEmployees := originalEmployees;
    }
  }

  /** Closing the component twice leaves it as closing it once does. */
  method CloseTwice(form: OpportunityUpdateForm)
    modifies form
    ensures form.State() == Close(old(form.State()))
    ensures form.toasts == old(form.toasts) && form.fetches == old(form.fetches)
    ensures form.updates == old(form.updates) && form.refreshes == old(form.refreshes)
  {
    form.HandleCloseModal();
    form.HandleCloseModal();
    CloseIsIdempotent(old(form.State()));
  }
}
