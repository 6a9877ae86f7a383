/** The new-claim form (src/pages/NewClaim.tsx): the initial form, the single-field
    change handlers, and the insert payload the submit handler builds. Number and
    date parsing are foreign to the model and come in as functions; the store's
    answer to the insert is an input. */
module NewClaim {
  import opened Wrappers
  import opened MockData

  /** The form's text fields, named as the inputs name them. */
  datatype FormField =
    | PolicyNumber | ClaimantName | ClaimantEmail | ClaimantPhone | IncidentDate | Description | Amount

  datatype FormData = FormData(
    policyNumber: string,
    claimantName: string,
    claimantEmail: string,
    claimantPhone: string,
    incidentDate: string,
    description: string,
    amount: string,
    status: ClaimStatus)

  /** The text a field holds. */
  function FieldValue(f: FormData, k: FormField): string {
    match k
    case PolicyNumber => f.policyNumber
    case ClaimantName => f.claimantName
    case ClaimantEmail => f.claimantEmail
    case ClaimantPhone => f.claimantPhone
    case IncidentDate => f.incidentDate
    case Description => f.description
    case Amount => f.amount
  }

  /** The form on first render: every text field empty, status pending. */
  function InitialForm(): (f: FormData)
    ensures f.status == Pending
    ensures forall k :: FieldValue(f, k) == ""
  {
    FormData("", "", "", "", "", "", "", Pending)
  }

  /** `{...prev, [name]: value}` for a text field. */
  function WithField(f: FormData, k: FormField, value: string): (r: FormData)
    ensures FieldValue(r, k) == value
    ensures forall k' :: k' != k ==> FieldValue(r, k') == FieldValue(f, k')
    ensures r.status == f.status
  {
    match k
    case PolicyNumber => f.(policyNumber := value)
    case ClaimantName => f.(claimantName := value)
    case ClaimantEmail => f.(claimantEmail := value)
    case ClaimantPhone => f.(claimantPhone := value)
    case IncidentDate => f.(incidentDate := value)
    case Description => f.(description := value)
    case Amount => f.(amount := value)
  }

  /** Writing a field twice keeps the later value; writing back what a field holds changes nothing. */
  lemma WithFieldLaws(f: FormData, k: FormField, v: string, w: string)
    ensures WithField(WithField(f, k, v), k, w) == WithField(f, k, w)
    ensures WithField(f, k, FieldValue(f, k)) == f
  {
  }

  /** The row the submit handler inserts. */
  datatype InsertPayload = InsertPayload(
    userId: string,
    policyNumber: string,
    claimantName: string,
    claimantEmail: string,
    claimantPhone: string,
    incidentDate: Option<int>,
    description: string,
    amount: Option<int>,
    status: ClaimStatus)

  /** The insert payload: the signed-in agent owns the claim, the text fields are copied
      as typed, an empty incident date or amount is sent as null, and anything else
      goes through the date and number parsers. */
  function BuildPayload(user: Agent, form: FormData, parseAmount: string -> int,
                        toTimestamp: string -> int): (p: InsertPayload)
    ensures p.userId == user.id && p.status == form.status
    ensures p.policyNumber == form.policyNumber && p.claimantName == form.claimantName
    ensures p.claimantEmail == form.claimantEmail && p.claimantPhone == form.claimantPhone
    ensures p.description == form.description
    ensures p.incidentDate.None? <==> form.incidentDate == ""
    ensures p.incidentDate.Some? ==> p.incidentDate.value == toTimestamp(form.incidentDate)
    ensures p.amount.None? <==> form.amount == ""
    ensures p.amount.Some? ==> p.amount.value == parseAmount(form.amount)
  {
    InsertPayload(
      user.id, form.policyNumber, form.claimantName, form.claimantEmail, form.claimantPhone,
      if form.incidentDate != "" then Some(toTimestamp(form.incidentDate)) else None,
      form.description,
      if form.amount != "" then Some(parseAmount(form.amount)) else None,
      form.status)
  }

  /** Submitting the untouched form sends a pending claim with no incident date and no amount. */
  lemma UntouchedFormPayload(user: Agent, parseAmount: string -> int, toTimestamp: string -> int)
    ensures var p := BuildPayload(user, InitialForm(), parseAmount, toTimestamp);
      p.status == Pending && p.incidentDate.None? && p.amount.None? && p.policyNumber == ""
  {
  }

  datatype SubmitOutcome =
    | NoUser                          // nothing happens
    | Created(payload: InsertPayload) // "Claim created successfully", then on to the list
    | CreateFailed(payload: InsertPayload)

  class NewClaimPage {
    var formData: FormData
    var isSubmitting: bool

    constructor ()
      ensures formData == InitialForm() && !isSubmitting
    {
      formData := InitialForm();
      isSubmitting := false;
    }

    /** `handleChange`: one text field takes the typed value. */
    method HandleChange(k: FormField, value: string)
      modifies this`formData
      ensures formData == WithField(old(formData), k, value)
    {
      formData := WithField(formData, k, value);
    }

    /** `handleSelectChange('status')`. */
    method SelectStatus(status: ClaimStatus)
      modifies this`formData
      ensures formData == old(formData).(status := status)
    {
      formData := formData.(status := status);
    }

    /** `handleSubmit`: without a signed-in agent nothing happens; otherwise the payload
        is sent once and submitting is off afterwards. The form is kept either way. */
    method HandleSubmit(currentUser: Option<Agent>, insertFails: bool,
                        parseAmount: string -> int, toTimestamp: string -> int)
      returns (outcome: SubmitOutcome)
      modifies this`isSubmitting
      ensures currentUser.None? ==> outcome == NoUser && isSubmitting == old(isSubmitting)
      ensures currentUser.Some? ==>
        var p := BuildPayload(currentUser.value, formData, parseAmount, toTimestamp);
        outcome == (if insertFails then CreateFailed(p) else Created(p)) && !isSubmitting
    {
      if currentUser.None? {
        return NoUser;
      }
      isSubmitting := true;
      var payload := BuildPayload(currentUser.value, formData, parseAmount, toTimestamp);
      outcome := if insertFails then CreateFailed(payload) else Created(payload);
      isSubmitting := false;
    }
  }
}
