/**
 * The bill form of the dashboard (client/src/components/dashboard/Dashboard.js):
 * the `formData`, `editingBillId` and `error` state and the handlers that
 * change them. The outcome of each server call is passed in: `None` when the
 * call resolved, `Some(message)` when it threw an error with that message.
 */
module Dashboard {
  import opened Wrappers
  import opened Records
  import opened Validation

  /** The button the form shows: `editingBillId ? Update : Add`. */
  datatype Button = AddButton | UpdateButton

  const FillAllFields := "Please fill in all fields"
  const BillAdded := "Bill added successfully!"
  const BillUpdated := "Bill updated successfully!"

  class DashboardView {
    var form: Form
    var editingBillId: Option<nat>
    /** The inline message shown above the statistics. */
    var error: string

    constructor ()
      ensures form == EmptyForm && editingBillId == None && error == ""
    {
      form := EmptyForm;
      editingBillId := None;
      error := "";
    }

    /** The form offers Update exactly while an edit target is set. */
    function ButtonShown(): (b: Button)
      reads this
      ensures b == UpdateButton <==> IsEditing(editingBillId)
    {
      if IsEditing(editingBillId) then UpdateButton else AddButton
    }

    /** `handleChange`: one input changed; only that field of the form moves. */
    method HandleChange(field: FieldName, value: string)
      modifies this
      ensures form == old(form).With(field, value)
      ensures editingBillId == old(editingBillId) && error == old(error)
    {
      form := form.With(field, value);
    }

    /**
     * `addBill`. A missing field raises an alert and leaves `error` as it
     * was; each format rule either sets its own message and stops or clears
     * the message and lets the next rule run. Only a form that passes every
     * rule is sent, as it is; the form is cleared only when the server call
     * succeeds.
     */
    method AddBill(addFailure: Option<string>) returns (sent: Option<Form>, alert: Option<string>)
      modifies this
      ensures sent.Some? <==> Validate(old(form)) == Accepted
      ensures sent.Some? ==> sent.value == old(form)
      ensures Validate(old(form)) == MissingField ==> error == old(error) && alert == Some(FillAllFields)
      ensures Validate(old(form)) != MissingField ==> error == Message(Validate(old(form)))
      ensures Validate(old(form)) != MissingField && Validate(old(form)) != Accepted ==> alert == None
      ensures Validate(old(form)) == Accepted ==>
        alert == Some(if addFailure.Some? then "Failed to add bill: " + addFailure.value else BillAdded)
      ensures form == if sent.Some? && addFailure.None? then EmptyForm else old(form)
      ensures editingBillId == old(editingBillId)
    {
      sent, alert := None, None;
      if form.name == "" || form.contact == "" || form.email == "" || form.amount == "" {
        alert := Some(FillAllFields);
        return;
      }
      if !NamePattern(form.name) {
        error := "Name must be filled";
        return;
      }
      error := "";
      if !ContactPattern(form.contact) {
        error := "Contact must be exactly 10 digits";
        return;
      }
      error := "";
      if !EmailPattern(form.email) {
        error := "Email must be a valid @gmail.com address";
        return;
      }
      error := "";
      if !AmountPattern(form.amount) {
        error := "Amount must not be empty";
        return;
      }
      error := "";
      sent := Some(form);
      if addFailure.Some? {
        alert := Some("Failed to add bill: " + addFailure.value);
        return;
      }
      form := EmptyForm;
      alert := Some(BillAdded);
    }

    /**
     * `updateBill`. Without an edit target nothing happens. Otherwise the
     * only check is that no field is empty (the format rules of `addBill`
     * are not applied); the form is sent with the target's id, and a
     * successful update clears the form and leaves edit mode. `error` is
     * never touched.
     */
    method UpdateBill(updateFailure: Option<string>) returns (sent: Option<(nat, Form)>, alert: Option<string>)
      modifies this
      ensures !IsEditing(old(editingBillId)) ==> sent == None && alert == None
      ensures IsEditing(old(editingBillId)) && !old(form).AllFilled() ==>
        sent == None && alert == Some(FillAllFields)
      ensures sent.Some? <==> IsEditing(old(editingBillId)) && old(form).AllFilled()
      ensures sent.Some? ==> sent.value == (old(editingBillId).value, old(form))
      ensures sent.Some? ==>
        alert == Some(if updateFailure.Some? then "Failed to update bill: " + updateFailure.value else BillUpdated)
      ensures sent.Some? && updateFailure.None? ==> form == EmptyForm && editingBillId == None
      ensures !(sent.Some? && updateFailure.None?) ==> form == old(form) && editingBillId == old(editingBillId)
      ensures error == old(error)
    {
      sent, alert := None, None;
      if editingBillId.None? || editingBillId.value == 0 {
        return;
      }
      if form.name == "" || form.contact == "" || form.email == "" || form.amount == "" {
        alert := Some(FillAllFields);
        return;
      }
      sent := Some((editingBillId.value, Form(form.name, form.contact, form.email, form.amount)));
      if updateFailure.Some? {
        alert := Some("Failed to update bill: " + updateFailure.value);
        return;
      }
      form := EmptyForm;
      editingBillId := None;
      alert := Some(BillUpdated);
    }

    /** The Edit button of a table row: the row becomes the edit target and
        its four fields are copied into the form. */
    method StartEdit(bill: Bill)
      modifies this
      ensures editingBillId == Some(bill.id) && form == bill.AsForm()
      ensures error == old(error)
    {
      editingBillId := Some(bill.id);
      form := Form(bill.name, bill.contact, bill.email, bill.amount);
    }
  }
}
