/**
 * The older billing page (client/src/App.js): the same form and edit state as
 * the dashboard, without validation and without an inline error. It posts to
 * a fixed server address; each request is returned as the URL it goes to and
 * the form it carries, and the outcome of the request is passed in.
 */
module App {
  import opened Wrappers
  import opened Text
  import opened Records

  const ServerAddress := "http://127.0.0.1:5000"

  class BillingRecordsView {
    var form: Form
    var editingBillId: Option<nat>

    constructor ()
      ensures form == EmptyForm && editingBillId == None
    {
      form := EmptyForm;
      editingBillId := None;
    }

    /** `handleChange`: only the named field of the form changes. */
    method HandleChange(field: FieldName, value: string)
      modifies this
      ensures form == old(form).With(field, value)
      ensures editingBillId == old(editingBillId)
    {
      form := form.With(field, value);
    }

    /** `addBill`: the form is posted as it is, whatever it holds; after a
        successful post it is reset to four empty strings. */
    method AddBill(postSucceeded: bool) returns (url: string, sent: Form)
      modifies this
      ensures url == ServerAddress + "/add_bill" && sent == old(form)
      ensures form == if postSucceeded then EmptyForm else old(form)
      ensures editingBillId == old(editingBillId)
    {
      url, sent := ServerAddress + "/add_bill", form;
      if postSucceeded {
        form := EmptyForm;
      }
    }

    /** `updateBill`: nothing without an edit target; otherwise the form's four
        fields are put to the target's URL, and success leaves edit mode with
        an empty form. */
    method UpdateBill(putSucceeded: bool) returns (sent: Option<(string, Form)>)
      modifies this
      ensures sent.Some? <==> IsEditing(old(editingBillId))
      ensures sent.Some? ==>
        sent.value == (ServerAddress + "/update_bill/" + Show(old(editingBillId).value), old(form))
      ensures sent.Some? && putSucceeded ==> form == EmptyForm && editingBillId == None
      ensures !(sent.Some? && putSucceeded) ==> form == old(form) && editingBillId == old(editingBillId)
    {
      if editingBillId.None? || editingBillId.value == 0 {
        return None;
      }
      sent := Some((ServerAddress + "/update_bill/" + Show(editingBillId.value),
                    Form(form.name, form.contact, form.email, form.amount)));
      if putSucceeded {
        form := EmptyForm;
        editingBillId := None;
      }
    }

    /** The Edit button of a table row: the row's id becomes the edit target
        and its four fields fill the form. */
    method StartEdit(bill: Bill)
      modifies this
      ensures editingBillId == Some(bill.id) && form == bill.AsForm()
    {
      editingBillId := Some(bill.id);
      form := Form(bill.name, bill.contact, bill.email, bill.amount);
    }
  }
}
