/**
 * The create/edit dialog for a merchant (src/components/MerchantModal.tsx):
 * the form it starts from, its field edits, and its submit handler.
 */
module MerchantModal {
  import opened Outcomes

  datatype MerchantStatus = Active | Inactive

  /** The `merchant` prop: the merchant being edited. */
  datatype EditedMerchant = EditedMerchant(
    id: int, username: string, email: string, name: string,
    description: string, status: MerchantStatus)

  /** The dialog's `formData`, which is also the body of every request it sends. */
  datatype MerchantForm = MerchantForm(
    username: string, password: string, name: string, email: string,
    description: string, status: MerchantStatus)

  /** One `onChange` of one input of the form. */
  datatype FormEdit =
    | EditUsername(username: string)
    | EditPassword(password: string)
    | EditName(name: string)
    | EditEmail(email: string)
    | EditDescription(description: string)
    | EditStatus(status: MerchantStatus)

  /** The requests the dialog can send. */
  datatype MerchantRequest =
    | Post(body: MerchantForm)                   // POST /merchant
    | Patch(merchantId: int, body: MerchantForm) // PATCH /merchant/{merchantId}

  /** The empty form of create mode. */
  const BlankForm: MerchantForm := MerchantForm("", "", "", "", "", Active)

  /**
   * The form the dialog starts from.  Every `merchant?.x || default` falls
   * back to a default equal to the value it replaces whenever that value is
   * falsy (an empty string; a status is never empty), so in edit mode the
   * form is a plain copy of the merchant, except the password, which always
   * starts empty.
   */
  function InitialForm(merchant: Option<EditedMerchant>): (f: MerchantForm)
    ensures merchant.None? ==> f == BlankForm
    ensures merchant.Some? ==>
              f.username == merchant.value.username && f.name == merchant.value.name &&
              f.email == merchant.value.email && f.description == merchant.value.description &&
              f.status == merchant.value.status
    ensures f.password == ""
  {
    match merchant
    case None => BlankForm
    case Some(m) => MerchantForm(m.username, "", m.name, m.email, m.description, m.status)
  }

  /** The form after one edit: `{ ...formData, field: value }`. */
  function ApplyEdit(f: MerchantForm, e: FormEdit): (r: MerchantForm)
    ensures e.EditUsername? ==> r == f.(username := e.username)
    ensures e.EditPassword? ==> r == f.(password := e.password)
    ensures e.EditName? ==> r == f.(name := e.name)
    ensures e.EditEmail? ==> r == f.(email := e.email)
    ensures e.EditDescription? ==> r == f.(description := e.description)
    ensures e.EditStatus? ==> r == f.(status := e.status)
  {
    match e
    case EditUsername(v) => f.(username := v)
    case EditPassword(v) => f.(password := v)
    case EditName(v) => f.(name := v)
    case EditEmail(v) => f.(email := v)
    case EditDescription(v) => f.(description := v)
    case EditStatus(v) => f.(status := v)
  }

  /** The form field an edit writes, numbered in the order of the form's inputs. */
  function FieldOf(e: FormEdit): nat
  {
    match e
    case EditUsername(_) => 0
    case EditPassword(_) => 1
    case EditName(_) => 2
    case EditEmail(_) => 3
    case EditDescription(_) => 4
    case EditStatus(_) => 5
  }

  /** Edits of different fields do not interfere: their order does not matter. */
  lemma DistinctEditsCommute(f: MerchantForm, a: FormEdit, b: FormEdit)
    requires FieldOf(a) != FieldOf(b)
    ensures ApplyEdit(ApplyEdit(f, a), b) == ApplyEdit(ApplyEdit(f, b), a)
  {
  }

  /** A later edit of the same field overwrites the earlier one entirely. */
  lemma LaterEditWins(f: MerchantForm, a: FormEdit, b: FormEdit)
    requires FieldOf(a) == FieldOf(b)
    ensures ApplyEdit(ApplyEdit(f, a), b) == ApplyEdit(f, b)
  {
  }

  /** The form after a series of edits, in order. */
  function ApplyEdits(f: MerchantForm, edits: seq<FormEdit>): MerchantForm
    decreases |edits|
  {
    if edits == [] then f else ApplyEdits(ApplyEdit(f, edits[0]), edits[1..])
  }

  /** Whether the dialog renders an input for this edit: the password input exists only in create mode. */
  predicate EditOffered(merchant: Option<EditedMerchant>, e: FormEdit)
  {
    e.EditPassword? ==> merchant.None?
  }

  /**
   * In edit mode no series of edits the dialog offers can change the
   * password, so every PATCH carries the empty password of the initial form.
   */
  lemma {:induction false} EditModeKeepsEmptyPassword(m: EditedMerchant, f: MerchantForm, edits: seq<FormEdit>)
    requires f.password == ""
    requires forall i :: 0 <= i < |edits| ==> EditOffered(Some(m), edits[i])
    ensures ApplyEdits(f, edits).password == ""
    decreases |edits|
  {
    if edits != [] {
      assert EditOffered(Some(m), edits[0]);
      EditModeKeepsEmptyPassword(m, ApplyEdit(f, edits[0]), edits[1..]);
    }
  }

  /** The request `handleSubmit` sends: PATCH for an edited merchant, POST otherwise, each with the whole form. */
  function SubmitRequest(merchant: Option<EditedMerchant>, form: MerchantForm): (r: MerchantRequest)
    ensures r.body == form
    ensures r.Patch? <==> merchant.Some?
    ensures r.Patch? ==> r.merchantId == merchant.value.id
  {
    match merchant
    case Some(m) => Patch(m.id, form)
    case None => Post(form)
  }

  /** An open dialog. */
  class MerchantDialog {
    const merchant: Option<EditedMerchant>
    var formData: MerchantForm

    /** Mounting the dialog derives the form from the `merchant` prop. */
    constructor (merchant: Option<EditedMerchant>)
      ensures this.merchant == merchant
      ensures formData == InitialForm(merchant)
    {
      this.merchant := merchant;
      formData := InitialForm(merchant);
    }

    /** An input's `onChange`: only the edited field changes. */
    method Edit(e: FormEdit)
      requires EditOffered(merchant, e)
      modifies this
      ensures formData == ApplyEdit(old(formData), e)
    {
      formData := ApplyEdit(formData, e);
    }

    /**
     * `handleSubmit`: sends the form and reports whether `onSave` is called,
     * which happens exactly when the request succeeds.  On failure the error
     * is only logged: neither `onSave` nor `onClose` runs and the form stays.
     */
    method HandleSubmit(response: ApiResult<()>) returns (sent: MerchantRequest, saved: bool)
      ensures sent == SubmitRequest(merchant, formData)
      ensures saved <==> response.Success?
    {
      sent := SubmitRequest(merchant, formData);
      saved := response.Success?;
    }
  }
}
