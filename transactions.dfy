/**
 * The merchant's transaction screen (src/views/Transactions.tsx): the
 * create-transaction form and the transaction history.
 */
module Transactions {
  import opened Outcomes

  datatype TransactionType = Authorize | Charge | Refund | Reversal

  datatype TransactionStatus = Approved | Reversed | Refunded | Error

  /** One row of the history, as the server sends it. */
  datatype Transaction = Transaction(
    uuid: string, transactionType: TransactionType, status: TransactionStatus,
    creationDate: string, customerEmail: string, customerPhone: string, amount: real)

  /** The `newTransaction` form, which is also the body of `POST /transaction`. */
  datatype TransactionForm = TransactionForm(
    transactionType: TransactionType, referenceId: string, customerEmail: string,
    customerPhone: string, amount: real, merchantId: int)

  /** One `onChange` of one input of the form; the amount arrives already parsed. */
  datatype FormEdit =
    | EditType(transactionType: TransactionType)
    | EditReferenceId(referenceId: string)
    | EditCustomerEmail(customerEmail: string)
    | EditCustomerPhone(customerPhone: string)
    | EditAmount(amount: real)

  /**
   * The form a mount or a reset starts from, for the merchant id found in
   * the stored `merchant` record at that moment.
   */
  function DefaultForm(merchantId: int): (f: TransactionForm)
    ensures f.transactionType == Authorize && f.amount == 0.0
    ensures f.referenceId == "" && f.customerEmail == "" && f.customerPhone == ""
    ensures f.merchantId == merchantId
  {
    TransactionForm(Authorize, "", "", "", 0.0, merchantId)
  }

  /** The form after one edit: `{ ...newTransaction, field: value }`; the merchant id is never edited. */
  function ApplyEdit(f: TransactionForm, e: FormEdit): (r: TransactionForm)
    ensures r.merchantId == f.merchantId
    ensures e.EditType? ==> r == f.(transactionType := e.transactionType)
    ensures e.EditReferenceId? ==> r == f.(referenceId := e.referenceId)
    ensures e.EditCustomerEmail? ==> r == f.(customerEmail := e.customerEmail)
    ensures e.EditCustomerPhone? ==> r == f.(customerPhone := e.customerPhone)
    ensures e.EditAmount? ==> r == f.(amount := e.amount)
  {
    match e
    case EditType(v) => f.(transactionType := v)
    case EditReferenceId(v) => f.(referenceId := v)
    case EditCustomerEmail(v) => f.(customerEmail := v)
    case EditCustomerPhone(v) => f.(customerPhone := v)
    case EditAmount(v) => f.(amount := v)
  }

  /** The form after a series of edits, in order. */
  function ApplyEdits(f: TransactionForm, edits: seq<FormEdit>): TransactionForm
    decreases |edits|
  {
    if edits == [] then f else ApplyEdits(ApplyEdit(f, edits[0]), edits[1..])
  }

  /** No series of edits changes the merchant id the form was created with. */
  lemma {:induction false} EditsKeepMerchantId(f: TransactionForm, edits: seq<FormEdit>)
    ensures ApplyEdits(f, edits).merchantId == f.merchantId
    decreases |edits|
  {
    if edits != [] {
      EditsKeepMerchantId(ApplyEdit(f, edits[0]), edits[1..]);
    }
  }

  /** The history after `fetchTransactions` resolves: replaced on success, kept on failure. */
  function AfterFetch(transactions: seq<Transaction>, response: ApiResult<seq<Transaction>>): (r: seq<Transaction>)
    ensures response.Success? ==> r == response.payload
    ensures response.Failure? ==> r == transactions
  {
    match response
    case Success(fetched) => fetched
    case Failure => transactions
  }

  /** The mounted transaction screen. */
  class TransactionsView {
    var transactions: seq<Transaction>
    var newTransaction: TransactionForm

    /**
     * Mounting: an empty history and the default form.  `storedMerchantId`
     * is `data.id` of the JSON record stored under `merchant`.
     */
    constructor (storedMerchantId: int)
      ensures transactions == []
      ensures newTransaction == DefaultForm(storedMerchantId)
    {
      transactions := [];
      newTransaction := DefaultForm(storedMerchantId);
    }

    /** `fetchTransactions` (`GET /transaction/merchant/current`), run on mount and after a create. */
    method FetchTransactions(response: ApiResult<seq<Transaction>>)
      modifies this
      ensures transactions == AfterFetch(old(transactions), response)
      ensures newTransaction == old(newTransaction)
    {
      if response.Success? {
        transactions := response.payload;
      }
    }

    /** An input's `onChange`: only the edited field changes. */
    method Edit(e: FormEdit)
      modifies this
      ensures newTransaction == ApplyEdit(old(newTransaction), e)
      ensures transactions == old(transactions)
    {
      newTransaction := ApplyEdit(newTransaction, e);
    }

    /**
     * `handleCreateTransaction`: posts the form as it stands, whatever its
     * type and reference id.  On success it refetches the history (whose
     * outcome is `refetched`) and resets the form for the merchant id then
     * stored; on failure the error is only logged and nothing changes.
     */
    method HandleCreateTransaction(created: ApiResult<()>, refetched: ApiResult<seq<Transaction>>,
                                   storedMerchantId: int)
      returns (sent: TransactionForm)
      modifies this
      ensures sent == old(newTransaction)
      ensures created.Success? ==>
                transactions == AfterFetch(old(transactions), refetched) &&
                newTransaction == DefaultForm(storedMerchantId)
      ensures created.Failure? ==>
                transactions == old(transactions) && newTransaction == old(newTransaction)
    {
      sent := newTransaction;
      if created.Success? {
        FetchTransactions(refetched);
        newTransaction := DefaultForm(storedMerchantId);
      }
    }
  }

  /**
   * There is no check on the reference id: on a freshly mounted screen,
   * choosing REFUND or REVERSAL and submitting at once posts a form with an
   * empty reference id, and on success the form is reset all the same.
   */
  method RefundWithoutReferenceIsPosted(merchantId: int, kind: TransactionType,
                                        created: ApiResult<()>, refetched: ApiResult<seq<Transaction>>)
    returns (sent: TransactionForm, after: TransactionForm)
    requires kind == Refund || kind == Reversal
    ensures sent == DefaultForm(merchantId).(transactionType := kind)
    ensures sent.referenceId == ""
    ensures after == if created.Success? then DefaultForm(merchantId) else sent
  {
    var view := new TransactionsView(merchantId);
    view.Edit(EditType(kind));
    sent := view.HandleCreateTransaction(created, refetched, merchantId);
    after := view.newTransaction;
  }
}
