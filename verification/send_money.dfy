/** `useSendMoney`: the send-money form's submit guard, the request it
    builds, and the form's state changes. `parseFloat(amount)` is a
    parameter (`None` for `NaN`), and the outcome of the request comes back
    as a `SendResult`. */
module SendMoney {
  import opened Values
  import Recipients
  import Ledger

  const MsgInvalidAmount := "Please enter a valid amount"
  const MsgInsufficient := "Insufficient balance"
  const MsgSendFailed := "Failed to send money"
  const InitialCategory := "Other"

  datatype Form = Form(
    searchTerm: string, selected: Option<Recipients.User>, amount: string,
    category: string, description: string, error: Option<string>)

  const InitialForm := Form("", None, "", InitialCategory, "", None)

  /** `CreateTransactionRequest`: the body the client posts. */
  datatype ClientRequest = ClientRequest(receiverId: string, amount: real, category: string, description: string)

  datatype Submission = Ignored | Invalid(error: string) | Request(req: ClientRequest)

  /** `handleSubmit` up to the request: nothing without a recipient, an
      amount text or a token; then the amount must parse to a positive
      number not above the balance. */
  predicate Guard(f: Form, hasToken: bool) {
    f.selected.Some? && f.amount != "" && hasToken
  }

  function Submit(f: Form, hasToken: bool, balance: real, parsed: Option<real>): (r: Submission)
    ensures r == Ignored <==> !Guard(f, hasToken)
    ensures r == Invalid(MsgInvalidAmount) <==>
      Guard(f, hasToken) && (parsed.None? || parsed.value <= 0.0)
    ensures r == Invalid(MsgInsufficient) <==>
      Guard(f, hasToken) && parsed.Some? && 0.0 < parsed.value && parsed.value > balance
    ensures r.Invalid? ==> r.error in {MsgInvalidAmount, MsgInsufficient}
    ensures r.Request? <==>
      f.selected.Some? && f.amount != "" && hasToken && parsed.Some? && 0.0 < parsed.value <= balance
    ensures r.Request? ==>
      && r.req.receiverId == f.selected.value.id
      && r.req.amount == parsed.value
      && r.req.category != ""
      && (f.category != "" ==> r.req.category == f.category)
      && (f.category == "" ==> r.req.category == InitialCategory)
      && r.req.description == f.description
  {
    if f.selected == None || f.amount == "" || !hasToken then Ignored
    else if parsed == None || parsed.value <= 0.0 then Invalid(MsgInvalidAmount)
    else if parsed.value > balance then Invalid(MsgInsufficient)
    else Request(ClientRequest(f.selected.value.id, parsed.value,
                               StrOr(f.category, InitialCategory), StrOr(f.description, "")))
  }

  /** The form after the guard: an error on rejection, cleared when the
      request goes out. */
  function AfterSubmit(f: Form, s: Submission): (g: Form)
    ensures s.Ignored? ==> g == f
    ensures s.Invalid? ==> g == f.(error := Some(s.error))
    ensures s.Request? ==> g == f.(error := None)
  {
    match s
    case Ignored => f
    case Invalid(e) => f.(error := Some(e))
    case Request(_) => f.(error := None)
  }

  datatype SendResult = Succeeded | Failed(message: Option<string>)

  /** The form once the request settles: on success the recipient, amount,
      description and search are cleared and the category kept; on failure
      the error shows the message or a default. */
  function AfterSend(f: Form, res: SendResult): (g: Form)
    ensures res.Succeeded? ==> g == Form("", None, "", f.category, "", f.error)
    ensures res.Failed? ==> g == f.(error := Some(OrElse(res.message, MsgSendFailed)))
  {
    match res
    case Succeeded => f.(selected := None, amount := "", description := "", searchTerm := "")
    case Failed(m) => f.(error := Some(OrElse(m, MsgSendFailed)))
  }

  /** `handleUserSelect`. */
  function Select(f: Form, u: Recipients.User): (g: Form)
    ensures g.selected == Some(u) && g.searchTerm == u.name
    ensures g.amount == f.amount && g.category == f.category && g.description == f.description
  {
    f.(selected := Some(u), searchTerm := u.name)
  }

  /** `handleUserDeselect`. */
  function Deselect(f: Form): (g: Form)
    ensures g.selected == None && g.searchTerm == ""
    ensures g.amount == f.amount && g.category == f.category && g.description == f.description
  {
    f.(selected := None, searchTerm := "")
  }

  /** Deselecting undoes a selection, whatever was selected. */
  lemma DeselectUndoesSelect(f: Form, u: Recipients.User)
    ensures Deselect(Select(f, u)) == Deselect(f)
  {
  }

  /** A successful send cannot be resubmitted: the cleared form is ignored. */
  lemma NoResubmitAfterSuccess(f: Form, hasToken: bool, balance: real, parsed: Option<real>)
    ensures Submit(AfterSend(f, Succeeded), hasToken, balance, parsed) == Ignored
  {
  }

  /** The client's category default is "Other", the server's "other"; the
      client always sends a category, so only the client's default is ever
      stored. */
  lemma CategoryDefaultsDiffer(f: Form, hasToken: bool, balance: real, parsed: Option<real>, sub: string)
    requires Submit(f, hasToken, balance, parsed).Request? && f.category == ""
    ensures Submit(f, hasToken, balance, parsed).req.category == InitialCategory
    ensures AuthenticatedBody(Submit(f, hasToken, balance, parsed).req, sub).category == Some(InitialCategory)
    ensures InitialCategory != Ledger.DefaultCategory
  {
  }

  // ---------------------------------------------------------------------
  // The request as the server reads it

  /** The body the server receives: no `senderId`, since the client does
      not send one. */
  function BodyAsSent(req: ClientRequest): Ledger.TransferBody {
    Ledger.TransferBody(None, Some(req.receiverId), Ledger.Number(req.amount),
                        Some(req.category), Some(req.description))
  }

  /** As written every transfer the form submits is refused with 400 and
      changes nothing. */
  lemma ClientTransferRejected(f: Form, hasToken: bool, balance: real, parsed: Option<real>,
                               s: Ledger.Store, freshId: string, now: int)
    requires Submit(f, hasToken, balance, parsed).Request?
    ensures var body := BodyAsSent(Submit(f, hasToken, balance, parsed).req);
      Ledger.CreateTransaction(s, body, freshId, now) == Ledger.Outcome(Ledger.BadRequest(Ledger.MsgIdsRequired), s)
  {
  }

  /** The body with the sender taken from the authenticated identity `sub`. */
  function AuthenticatedBody(req: ClientRequest, sub: string): (b: Ledger.TransferBody)
    ensures b.senderId == Some(sub)
    ensures b.receiverId == Some(req.receiverId) && b.amount == Ledger.Number(req.amount)
  {
    Ledger.TransferBody(Some(sub), Some(req.receiverId), Ledger.Number(req.amount),
                        Some(req.category), Some(req.description))
  }

  /** With the sender supplied, a request the form lets through is accepted
      whenever both users exist; the form's balance check then keeps the
      sender's balance non-negative, which the server itself never checks. */
  lemma AuthenticatedTransferAccepted(f: Form, hasToken: bool, parsed: Option<real>,
                                      s: Ledger.Store, sub: string, freshId: string, now: int)
    requires sub in s.users && sub != ""
    requires var balance := Ledger.BalanceOf(s.users, sub);
      Submit(f, hasToken, balance, parsed).Request?
    requires var req := Submit(f, hasToken, Ledger.BalanceOf(s.users, sub), parsed).req;
      req.receiverId in s.users && req.receiverId != ""
    ensures var req := Submit(f, hasToken, Ledger.BalanceOf(s.users, sub), parsed).req;
      var o := Ledger.CreateTransaction(s, AuthenticatedBody(req, sub), freshId, now);
      && o.response.Created?
      && o.response.transaction.category == req.category
      && Ledger.BalanceOf(o.store.users, sub) >= 0.0
  {
  }
}
