/** The password form of the profile page: its validator, the submit
    guard, the button's disabled state, the reset after success and the
    failure message. */
module PasswordSection {
  import opened Values
  import opened Chars
  import opened PasswordMessages
  import PasswordController
  import PasswordHook
  import Seqs

  /** `validatePassword`: every rule is guarded by `password.length > 0`. */
  function ValidatePassword(p: string): (errs: seq<string>)
    ensures p == "" ==> errs == []
    ensures InRuleOrder(errs)
  {
    RanksOfMessages(8);
    var e1 := Push([], JsLength(p) > 0 && JsLength(p) < 8, MsgLength);
    var e2 := Push(e1, JsLength(p) > 0 && !HasUpper(p), MsgUpper);
    var e3 := Push(e2, JsLength(p) > 0 && !HasLower(p), MsgLower);
    Push(e3, JsLength(p) > 0 && !HasDigit(p), MsgDigit)
  }

  /** The three copies of the rules agree on every non-empty password. */
  lemma ValidatorsAgree(p: string)
    requires p != ""
    ensures ValidatePassword(p) == PasswordController.PasswordRules(p)
    ensures ValidatePassword(p) == PasswordHook.ValidationErrors(PasswordHook.MergeOptions(PasswordHook.NoOptions), p)
  {
    PasswordHook.DefaultsMatchBackend(p);
  }

  /** On the empty password they differ: both frontend validators report
      nothing, while the backend's rule list would report every rule but
      never runs, because the required-field check answers first. */
  lemma EmptyPasswordDiffers(sub: string)
    requires sub != ""
    ensures ValidatePassword("") == []
    ensures PasswordHook.ValidationErrors(PasswordHook.DefaultConfig, "") == []
    ensures PasswordController.PasswordRules("") == [MsgLength, MsgUpper, MsgLower, MsgDigit]
    ensures PasswordController.ChangePassword(Some(sub), Some("")) == PasswordController.Reject(400, PasswordController.MsgRequired, [])
  {
    AllRulesFailOnEmpty();
    assert ValidatePassword("") == [];
    assert PasswordHook.ValidationErrors(PasswordHook.DefaultConfig, "") == [];
    assert !Truthy(Some(""));
  }

  lemma AllRulesFailOnEmpty()
    ensures PasswordController.PasswordRules("") == [MsgLength, MsgUpper, MsgLower, MsgDigit]
  {
    assert !HasUpper("") && !HasLower("") && !HasDigit("");
    assert JsLength("") == 0;
    RanksOfMessages(8);
    var e1 := Push([], true, MsgLength);
    var e2 := Push(e1, true, MsgUpper);
    var e3 := Push(e2, true, MsgLower);
    var e4 := Push(e3, true, MsgDigit);
    assert e4 == [MsgLength, MsgUpper, MsgLower, MsgDigit];
    assert JsLength("") < PasswordController.MinLength;
    assert PasswordController.PasswordRules("") == e4;
  }

  /** Component state: both inputs and the errors computed on the last edit. */
  datatype Form = Form(newPassword: string, confirmPassword: string, errors: seq<string>)

  const EmptyForm := Form("", "", [])

  /** `handleNewPasswordChange`. */
  function OnNewPassword(f: Form, v: string): (r: Form)
    ensures r.newPassword == v && r.confirmPassword == f.confirmPassword
    ensures r.errors == ValidatePassword(v)
  {
    f.(newPassword := v, errors := ValidatePassword(v))
  }

  /** The errors were computed from the current new password, as every
      edit path ensures. */
  predicate Consistent(f: Form) { f.errors == ValidatePassword(f.newPassword) }

  /** The guard at the top of `handlePasswordChange`: the API is called only
      when this holds. */
  predicate SubmitProceeds(hasToken: bool, f: Form) {
    hasToken && f.newPassword != "" && f.newPassword == f.confirmPassword && |f.errors| == 0
  }

  /** The button's `disabled` expression. */
  predicate ButtonDisabled(f: Form) {
    f.newPassword == "" || f.confirmPassword == "" || f.newPassword != f.confirmPassword || |f.errors| > 0
  }

  /** With a token, the submit guard passes exactly when the button is
      enabled. */
  lemma GuardMatchesButton(f: Form)
    ensures SubmitProceeds(true, f) <==> !ButtonDisabled(f)
    ensures !SubmitProceeds(false, f)
  {
  }

  /** Whatever passes the client guard is forwarded by the backend. */
  lemma GuardImpliesBackendForwards(f: Form, sub: string)
    requires Consistent(f)
    requires sub != ""
    requires SubmitProceeds(true, f)
    ensures PasswordController.ChangePassword(Some(sub), Some(f.newPassword)).Forward?
  {
    ValidatorsAgree(f.newPassword);
  }

  /** After a successful change both inputs and the errors are cleared. */
  function AfterSuccess(f: Form): (r: Form)
    ensures r.newPassword == "" && r.confirmPassword == "" && r.errors == []
    ensures Consistent(r) && ButtonDisabled(r)
  {
    EmptyForm
  }

  /** The `details` field of a reply body: missing or falsy, an array, or
      another truthy value. */
  datatype Details = NoDetails | DetailsArray(items: seq<string>) | DetailsOther

  /** The JSON body of a failed reply: its `details` and `error` fields. */
  datatype Failure = Failure(details: Details, error: Option<string>)

  /** The error the catch block receives: its `message`, and the reply body
      it exposes as `error.response.data`, if any. */
  datatype Caught = Caught(message: string, response: Option<Failure>)

  const DefaultFailure := "Failed to change password. Please try again."

  /** The text a reply body gives: the details joined by ". " when they
      are an array (an empty array is truthy too), else a truthy `error`,
      else the default. */
  function FailureMessage(e: Failure): (m: string)
    ensures e.details.DetailsArray? ==> m == Seqs.Join(e.details.items, ". ")
    ensures !e.details.DetailsArray? && Truthy(e.error) ==> m == e.error.value
    ensures !e.details.DetailsArray? && !Truthy(e.error) ==> m == DefaultFailure
  {
    match e.details
    case DetailsArray(items) => Seqs.Join(items, ". ")
    case _ => OrElse(e.error, DefaultFailure)
  }

  /** The toast of the catch block: the reply body's text when the error
      exposes a response, else the default. */
  function Toast(e: Caught): (m: string)
    ensures e.response.Some? ==> m == FailureMessage(e.response.value)
    ensures e.response.None? ==> m == DefaultFailure
  {
    match e.response
    case Some(body) => FailureMessage(body)
    case None => DefaultFailure
  }

  /** The error `fetchJson` throws on a JSON reply that is not ok: a plain
      `Error` whose message is the body's truthy `error`, else the status
      and its text, and which has no `response`. */
  function FetchJsonError(status: nat, statusText: string, body: Failure): (e: Caught)
    ensures e.response == None
    ensures Truthy(body.error) ==> e.message == body.error.value
    ensures !Truthy(body.error) ==> e.message == NatToString(status) + " " + statusText
  {
    Caught(OrElse(body.error, NatToString(status) + " " + statusText), None)
  }

  /** The body the change-password endpoint sends with a rejection:
      `{ error }`, plus the failed rules as `details` for a validation
      failure. */
  function RejectBody(error: string, details: seq<string>): (b: Failure)
    ensures b.error == Some(error)
    ensures details == [] <==> b.details == NoDetails
    ensures details != [] ==> b.details == DetailsArray(details)
  {
    Failure(if details == [] then NoDetails else DetailsArray(details), Some(error))
  }

  /** As written: the error `changePassword` throws never exposes the reply
      body, so whatever the server answers the toast is the default text. */
  lemma ServerMessageNeverShown(status: nat, statusText: string, body: Failure)
    ensures Toast(FetchJsonError(status, statusText, body)) == DefaultFailure
  {
  }

  /** As written: when the identity provider refuses the password, its
      message reaches the thrown error's `message` but not the toast. */
  lemma ProviderMessageHidden(m: string)
    requires m != "" && m != DefaultFailure
    ensures var reply := PasswordController.ProviderReply(PasswordController.ProviderRejected(m));
      var e := FetchJsonError(reply.status, "Bad Request", RejectBody(reply.text, []));
      && reply.status == 400
      && e.message == m
      && Toast(e) == DefaultFailure
      && Toast(e) != m
  {
  }

  /** The error the catch block is written for: the same message, with the
      reply body exposed as `response.data`. */
  function ErrorWithResponse(status: nat, statusText: string, body: Failure): (e: Caught)
    ensures e.response == Some(body)
    ensures e.message == FetchJsonError(status, statusText, body).message
  {
    FetchJsonError(status, statusText, body).(response := Some(body))
  }

  /** Corrected: with the reply body exposed, the provider's refusal is
      shown as its message, and a validation failure as its failed rules
      joined by ". ". */
  lemma ServerMessageShown(m: string, rules: seq<string>)
    requires m != ""
    ensures var reply := PasswordController.ProviderReply(PasswordController.ProviderRejected(m));
      Toast(ErrorWithResponse(reply.status, "Bad Request", RejectBody(reply.text, []))) == m
    ensures rules != [] ==>
      Toast(ErrorWithResponse(400, "Bad Request", RejectBody(PasswordController.MsgValidationFailed, rules)))
        == Seqs.Join(rules, ". ")
  {
  }

  /** Corrected: a single failed rule in the exposed reply body is shown
      verbatim. */
  lemma SingleDetailShownVerbatim(msg: string, err: Option<string>)
    ensures FailureMessage(Failure(DetailsArray([msg]), err)) == msg
    ensures Toast(ErrorWithResponse(400, "Bad Request", Failure(DetailsArray([msg]), err))) == msg
  {
  }
}
