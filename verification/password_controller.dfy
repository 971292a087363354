/** `changePassword` on the backend: the token check, the required-field
    check, the ordered rule list, and forwarding to the identity provider. */
module PasswordController {
  import opened Values
  import opened Chars
  import opened PasswordMessages

  const MinLength: nat := 8

  /** The rule list of the controller, checked in order. */
  function PasswordRules(p: string): (errs: seq<string>)
    ensures InRuleOrder(errs)
    ensures |errs| <= 4
    ensures MsgLength in errs <==> JsLength(p) < MinLength
    ensures MsgUpper in errs <==> !HasUpper(p)
    ensures MsgLower in errs <==> !HasLower(p)
    ensures MsgDigit in errs <==> !HasDigit(p)
    ensures errs == [] <==> JsLength(p) >= MinLength && HasUpper(p) && HasLower(p) && HasDigit(p)
  {
    RanksOfMessages(MinLength);
    ControllerMessagesDistinct();
    var e1 := Push([], JsLength(p) < MinLength, MsgLength);
    var e2 := Push(e1, !HasUpper(p), MsgUpper);
    var e3 := Push(e2, !HasLower(p), MsgLower);
    Push(e3, !HasDigit(p), MsgDigit)
  }

  /** `.length` counts UTF-16 code units: three emoji count six, so a
      password of six characters passes the length rule. */
  lemma AstralCharactersCountTwice()
    ensures |"Aa1\U{1F600}\U{1F600}\U{1F600}"| == 6
    ensures JsLength("Aa1\U{1F600}\U{1F600}\U{1F600}") == 9
    ensures MsgLength !in PasswordRules("Aa1\U{1F600}\U{1F600}\U{1F600}")
  {
    var p := "Aa1\U{1F600}\U{1F600}\U{1F600}";
    assert p[1..] == "a1\U{1F600}\U{1F600}\U{1F600}";
    assert p[1..][1..] == "1\U{1F600}\U{1F600}\U{1F600}";
    assert p[1..][1..][1..] == "\U{1F600}\U{1F600}\U{1F600}";
    assert p[1..][1..][1..][1..] == "\U{1F600}\U{1F600}";
    assert p[1..][1..][1..][1..][1..] == "\U{1F600}";
  }

  const MsgNoSub := "No sub in token"
  const MsgRequired := "newPassword is required"
  const MsgValidationFailed := "Password validation failed"
  const MsgChanged := "Password changed successfully"
  const MsgChangeFailed := "Failed to change password"

  /** What the handler does before the provider call: answer with a status,
      an error and the rule list as `details`, or forward the password. */
  datatype Decision =
    | Reject(status: nat, error: string, details: seq<string>)
    | Forward(sub: string, password: string)

  function ChangePassword(sub: Option<string>, newPassword: Option<string>): (d: Decision)
    ensures !Truthy(sub) ==> d == Reject(401, MsgNoSub, [])
    ensures Truthy(sub) && !Truthy(newPassword) ==> d == Reject(400, MsgRequired, [])
    ensures d.Forward? <==>
      Truthy(sub) && Truthy(newPassword) && PasswordRules(newPassword.value) == []
    ensures d.Forward? ==> d == Forward(sub.value, newPassword.value)
    ensures Truthy(sub) && Truthy(newPassword) && PasswordRules(newPassword.value) != [] ==>
      d == Reject(400, MsgValidationFailed, PasswordRules(newPassword.value))
  {
    if !Truthy(sub) then Reject(401, MsgNoSub, [])
    else if !Truthy(newPassword) then Reject(400, MsgRequired, [])
    else
      var errs := PasswordRules(newPassword.value);
      if |errs| > 0 then Reject(400, MsgValidationFailed, errs)
      else Forward(sub.value, newPassword.value)
  }

  /** The identity provider's answer to a forwarded change. */
  datatype ProviderResult = ProviderOk | ProviderRejected(message: string) | ProviderThrew

  datatype Reply = Reply(status: nat, text: string)

  /** The reply after forwarding: 200, 400 with the provider's message, or 500. */
  function ProviderReply(r: ProviderResult): (reply: Reply)
    ensures reply.status == 200 <==> r.ProviderOk?
    ensures r.ProviderRejected? ==> reply == Reply(400, r.message)
    ensures r.ProviderThrew? ==> reply == Reply(500, MsgChangeFailed)
  {
    match r
    case ProviderOk => Reply(200, MsgChanged)
    case ProviderRejected(m) => Reply(400, m)
    case ProviderThrew => Reply(500, MsgChangeFailed)
  }
}
