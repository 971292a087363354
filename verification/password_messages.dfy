/** The password rule messages, identical in the backend controller, the
    validation hook and the profile section, and the fixed order in which
    every validator reports them. */
module PasswordMessages {
  import Values

  const LengthPrefix := "Password must be at least "
  const LengthSuffix := " characters long"
  const MsgUpper := "Password must contain at least one uppercase letter"
  const MsgLower := "Password must contain at least one lowercase letter"
  const MsgDigit := "Password must contain at least one number"
  const MsgSpecial := "Password must contain at least one special character"

  /** The length message for a minimum of `n` characters. */
  function LengthMessage(n: nat): string {
    LengthPrefix + Values.NatToString(n) + LengthSuffix
  }

  /** The message for the default minimum of 8. */
  const MsgLength := LengthMessage(8)

  predicate IsLengthMessage(m: string) {
    |LengthPrefix| <= |m| && m[..|LengthPrefix|] == LengthPrefix
  }

  /** Position of a message's rule in the checking order: length, upper,
      lower, digit, special; 5 for anything else. */
  function RuleRank(m: string): nat {
    if IsLengthMessage(m) then 0
    else if m == MsgUpper then 1
    else if m == MsgLower then 2
    else if m == MsgDigit then 3
    else if m == MsgSpecial then 4
    else 5
  }

  /** Each message is a rule message, in checking order, none twice. */
  predicate InRuleOrder(errs: seq<string>) {
    && (forall i :: 0 <= i < |errs| ==> RuleRank(errs[i]) < 5)
    && (forall i, j :: 0 <= i < j < |errs| ==> RuleRank(errs[i]) < RuleRank(errs[j]))
  }

  lemma RanksOfMessages(n: nat)
    ensures RuleRank(LengthMessage(n)) == 0
    ensures RuleRank(MsgUpper) == 1 && RuleRank(MsgLower) == 2
    ensures RuleRank(MsgDigit) == 3 && RuleRank(MsgSpecial) == 4
  {
    assert LengthMessage(n)[..|LengthPrefix|] == LengthPrefix;
    RankOfUpper();
    RankOfLower();
    RankOfDigit();
    RankOfSpecial();
  }

  /** The default length message and the three character-class messages
      the controller checks are four different strings. */
  lemma ControllerMessagesDistinct()
    ensures MsgLength != MsgUpper && MsgLength != MsgLower && MsgLength != MsgDigit
    ensures MsgUpper != MsgLower && MsgUpper != MsgDigit && MsgLower != MsgDigit
  {
    RanksOfMessages(8);
  }

  /** The length message for any minimum and the four character-class
      messages are five different strings. */
  lemma MessagesDistinct(n: nat)
    ensures LengthMessage(n) != MsgUpper && LengthMessage(n) != MsgLower
    ensures LengthMessage(n) != MsgDigit && LengthMessage(n) != MsgSpecial
    ensures MsgUpper != MsgLower && MsgUpper != MsgDigit && MsgUpper != MsgSpecial
    ensures MsgLower != MsgDigit && MsgLower != MsgSpecial && MsgDigit != MsgSpecial
  {
    RanksOfMessages(n);
  }

  /** The four fixed messages say "contain" where the length message says
      "be at least". */
  lemma NotLengthMessage(m: string)
    requires |m| > 14 && m[14] == 'c'
    ensures !IsLengthMessage(m)
  {
    assert LengthPrefix[14] == 'b';
    if |LengthPrefix| <= |m| {
      assert m[..|LengthPrefix|][14] == m[14];
    }
  }

  lemma RankOfUpper()
    ensures RuleRank(MsgUpper) == 1
  {
    NotLengthMessage(MsgUpper);
  }

  lemma RankOfLower()
    ensures RuleRank(MsgLower) == 2
  {
    NotLengthMessage(MsgLower);
    assert MsgLower[35] != MsgUpper[35];
  }

  lemma RankOfDigit()
    ensures RuleRank(MsgDigit) == 3
  {
    NotLengthMessage(MsgDigit);
    assert MsgDigit[35] != MsgUpper[35];
    assert MsgDigit[35] != MsgLower[35];
  }

  lemma RankOfSpecial()
    ensures RuleRank(MsgSpecial) == 4
  {
    NotLengthMessage(MsgSpecial);
    assert MsgSpecial[35] != MsgUpper[35];
    assert MsgSpecial[35] != MsgLower[35];
    assert MsgSpecial[35] != MsgDigit[35];
  }

  /** `if (failed) errors.push(msg)`, for a message whose rule comes after
      every rule already reported. */
  function Push(errs: seq<string>, failed: bool, msg: string): (r: seq<string>)
    requires InRuleOrder(errs)
    requires RuleRank(msg) < 5
    requires forall i :: 0 <= i < |errs| ==> RuleRank(errs[i]) < RuleRank(msg)
    ensures InRuleOrder(r)
    ensures forall i :: 0 <= i < |r| ==> RuleRank(r[i]) <= RuleRank(msg)
    ensures forall m :: m in r <==> m in errs || (failed && m == msg)
    ensures |r| == |errs| + (if failed then 1 else 0)
  {
    if failed then errs + [msg] else errs
  }

  /** The length, upper-case and lower-case rules checked in order, each
      pushing its message when it fails; `first` is the length message in
      use. */
  function ReportedThree(first: string, short: bool, noUpper: bool, noLower: bool): (errs: seq<string>)
    requires RuleRank(first) == 0
    ensures InRuleOrder(errs)
    ensures forall i :: 0 <= i < |errs| ==> RuleRank(errs[i]) <= 2
    ensures |errs| <= 3
    ensures errs == [] <==> !short && !noUpper && !noLower
    ensures short <==> |errs| > 0 && RuleRank(errs[0]) == 0
    ensures short ==> errs[0] == first
    ensures MsgUpper in errs <==> noUpper
    ensures MsgLower in errs <==> noLower
    ensures MsgDigit !in errs && MsgSpecial !in errs
  {
    RanksOfMessages(0);
    MessagesDistinct(0);
    assert first != MsgUpper && first != MsgLower && first != MsgDigit && first != MsgSpecial;
    var e1 := Push([], short, first);
    var e2 := Push(e1, noUpper, MsgUpper);
    Push(e2, noLower, MsgLower)
  }

  /** The five rules checked in order, each pushing its message when it
      fails; `first` is the length message in use. */
  function Reported(first: string, short: bool, noUpper: bool, noLower: bool, noDigit: bool, noSpecial: bool): (errs: seq<string>)
    requires RuleRank(first) == 0
    ensures InRuleOrder(errs)
    ensures |errs| <= 5
    ensures errs == [] <==> !short && !noUpper && !noLower && !noDigit && !noSpecial
    ensures short <==> |errs| > 0 && RuleRank(errs[0]) == 0
    ensures short ==> errs[0] == first
    ensures MsgUpper in errs <==> noUpper
    ensures MsgLower in errs <==> noLower
    ensures MsgDigit in errs <==> noDigit
    ensures MsgSpecial in errs <==> noSpecial
  {
    RanksOfMessages(0);
    MessagesDistinct(0);
    var e3 := ReportedThree(first, short, noUpper, noLower);
    var e4 := Push(e3, noDigit, MsgDigit);
    Push(e4, noSpecial, MsgSpecial)
  }
}
