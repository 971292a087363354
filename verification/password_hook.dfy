/** `usePasswordValidation`: a configurable rule list over the password
    field, the derived validity flags and `reset`. */
module PasswordHook {
  import opened Values
  import opened Chars
  import opened PasswordMessages
  import PasswordController

  /** One key of the caller's options object: not present, present with
      value `undefined`, or present with a value. The spread
      `{ ...defaultOptions, ...options }` keeps the default only for a key
      that is not present. */
  datatype Setting<T> = Unset | SetUndefined | SetTo(value: T)

  datatype ValidationOptions = ValidationOptions(
    minLength: Setting<int>,
    requireUppercase: Setting<bool>,
    requireLowercase: Setting<bool>,
    requireNumbers: Setting<bool>,
    requireSpecialChars: Setting<bool>)

  /** The merged configuration; `None` is `undefined`. */
  datatype Config = Config(
    minLength: Option<int>,
    requireUppercase: Option<bool>,
    requireLowercase: Option<bool>,
    requireNumbers: Option<bool>,
    requireSpecialChars: Option<bool>)

  const DefaultConfig := Config(Some(8), Some(true), Some(true), Some(true), Some(false))
  const NoOptions: ValidationOptions := ValidationOptions(Unset, Unset, Unset, Unset, Unset)

  /** The spread's rule for one key: an absent key keeps the default, a key
      set to `undefined` gives `undefined`, a key with a value gives it. */
  predicate Spread<T(==)>(default: Option<T>, s: Setting<T>, r: Option<T>) {
    && (s.Unset? ==> r == default)
    && (s.SetUndefined? ==> r == None)
    && (s.SetTo? ==> r == Some(s.value))
  }

  function Override<T(==)>(default: Option<T>, s: Setting<T>): (r: Option<T>)
    ensures Spread(default, s, r)
  {
    match s
    case Unset => default
    case SetUndefined => None
    case SetTo(v) => Some(v)
  }

  /** `{ ...defaultOptions, ...options }`, key by key. */
  function MergeOptions(o: ValidationOptions): (c: Config)
    ensures Spread(DefaultConfig.minLength, o.minLength, c.minLength)
    ensures Spread(DefaultConfig.requireUppercase, o.requireUppercase, c.requireUppercase)
    ensures Spread(DefaultConfig.requireLowercase, o.requireLowercase, c.requireLowercase)
    ensures Spread(DefaultConfig.requireNumbers, o.requireNumbers, c.requireNumbers)
    ensures Spread(DefaultConfig.requireSpecialChars, o.requireSpecialChars, c.requireSpecialChars)
    ensures o == NoOptions ==> c == DefaultConfig
  {
    Config(
      Override(DefaultConfig.minLength, o.minLength),
      Override(DefaultConfig.requireUppercase, o.requireUppercase),
      Override(DefaultConfig.requireLowercase, o.requireLowercase),
      Override(DefaultConfig.requireNumbers, o.requireNumbers),
      Override(DefaultConfig.requireSpecialChars, o.requireSpecialChars))
  }

  /** Options that give every key leave nothing of the defaults. */
  lemma MergeAllGiven(o: ValidationOptions)
    requires o.minLength.SetTo? && o.requireUppercase.SetTo? && o.requireLowercase.SetTo?
    requires o.requireNumbers.SetTo? && o.requireSpecialChars.SetTo?
    ensures MergeOptions(o) == Config(Some(o.minLength.value), Some(o.requireUppercase.value),
      Some(o.requireLowercase.value), Some(o.requireNumbers.value), Some(o.requireSpecialChars.value))
  {
  }

  /** Options differing in one key give configurations differing in that
      key only. */
  lemma MergeOneKey(o: ValidationOptions, n: Setting<int>, v: Setting<bool>)
    ensures MergeOptions(o.(minLength := n))
         == MergeOptions(o).(minLength := Override(DefaultConfig.minLength, n))
    ensures MergeOptions(o.(requireUppercase := v))
         == MergeOptions(o).(requireUppercase := Override(DefaultConfig.requireUppercase, v))
    ensures MergeOptions(o.(requireLowercase := v))
         == MergeOptions(o).(requireLowercase := Override(DefaultConfig.requireLowercase, v))
    ensures MergeOptions(o.(requireNumbers := v))
         == MergeOptions(o).(requireNumbers := Override(DefaultConfig.requireNumbers, v))
    ensures MergeOptions(o.(requireSpecialChars := v))
         == MergeOptions(o).(requireSpecialChars := Override(DefaultConfig.requireSpecialChars, v))
  {
  }

  /** A boolean option is truthy only when it is `true`. */
  predicate On(b: Option<bool>) { b == Some(true) }

  /** `config.minLength && password.length < config.minLength`: 0 and
      `undefined` switch the rule off. */
  predicate TooShort(c: Config, p: string) {
    c.minLength.Some? && c.minLength.value != 0 && JsLength(p) < c.minLength.value
  }

  /** `validationErrors`. */
  function ValidationErrors(c: Config, p: string): (errs: seq<string>)
    ensures |p| == 0 ==> errs == []
    ensures InRuleOrder(errs)
    ensures |errs| <= 5
    ensures |p| > 0 ==>
      (errs == [] <==>
        && !TooShort(c, p)
        && (On(c.requireUppercase) ==> HasUpper(p))
        && (On(c.requireLowercase) ==> HasLower(p))
        && (On(c.requireNumbers) ==> HasDigit(p))
        && (On(c.requireSpecialChars) ==> HasSpecial(p)))
    ensures |p| > 0 ==> (TooShort(c, p) <==> |errs| > 0 && RuleRank(errs[0]) == 0)
    ensures |p| > 0 && TooShort(c, p) ==> errs[0] == LengthMessage(c.minLength.value)
    ensures |p| > 0 ==> (MsgUpper in errs <==> On(c.requireUppercase) && !HasUpper(p))
    ensures |p| > 0 ==> (MsgLower in errs <==> On(c.requireLowercase) && !HasLower(p))
    ensures |p| > 0 ==> (MsgDigit in errs <==> On(c.requireNumbers) && !HasDigit(p))
    ensures |p| > 0 ==> (MsgSpecial in errs <==> On(c.requireSpecialChars) && !HasSpecial(p))
  {
    if |p| == 0 then []
    else
      var n: nat := if TooShort(c, p) then c.minLength.value else 0;
      RanksOfMessages(n);
      Reported(LengthMessage(n), TooShort(c, p),
        On(c.requireUppercase) && !HasUpper(p),
        On(c.requireLowercase) && !HasLower(p),
        On(c.requireNumbers) && !HasDigit(p),
        On(c.requireSpecialChars) && !HasSpecial(p))
  }

  /** A minimum length of 0 or `undefined` switches the length rule off. */
  lemma LengthRuleDisabled(c: Config, p: string)
    requires c.minLength == Some(0) || c.minLength.None?
    ensures forall m :: m in ValidationErrors(c, p) ==> !IsLengthMessage(m)
  {
    var errs := ValidationErrors(c, p);
    forall m | m in errs ensures !IsLengthMessage(m) {
      var i :| 0 <= i < |errs| && errs[i] == m;
      assert RuleRank(errs[0]) <= RuleRank(errs[i]);
    }
  }

  /** With the default options the hook reports, for a non-empty password,
      exactly the list the backend controller builds. */
  lemma DefaultsMatchBackend(p: string)
    requires |p| > 0
    ensures ValidationErrors(MergeOptions(NoOptions), p) == PasswordController.PasswordRules(p)
  {
    assert MergeOptions(NoOptions) == DefaultConfig;
    assert Values.NatToString(8) == "8";
  }

  /** The two fields the hook holds. */
  datatype Fields = Fields(password: string, confirmPassword: string)

  predicate IsPasswordValid(c: Config, f: Fields) {
    ValidationErrors(c, f.password) == [] && |f.password| > 0
  }

  predicate DoPasswordsMatch(f: Fields) {
    f.password == f.confirmPassword && |f.confirmPassword| > 0
  }

  predicate IsFormValid(c: Config, f: Fields) {
    IsPasswordValid(c, f) && DoPasswordsMatch(f)
  }

  /** With default options a password is valid for the hook exactly when the
      backend would forward it to the identity provider. */
  lemma ValidIffBackendForwards(f: Fields, sub: string)
    requires sub != ""
    ensures IsPasswordValid(MergeOptions(NoOptions), f)
        <==> PasswordController.ChangePassword(Some(sub), Some(f.password)).Forward?
  {
    if |f.password| > 0 {
      DefaultsMatchBackend(f.password);
    }
  }

  /** `reset`: both fields become empty. */
  function Reset(f: Fields): (r: Fields)
    ensures r.password == "" && r.confirmPassword == ""
  {
    Fields("", "")
  }

  /** After `reset` nothing is reported, and the form is not submittable. */
  lemma ResetClearsForm(c: Config, f: Fields)
    ensures ValidationErrors(c, Reset(f).password) == []
    ensures !IsPasswordValid(c, Reset(f)) && !DoPasswordsMatch(Reset(f)) && !IsFormValid(c, Reset(f))
  {
  }
}
