/**
 * `PasswordValidator`: the registration password policy. Five rules are
 * checked in a fixed order (length, upper-case, lower-case, digit, special
 * character); each broken rule appends its message, and the password is
 * valid exactly when no message was appended.
 */
module Passwords {
  import opened Common
  import opened Numerals

  /** The `PASSWORD_*` settings; the shipped defaults are `Defaults`. */
  datatype PasswordPolicy = PasswordPolicy(
    minLength: int,
    requireUppercase: bool,
    requireLowercase: bool,
    requireNumbers: bool,
    requireSpecialChars: bool)

  const Defaults: PasswordPolicy := PasswordPolicy(8, true, true, true, true)

  /** The characters `get_requirements` reports as special. */
  const SpecialChars: string := "!@#$%^&*(),.?\":{}|<>"

  predicate IsUpper(c: char) { 'A' <= c <= 'Z' }

  predicate IsLower(c: char) { 'a' <= c <= 'z' }

  /** The class `[!@#$%^&*(),.?":{}|<>]` of the special-character rule. */
  predicate IsSpecial(c: char)
  {
    c == '!' || c == '@' || c == '#' || c == '$' || c == '%' || c == '^' || c == '&'
    || c == '*' || c == '(' || c == ')' || c == ',' || c == '.' || c == '?' || c == '"'
    || c == ':' || c == '{' || c == '}' || c == '|' || c == '<' || c == '>'
  }

  /** The `re.search` tests of the four classes: some character of `s` is in the class. */
  predicate HasUpper(s: string) { exists i :: 0 <= i < |s| && IsUpper(s[i]) }

  predicate HasLower(s: string) { exists i :: 0 <= i < |s| && IsLower(s[i]) }

  predicate HasDigit(s: string) { exists i :: 0 <= i < |s| && IsDigit(s[i]) }

  predicate HasSpecial(s: string) { exists i :: 0 <= i < |s| && IsSpecial(s[i]) }

  /** The rules in the order they are checked. */
  datatype Rule = TooShort | NoUppercase | NoLowercase | NoDigit | NoSpecial
  {
    /** Position in the checking order. */
    function Rank(): nat
    {
      match this
      case TooShort => 0
      case NoUppercase => 1
      case NoLowercase => 2
      case NoDigit => 3
      case NoSpecial => 4
    }

    /** The rule is switched on by the policy; the length rule always is. */
    predicate EnabledBy(policy: PasswordPolicy)
    {
      match this
      case TooShort => true
      case NoUppercase => policy.requireUppercase
      case NoLowercase => policy.requireLowercase
      case NoDigit => policy.requireNumbers
      case NoSpecial => policy.requireSpecialChars
    }

    /** The password breaks the rule when the rule is enabled. */
    predicate BrokenBy(policy: PasswordPolicy, password: string)
    {
      EnabledBy(policy) &&
      match this
      case TooShort => |password| < policy.minLength
      case NoUppercase => !HasUpper(password)
      case NoLowercase => !HasLower(password)
      case NoDigit => !HasDigit(password)
      case NoSpecial => !HasSpecial(password)
    }

    /** The error text appended for the rule. */
    function Message(policy: PasswordPolicy): string
    {
      match this
      case TooShort => "密码长度至少需要" + Decimal(policy.minLength) + "位"
      case NoUppercase => "密码必须包含至少一个大写字母"
      case NoLowercase => "密码必须包含至少一个小写字母"
      case NoDigit => "密码必须包含至少一个数字"
      case NoSpecial => "密码必须包含至少一个特殊字符"
    }
  }

  /** The rule checked at position `k`. */
  function RuleAt(k: nat): (x: Rule)
    requires k < 5
    ensures x.Rank() == k
  {
    if k == 0 then TooShort
    else if k == 1 then NoUppercase
    else if k == 2 then NoLowercase
    else if k == 3 then NoDigit
    else NoSpecial
  }

  /** The broken rules among the first `k` of the checking order, in that order. */
  function BrokenBefore(policy: PasswordPolicy, password: string, k: nat): (r: seq<Rule>)
    requires k <= 5
    ensures |r| <= k
  {
    if k == 0 then []
    else BrokenBefore(policy, password, k - 1)
         + (if RuleAt(k - 1).BrokenBy(policy, password) then [RuleAt(k - 1)] else [])
  }

  /** All rules the password breaks, in checking order. */
  function Violations(policy: PasswordPolicy, password: string): seq<Rule>
  {
    BrokenBefore(policy, password, 5)
  }

  /** Among the first `k` rules exactly the broken ones are listed. */
  lemma {:induction false} BrokenBeforeMembers(policy: PasswordPolicy, password: string, k: nat)
    requires k <= 5
    ensures forall x: Rule :: x in BrokenBefore(policy, password, k) <==> x.Rank() < k && x.BrokenBy(policy, password)
  {
    if k > 0 {
      BrokenBeforeMembers(policy, password, k - 1);
      forall x: Rule | x.Rank() == k - 1
        ensures x == RuleAt(k - 1)
      {
      }
    }
  }

  /** Rules listed in strictly increasing checking order, hence none twice. */
  predicate Increasing(r: seq<Rule>)
  {
    forall i, j :: 0 <= i < j < |r| ==> r[i].Rank() < r[j].Rank()
  }

  /** The listed rules come in strictly increasing checking order. */
  lemma {:induction false} BrokenBeforeOrdered(policy: PasswordPolicy, password: string, k: nat)
    requires k <= 5
    ensures Increasing(BrokenBefore(policy, password, k))
  {
    if k > 0 {
      BrokenBeforeOrdered(policy, password, k - 1);
      BrokenBeforeMembers(policy, password, k - 1);
      var prev := BrokenBefore(policy, password, k - 1);
      var tail := if RuleAt(k - 1).BrokenBy(policy, password) then [RuleAt(k - 1)] else [];
      var r := prev + tail;
      assert r == BrokenBefore(policy, password, k);
      forall i, j | 0 <= i < j < |r|
        ensures r[i].Rank() < r[j].Rank()
      {
        assert r[i] == prev[i] && prev[i] in prev;
        if j < |prev| {
          assert r[j] == prev[j];
        }
      }
    }
  }

  /** The error list names exactly the broken rules, at most five, in checking order. */
  lemma ViolationsMeaning(policy: PasswordPolicy, password: string)
    ensures var r := Violations(policy, password);
            && |r| <= 5
            && (forall x: Rule :: x in r <==> x.BrokenBy(policy, password))
            && Increasing(r)
  {
    BrokenBeforeMembers(policy, password, 5);
    BrokenBeforeOrdered(policy, password, 5);
  }

  /** The messages of `rules`, in the same order. */
  function Messages(rules: seq<Rule>, policy: PasswordPolicy): (r: seq<string>)
    ensures |r| == |rules|
    ensures forall i :: 0 <= i < |rules| ==> r[i] == rules[i].Message(policy)
  {
    seq(|rules|, i requires 0 <= i < |rules| => rules[i].Message(policy))
  }

  /** `validate`: the messages of the broken rules in checking order, valid iff there are none. */
  method Validate(policy: PasswordPolicy, password: string) returns (valid: bool, errors: seq<string>)
    ensures errors == Messages(Violations(policy, password), policy)
    ensures valid <==> errors == []
    ensures valid <==> forall x: Rule :: !x.BrokenBy(policy, password)
  {
    errors := [];
    errors := errors + (if |password| < policy.minLength then [TooShort.Message(policy)] else []);
    errors := errors + (if policy.requireUppercase && !HasUpper(password) then [NoUppercase.Message(policy)] else []);
    errors := errors + (if policy.requireLowercase && !HasLower(password) then [NoLowercase.Message(policy)] else []);
    errors := errors + (if policy.requireNumbers && !HasDigit(password) then [NoDigit.Message(policy)] else []);
    errors := errors + (if policy.requireSpecialChars && !HasSpecial(password) then [NoSpecial.Message(policy)] else []);
    ChecksInOrder(policy, password);
    ViolationsMeaning(policy, password);
    valid := |errors| == 0;
    if !valid {
      assert Violations(policy, password)[0] in Violations(policy, password);
    }
  }

  /** The five checks of `validate`, appended one after the other, list the messages of the broken rules. */
  lemma ChecksInOrder(policy: PasswordPolicy, password: string)
    ensures Messages(Violations(policy, password), policy) ==
            [] + (if |password| < policy.minLength then [TooShort.Message(policy)] else [])
               + (if policy.requireUppercase && !HasUpper(password) then [NoUppercase.Message(policy)] else [])
               + (if policy.requireLowercase && !HasLower(password) then [NoLowercase.Message(policy)] else [])
               + (if policy.requireNumbers && !HasDigit(password) then [NoDigit.Message(policy)] else [])
               + (if policy.requireSpecialChars && !HasSpecial(password) then [NoSpecial.Message(policy)] else [])
  {
    MessagesStep(policy, password, 0);
    MessagesStep(policy, password, 1);
    MessagesStep(policy, password, 2);
    MessagesStep(policy, password, 3);
    MessagesStep(policy, password, 4);
  }

  /** Checking the rule at position `k` appends its message exactly when it is broken. */
  lemma MessagesStep(policy: PasswordPolicy, password: string, k: nat)
    requires k < 5
    ensures Messages(BrokenBefore(policy, password, k + 1), policy)
            == Messages(BrokenBefore(policy, password, k), policy)
               + (if RuleAt(k).BrokenBy(policy, password) then [RuleAt(k).Message(policy)] else [])
  {
    if RuleAt(k).BrokenBy(policy, password) {
      MessagesSnoc(BrokenBefore(policy, password, k), RuleAt(k), policy);
    }
  }

  lemma MessagesSnoc(rules: seq<Rule>, x: Rule, policy: PasswordPolicy)
    ensures Messages(rules + [x], policy) == Messages(rules, policy) + [x.Message(policy)]
  {
    assert (rules + [x])[..|rules|] == rules;
  }

  /** A rule the policy switches off never contributes an error. */
  lemma DisabledRuleSilent(policy: PasswordPolicy, password: string, x: Rule)
    requires !x.EnabledBy(policy)
    ensures x !in Violations(policy, password)
    ensures x.Message(policy) !in Messages(Violations(policy, password), policy)
  {
    ViolationsMeaning(policy, password);
    var vs := Violations(policy, password);
    assert x !in vs;
    forall i | 0 <= i < |vs|
      ensures vs[i].Message(policy) != x.Message(policy)
    {
      MessagesDistinct(policy, vs[i], x);
    }
  }

  /** Different rules have different messages, so the error list names the broken rules. */
  lemma MessagesDistinct(policy: PasswordPolicy, x: Rule, y: Rule)
    requires x != y
    ensures x.Message(policy) != y.Message(policy)
  {
    var mx, my := x.Message(policy), y.Message(policy);
    if x == TooShort || y == TooShort {
      assert mx[2] != my[2];
    } else {
      assert mx[10] != my[10];
    }
  }

  /** With the shipped settings a password with all four classes and eight characters passes. */
  lemma DefaultAccepts()
    ensures Violations(Defaults, "Abcdef1!") == []
  {
    var good := "Abcdef1!";
    assert IsUpper(good[0]) && IsLower(good[1]) && IsDigit(good[6]) && IsSpecial(good[7]);
  }

  /** With the shipped settings `abc` breaks four rules, in checking order. */
  lemma DefaultRejects()
    ensures Violations(Defaults, "abc") == [TooShort, NoUppercase, NoDigit, NoSpecial]
  {
    var bad := "abc";
    assert IsLower(bad[0]);
    assert !HasUpper(bad) && !HasDigit(bad) && !HasSpecial(bad) by {
      forall i | 0 <= i < |bad|
        ensures 'a' <= bad[i] <= 'c'
      {
      }
    }
  }

  /** `get_requirements`: the settings and the special characters. */
  datatype Requirements = Requirements(
    minLength: int,
    requireUppercase: bool,
    requireLowercase: bool,
    requireNumbers: bool,
    requireSpecialChars: bool,
    specialChars: string)

  /** The reported requirements mirror the policy, and the reported special characters are exactly the checked class. */
  function GetRequirements(policy: PasswordPolicy): (r: Requirements)
    ensures PasswordPolicy(r.minLength, r.requireUppercase, r.requireLowercase, r.requireNumbers,
                           r.requireSpecialChars) == policy
    ensures forall c :: c in r.specialChars <==> IsSpecial(c)
    ensures |r.specialChars| == 20
  {
    Requirements(policy.minLength, policy.requireUppercase, policy.requireLowercase, policy.requireNumbers,
                 policy.requireSpecialChars, SpecialChars)
  }
}
