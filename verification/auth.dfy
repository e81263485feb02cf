/**
 * The part of AuthRepository.kt that is not a call into the authentication
 * service: turning the service's exception messages into the messages shown
 * to the user, and the failure reported when a call succeeds without a user.
 */
module Auth {

  import opened Wrappers
  import opened Text

  /**
   * The rules of `parseAuthException`, in the order they are tried: a text
   * the service's message may contain, and the message shown instead.
   */
  const RULES: seq<(string, string)> := [
    ("email address is badly formatted", "邮箱格式不正确"),
    ("password is invalid", "密码错误"),
    ("no user record", "该邮箱未注册"),
    ("email address is already in use", "该邮箱已被注册"),
    ("password should be at least 6 characters", "密码至少需要6位字符"),
    ("network error", "网络连接失败，请检查网络")]

  const UNKNOWN_ERROR: string := "未知错误"
  const REGISTER_NO_USER: string := "注册失败：用户为空"
  const LOGIN_NO_USER: string := "登录失败：用户为空"

  /**
   * The `when` of `parseAuthException`, from the first of `rules` on: the first
   * rule whose text the message contains decides; a message no rule matches
   * is kept, and a missing message becomes UNKNOWN_ERROR.
   */
  function Classify(message: Option<string>, rules: seq<(string, string)>): string
  {
    if rules == [] then
      match message
      case Some(m) => m
      case None => UNKNOWN_ERROR
    else if message.Some? && Contains(message.value, rules[0].0) then rules[0].1
    else Classify(message, rules[1..])
  }

  /** The message of the exception `parseAuthException(e)` returns, for `e.message`. */
  function ParseAuthException(message: Option<string>): string
  {
    Classify(message, RULES)
  }

  /** The first rule that matches wins, whatever later rules would say. */
  lemma {:induction false} FirstMatchWins(m: string, rules: seq<(string, string)>, i: nat)
    requires i < |rules|
    requires Contains(m, rules[i].0)
    requires forall j :: 0 <= j < i ==> !Contains(m, rules[j].0)
    ensures Classify(Some(m), rules) == rules[i].1
  {
    if i > 0 {
      assert !Contains(m, rules[0].0);
      FirstMatchWins(m, rules[1..], i - 1);
    }
  }

  /** A message that no rule matches is passed through unchanged. */
  lemma {:induction false} NoMatchPassesThrough(m: string, rules: seq<(string, string)>)
    requires forall j :: 0 <= j < |rules| ==> !Contains(m, rules[j].0)
    ensures Classify(Some(m), rules) == m
  {
    if rules != [] {
      assert !Contains(m, rules[0].0);
      NoMatchPassesThrough(m, rules[1..]);
    }
  }

  /** An exception without a message is reported as an unknown error. */
  lemma {:induction false} MissingMessageIsUnknown(rules: seq<(string, string)>)
    ensures Classify(None, rules) == UNKNOWN_ERROR
  {
    if rules != [] {
      MissingMessageIsUnknown(rules[1..]);
    }
  }

  /** Each rule applies to a message containing its text and no earlier rule's text. */
  lemma EachRuleApplies(m: string, i: nat)
    requires i < |RULES|
    requires Contains(m, RULES[i].0)
    requires forall j :: 0 <= j < i ==> !Contains(m, RULES[j].0)
    ensures ParseAuthException(Some(m)) == RULES[i].1
  {
    FirstMatchWins(m, RULES, i);
  }

  /**
   * The order of the rules, not the order of the texts in the message,
   * decides: a message that mentions a network error before a badly
   * formatted address is reported as the latter.
   */
  lemma EarlierRuleFirst(before: string, between: string)
    ensures var m := before + RULES[5].0 + between + RULES[0].0;
      Contains(m, RULES[5].0) && ParseAuthException(Some(m)) == RULES[0].1
  {
    var m := before + RULES[5].0 + between + RULES[0].0;
    assert m[|before|..][..|RULES[5].0|] == RULES[5].0;
    assert m[|m| - |RULES[0].0|..] == RULES[0].0;
  }

  datatype User = User(uid: string)

  /** How a call to the service ended: with a result whose user may be null, or with an exception whose message may be null. */
  datatype CallOutcome = Returned(user: Option<User>) | Threw(message: Option<string>)

  datatype AuthResult = Success(user: User) | Failure(message: string)

  /** The `try`/`let`/elvis of `register` and `login`, given the message for a result without a user. */
  function Complete(outcome: CallOutcome, noUser: string): (r: AuthResult)
    ensures r.Success? <==> outcome.Returned? && outcome.user.Some?
    ensures r.Success? ==> r.user == outcome.user.value
    ensures outcome == Returned(None) ==> r == Failure(noUser)
    ensures outcome.Threw? ==> r == Failure(ParseAuthException(outcome.message))
  {
    match outcome
    case Returned(Some(u)) => Success(u)
    case Returned(None) => Failure(noUser)
    case Threw(message) => Failure(ParseAuthException(message))
  }

  /** `register(email, password)`, given how the service's call ended. */
  function Register(outcome: CallOutcome): (r: AuthResult)
    ensures outcome == Returned(None) ==> r == Failure(REGISTER_NO_USER)
    ensures outcome.Threw? ==> r == Failure(ParseAuthException(outcome.message))
  {
    Complete(outcome, REGISTER_NO_USER)
  }

  /** `login(email, password)`, given how the service's call ended. */
  function Login(outcome: CallOutcome): (r: AuthResult)
    ensures outcome == Returned(None) ==> r == Failure(LOGIN_NO_USER)
    ensures outcome.Threw? ==> r == Failure(ParseAuthException(outcome.message))
  {
    Complete(outcome, LOGIN_NO_USER)
  }
}
