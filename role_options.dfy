/**
 * The role menu of `choose_aws_role` in aws_auth.py: the account-alias map
 * built from the AWS sign-in page, one numbered option per extracted role,
 * the lookup of a predefined role, and the index a typed answer selects.
 */
module RoleOptions {
  import opened Wrappers
  import opened Text
  import opened ArnScan
  import opened SamlRoles

  /** One `Account: <alias> (<12 digits>)` match on the AWS sign-in page. */
  datatype AccountMatch = AccountMatch(alias: string, account: string)

  /** The `OptionTuple(option_text, alias_name, role_name)` namedtuple. */
  datatype RoleOption = RoleOption(optionText: string, aliasName: string, roleName: string)

  /**
   * The dictionary comprehension of `__get_account_alias`: account number to
   * alias, over every match, so a later match for an account overrides an
   * earlier one.
   */
  function AliasMap(found: seq<AccountMatch>): (m: map<string, string>)
    ensures m.Keys == set i | 0 <= i < |found| :: found[i].account
  {
    if found == [] then map[]
    else
      var last := found[|found| - 1];
      var m := AliasMap(found[..|found| - 1])[last.account := last.alias];
      assert forall i :: 0 <= i < |found| - 1 ==> found[..|found| - 1][i] == found[i];
      m
  }

  /** An account is mapped to the alias of the last match that names it. */
  lemma {:induction false} AliasMapLastWins(found: seq<AccountMatch>, i: nat)
    requires i < |found|
    requires forall j :: i < j < |found| ==> found[j].account != found[i].account
    ensures found[i].account in AliasMap(found)
    ensures AliasMap(found)[found[i].account] == found[i].alias
    decreases |found|
  {
    if i < |found| - 1 {
      var pre := found[..|found| - 1];
      assert pre[i] == found[i];
      assert forall j :: i < j < |pre| ==> pre[j] == found[j];
      AliasMapLastWins(pre, i);
    }
  }

  /** The 1-based number and ARN every option line starts with. */
  function Label(index: nat, role: RoleEntry): string {
    DecimalString(index + 1) + ": " + role.roleArn
  }

  /**
   * The option for role number `index` (0-based): its line of text, the name
   * later used for an alias profile, and the role's name. `None` where the
   * role ARN does not fit `arn:aws:iam::(\d{12}):role.*\/([^/]+)$` and
   * `re.findall(...)[0]` raises.
   */
  function OptionFor(index: nat, role: RoleEntry, aliases: map<string, string>): (r: Option<RoleOption>)
    ensures r.None? <==> ParseRoleArn(role.roleArn).None?
    ensures r.Some? ==> var parts := ParseRoleArn(role.roleArn).value;
      && r.value.roleName == parts.roleName
      && (parts.account in aliases ==>
            r.value.aliasName == aliases[parts.account]
            && r.value.optionText == Label(index, role) + " (" + aliases[parts.account] + ")")
      && (parts.account !in aliases ==>
            r.value.aliasName == parts.account && r.value.optionText == Label(index, role))
  {
    match ParseRoleArn(role.roleArn)
    case None => None
    case Some(parts) =>
      if parts.account in aliases then
        var alias := aliases[parts.account];
        Some(RoleOption(Label(index, role) + " (" + alias + ")", alias, parts.roleName))
      else
        Some(RoleOption(Label(index, role), parts.account, parts.roleName))
  }

  /** Every role ARN yields an option. */
  predicate AllParse(roles: seq<RoleEntry>) {
    forall i :: 0 <= i < |roles| ==> ParseRoleArn(roles[i].roleArn).Some?
  }

  /** What `__create_options_from` returns, or `None` where it raises. */
  function OptionsFor(roles: seq<RoleEntry>, aliases: map<string, string>): Option<seq<RoleOption>> {
    if AllParse(roles) then
      Some(seq(|roles|, i requires 0 <= i < |roles| => OptionFor(i, roles[i], aliases).value))
    else None
  }

  /** The loop of `__create_options_from`: one option per role, in the same order. */
  method CreateOptions(roles: seq<RoleEntry>, aliases: map<string, string>) returns (r: Option<seq<RoleOption>>)
    ensures r.Some? <==> AllParse(roles)
    ensures r.Some? ==> |r.value| == |roles|
    ensures r.Some? ==> forall i :: 0 <= i < |roles| ==> OptionFor(i, roles[i], aliases) == Some(r.value[i])
    ensures r == OptionsFor(roles, aliases)
  {
    var options: seq<RoleOption> := [];
    var index := 0;
    while index < |roles|
      invariant 0 <= index <= |roles| && |options| == index
      invariant forall i :: 0 <= i < index ==> OptionFor(i, roles[i], aliases) == Some(options[i])
    {
      var role := roles[index];
      var parsed := ParseRoleArn(role.roleArn);
      if parsed.None? {
        return None;
      }
      var parts := parsed.value;
      var option;
      if parts.account in aliases {
        var alias := aliases[parts.account];
        option := RoleOption(Label(index, role) + " (" + alias + ")", alias, parts.roleName);
      } else {
        option := RoleOption(Label(index, role), parts.account, parts.roleName);
      }
      options := options + [option];
      index := index + 1;
    }
    r := Some(options);
    assert options == OptionsFor(roles, aliases).value;
  }

  /**
   * `__find_predefiend_role_from`: the first role whose role ARN is exactly
   * the configured one.
   */
  function FindPredefinedRole(roles: seq<RoleEntry>, role: string): (r: Option<RoleEntry>)
    ensures r.None? <==> forall i :: 0 <= i < |roles| ==> roles[i].roleArn != role
    ensures r.Some? ==> r.value.roleArn == role
    ensures r.Some? ==> exists i :: (0 <= i < |roles| && roles[i] == r.value
      && forall j :: 0 <= j < i ==> roles[j].roleArn != role)
  {
    if roles == [] then None
    else if roles[0].roleArn == role then
      Some(roles[0])
    else
      var r := FindPredefinedRole(roles[1..], role);
      assert forall i :: 1 <= i < |roles| ==> roles[i] == roles[1..][i - 1];
      r
  }

  /** The `ValueError` of `int()` and the `IndexError` of the list lookup. */
  datatype TypedError = NotANumber | OutOfRange

  /**
   * `int(typed) - 1` used as a list index over `count` elements, with
   * Python's negative indexing: `n` selects element `n - 1` for `1 <= n <=
   * count`, and element `count + n - 1` for `1 - count <= n <= 0`.
   */
  function ChosenIndex(count: nat, typed: string): (r: Result<nat, TypedError>)
    ensures r.Ok? ==> r.value < count
    ensures r == Err(NotANumber) <==> ParseInt(typed).None?
    ensures r.Ok? <==> ParseInt(typed).Some? && 1 - count <= ParseInt(typed).value <= count
    ensures r.Ok? ==>
      (r.value as int == if ParseInt(typed).value >= 1 then ParseInt(typed).value - 1
                         else count + ParseInt(typed).value - 1)
  {
    match ParseInt(typed)
    case None => Err(NotANumber)
    case Some(n) =>
      var k := n - 1;
      if 0 <= k < count then Ok(k)
      else if k < 0 && 0 <= k + count then Ok(k + count)
      else Err(OutOfRange)
  }

  /** Typing the number shown on option `i` selects index `i`. */
  lemma TypedNumberSelects(count: nat, i: nat)
    requires i < count
    ensures ChosenIndex(count, DecimalString(i + 1)) == Ok(i)
  {
    ParseDecimal(i + 1);
  }

  /** Typing `0` is not refused: it selects the last role. */
  lemma ZeroSelectsLast(count: nat)
    requires count > 0
    ensures ChosenIndex(count, "0") == Ok(count - 1)
  {
    ParseDecimal(0);
    assert DecimalString(0) == "0";
  }

  /** Each option line starts with its number, a colon and the role ARN. */
  lemma OptionStartsWithLabel(index: nat, role: RoleEntry, aliases: map<string, string>)
    requires OptionFor(index, role, aliases).Some?
    ensures var text := OptionFor(index, role, aliases).value.optionText;
      |Label(index, role)| <= |text| && text[..|Label(index, role)|] == Label(index, role)
  {
  }

  lemma LabelStartsWithNumber(index: nat, role: RoleEntry)
    ensures var number := DecimalString(index + 1);
      |number| < |Label(index, role)| && Label(index, role)[..|number|] == number
      && Label(index, role)[|number|] == ':'
  {
  }

  /**
   * The number printed before the colon on option line `i` is the number
   * that, typed back, selects role `i` and option `i`.
   */
  lemma DisplayedNumberSelects(roles: seq<RoleEntry>, aliases: map<string, string>, i: nat)
    requires OptionsFor(roles, aliases).Some? && i < |roles|
    ensures var text := OptionsFor(roles, aliases).value[i].optionText;
      var number := DecimalString(i + 1);
      && |number| < |text| && text[..|number|] == number && text[|number|] == ':'
      && ChosenIndex(|roles|, number) == Ok(i)
  {
    var text := OptionsFor(roles, aliases).value[i].optionText;
    assert text == OptionFor(i, roles[i], aliases).value.optionText;
    OptionStartsWithLabel(i, roles[i], aliases);
    LabelStartsWithNumber(i, roles[i]);
    PrefixOfPrefix(DecimalString(i + 1), Label(i, roles[i]), text);
    TypedNumberSelects(|roles|, i);
  }

  /** A prefix of a prefix is a prefix, and keeps the character after it. */
  lemma PrefixOfPrefix(p: string, q: string, t: string)
    requires |p| < |q| <= |t| && q[..|p|] == p && t[..|q|] == q
    ensures t[..|p|] == p && t[|p|] == q[|p|]
  {
    assert t[|p|] == t[..|q|][|p|];
    assert t[..|p|] == t[..|q|][..|p|];
  }

  /** Line 1 of the two-account menu: the account has the alias `prod`. */
  lemma FirstMenuLine(first: RoleEntry, aliases: map<string, string>)
    requires ParseRoleArn(first.roleArn).Some? && ParseRoleArn(first.roleArn).value.account == "111111111111"
    requires aliases == map["111111111111" := "prod"]
    ensures OptionFor(0, first, aliases).Some?
    ensures OptionFor(0, first, aliases).value.optionText == "1: " + first.roleArn + " (prod)"
    ensures OptionFor(0, first, aliases).value.aliasName == "prod"
  {
    assert DecimalString(1) == "1";
  }

  /** Line 2 of the two-account menu: the account has no alias. */
  lemma SecondMenuLine(second: RoleEntry, aliases: map<string, string>)
    requires ParseRoleArn(second.roleArn).Some? && ParseRoleArn(second.roleArn).value.account == "222222222222"
    requires aliases == map["111111111111" := "prod"]
    ensures OptionFor(1, second, aliases).Some?
    ensures OptionFor(1, second, aliases).value.optionText == "2: " + second.roleArn
    ensures OptionFor(1, second, aliases).value.aliasName == "222222222222"
  {
    assert DecimalString(2) == "2";
  }

  /**
   * Two roles in accounts 111111111111 and 222222222222, with only the
   * first account known as `prod`: line 1 carries `(prod)`, line 2 only the
   * ARN and the account number as its alias name, and typing `2` picks the
   * second role.
   */
  lemma TwoAccountMenu(first: RoleEntry, second: RoleEntry)
    requires ParseRoleArn(first.roleArn).Some? && ParseRoleArn(first.roleArn).value.account == "111111111111"
    requires ParseRoleArn(second.roleArn).Some? && ParseRoleArn(second.roleArn).value.account == "222222222222"
    ensures var options := OptionsFor([first, second], AliasMap([AccountMatch("prod", "111111111111")]));
      && options.Some? && |options.value| == 2
      && options.value[0].optionText == "1: " + first.roleArn + " (prod)"
      && options.value[0].aliasName == "prod"
      && options.value[1].optionText == "2: " + second.roleArn
      && options.value[1].aliasName == "222222222222"
      && ChosenIndex(2, "2") == Ok(1)
  {
    var aliases := AliasMap([AccountMatch("prod", "111111111111")]);
    ProdAliasMap();
    FirstMenuLine(first, aliases);
    SecondMenuLine(second, aliases);
    OptionsOfTwo(first, second, aliases);
    TwoSelectsSecond();
  }

  lemma ProdAliasMap()
    ensures AliasMap([AccountMatch("prod", "111111111111")]) == map["111111111111" := "prod"]
  {
    var found := [AccountMatch("prod", "111111111111")];
    AliasMapLastWins(found, 0);
    assert AliasMap(found).Keys == {"111111111111"};
  }

  lemma OptionsOfTwo(first: RoleEntry, second: RoleEntry, aliases: map<string, string>)
    requires OptionFor(0, first, aliases).Some? && OptionFor(1, second, aliases).Some?
    ensures OptionsFor([first, second], aliases).Some?
    ensures var options := OptionsFor([first, second], aliases).value;
      |options| == 2 && options[0] == OptionFor(0, first, aliases).value
      && options[1] == OptionFor(1, second, aliases).value
  {
    assert AllParse([first, second]);
  }

  lemma TwoSelectsSecond()
    ensures ChosenIndex(2, "2") == Ok(1)
  {
    TypedNumberSelects(2, 1);
    assert DecimalString(2) == "2";
  }
}
