/**
 * The `okta-awscli` command (okta_awscli.py): `main` rewrites its options,
 * decides whether new credentials are needed, and `get_credentials` turns
 * the chosen role into an STS request and hands the credentials to the
 * export text or to the credentials file; the `aws` command runs last.
 * The Okta login, the AWS sign-in page, STS and the prompts are inputs.
 */
module OktaAwsCli {
  import opened Wrappers
  import opened Text
  import opened IniFile
  import opened SamlRoles
  import opened RoleOptions
  import opened Aws
  import opened OktaConfig

  /** The okta profile alias mode works under. */
  const ALIAS_OKTA_PROFILE := "temporary-cli-aws-profile"

  /**
   * The options `main` acts on; an absent `--okta-profile` or `--profile`
   * is the empty string, which Python treats as false like `None`.
   */
  datatype Flags = Flags(oktaProfile: string, profile: string, force: bool, cache: bool, alias: bool, args: seq<string>)

  /**
   * The rewrites at the top of `main`: no okta profile means `default`;
   * alias mode switches to its own okta profile, drops the AWS profile and
   * forces new credentials.
   */
  function ResolveFlags(f: Flags): (r: Flags)
    ensures r.cache == f.cache && r.alias == f.alias && r.args == f.args
    ensures f.alias ==> r.oktaProfile == ALIAS_OKTA_PROFILE && r.profile == "" && r.force
    ensures !f.alias ==> (r.profile == f.profile && r.force == f.force
      && r.oktaProfile == (if f.oktaProfile == "" then DEFAULT_PROFILE else f.oktaProfile))
  {
    var oktaProfile := if f.oktaProfile == "" then DEFAULT_PROFILE else f.oktaProfile;
    if f.alias then f.(oktaProfile := ALIAS_OKTA_PROFILE, profile := "", force := true)
    else f.(oktaProfile := oktaProfile)
  }

  /** Applying the rewrites to their own result changes nothing. */
  lemma ResolveFlagsIdempotent(f: Flags)
    ensures ResolveFlags(ResolveFlags(f)) == ResolveFlags(f)
    ensures ResolveFlags(f).oktaProfile != ""
  {
  }

  /** The three lines of `console_output`, in order. */
  function ExportLines(access: string, secret: string, token: string): seq<string> {
    ["export AWS_ACCESS_KEY_ID=" + access,
     "export AWS_SECRET_ACCESS_KEY=" + secret,
     "export AWS_SESSION_TOKEN=" + token]
  }

  /** `console_output`: the three export lines joined by newlines. */
  function ConsoleOutput(access: string, secret: string, token: string): string {
    Join(ExportLines(access, secret, token), '\n')
  }

  /**
   * The export text is exactly three lines: splitting it on newlines gives
   * back the access key, secret key and session token lines in that order.
   */
  lemma ConsoleOutputLines(access: string, secret: string, token: string)
    requires '\n' !in access && '\n' !in secret && '\n' !in token
    ensures Split(ConsoleOutput(access, secret, token), '\n') == ExportLines(access, secret, token)
    ensures |Split(ConsoleOutput(access, secret, token), '\n')| == 3
  {
    var lines := ExportLines(access, secret, token);
    forall i | 0 <= i < |lines|
      ensures '\n' !in lines[i]
    {
      var prefix := if i == 0 then "export AWS_ACCESS_KEY_ID="
        else if i == 1 then "export AWS_SECRET_ACCESS_KEY=" else "export AWS_SESSION_TOKEN=";
      var v := if i == 0 then access else if i == 1 then secret else token;
      assert lines[i] == prefix + v;
      assert '\n' !in prefix;
    }
    SplitJoin(lines, '\n');
  }

  /** The profile alias mode uses for both Okta and AWS: `<alias>-<role name>`. */
  function AliasProfileName(option: RoleOption): (r: string)
    ensures |r| == |option.aliasName| + 1 + |option.roleName|
    ensures r[..|option.aliasName|] == option.aliasName && r[|option.aliasName|] == '-'
    ensures r[|option.aliasName| + 1..] == option.roleName
  {
    option.aliasName + "-" + option.roleName
  }

  /** The `aws` command `main` runs: only when there are arguments for it. */
  function CommandLine(profile: string, args: seq<string>): (r: Option<seq<string>>)
    ensures r.Some? <==> args != []
    ensures r.Some? ==> (|r.value| == 3 + |args| && r.value[..3] == ["aws", "--profile", profile]
      && r.value[3..] == args)
  {
    if args == [] then None else Some(["aws", "--profile", profile] + args)
  }

  /** The names `principal_arn` and `role_arn` after the unpacking in `get_credentials`. */
  datatype Unpacked =
    | Arns(principalArn: string, roleArn: string)
    | NotArns              // they hold the role tuple and the option tuple
    | UnpackValueError     // the unpacking raised `ValueError`

  /**
   * `principal_arn, role_arn = role` in `get_credentials`, as written.
   * Without alias mode the whole return value of `choose_aws_role` is
   * unpacked, which after the prompt is the (role, option) pair, so the two
   * names receive the role tuple and the option tuple instead of two ARNs.
   * In alias mode `(role, option) = ...` comes first; on a predefined role
   * it splits the role tuple into its two ARN strings, and unpacking the
   * principal ARN string, far longer than two characters, into two names
   * raises.
   */
  function ArnsAsWritten(c: Choice, alias: bool): (r: Unpacked)
    ensures !alias && c.Predefined? ==> r == Arns(c.role.principalArn, c.role.roleArn)
    ensures !alias && c.Interactive? ==> r == NotArns
    ensures alias ==> (r.Arns? <==> c.Interactive?)
  {
    match c
    case Predefined(role) => if alias then UnpackValueError else Arns(role.principalArn, role.roleArn)
    case Interactive(role, _) => if alias then Arns(role.principalArn, role.roleArn) else NotArns
  }

  /**
   * The unpacking as intended: both shapes of the choice carry the role
   * tuple, and its two ARNs are used. Alias mode also needs the option for
   * the profile name, so a predefined role there still fails.
   */
  function ChosenArns(c: Choice, alias: bool): (r: Unpacked)
    ensures r.Arns? <==> !alias || c.Interactive?
    ensures r.Arns? ==> r == Arns(c.role.principalArn, c.role.roleArn)
    ensures !r.Arns? ==> r == UnpackValueError
  {
    if alias && c.Predefined? then UnpackValueError else Arns(c.role.principalArn, c.role.roleArn)
  }

  /**
   * Without alias mode, a role picked at the prompt reaches the STS request
   * as something other than its two ARNs; the intended unpacking passes
   * them on, and agrees with the written one in every other case.
   */
  lemma PromptedRoleLosesArns(role: RoleEntry, option: RoleOption)
    ensures ArnsAsWritten(Interactive(role, option), false) == NotArns
    ensures ChosenArns(Interactive(role, option), false) == Arns(role.principalArn, role.roleArn)
    ensures forall c: Choice, alias: bool :: (alias || c.Predefined?) ==> ArnsAsWritten(c, alias) == ChosenArns(c, alias)
  {
  }

  /** The credentials `assume_role_with_saml` returns. */
  datatype Credentials = Credentials(accessKeyId: string, secretAccessKey: string, sessionToken: string)

  /**
   * The STS reply: credentials, a `ClientError`, which is logged before
   * `exit(-1)`, or any other exception of the call, which propagates.
   */
  datatype StsReply = Issued(creds: Credentials) | Refused | Failed

  /** An exception that ends the run. */
  datatype Failure =
    | CheckRaised
    | ChooseRaised(chooseError: ChooseError)
    | UnpackRaised
    | SaveRaised(configError: ConfigError)
    | RegionRaised
    | StsRaised
    | WriteRaised(writeError: WriteError)

  /** How a run ends. */
  datatype Ending =
    | Finished              // `main` returns
    | ExitedAfterExport     // `exit(0)` once the export lines were printed
    | ExitedOnStsError      // `exit(-1)` once the STS error was logged
    | Raised(failure: Failure)

  datatype RunOutcome = RunOutcome(
    ending: Ending,
    refreshed: bool,                  // whether `get_credentials` ran
    chosen: Option<Choice>,           // what `choose_aws_role` returned
    request: Option<StsRequest>,      // what was sent to STS
    exports: Option<string>,          // the export lines printed
    cached: bool,                     // whether they were also written to the cache file
    creds: CredsFile,                 // `~/.aws/credentials` afterwards
    oktaSaved: Option<Ini>,           // `~/.okta-aws` as last written during the run
    command: Option<seq<string>>)     // the `aws` command run at the end

  /**
   * The profile `get_credentials` works under, given the one it was called
   * with: in alias mode both the okta and the AWS profile become
   * `<alias>-<role name>`.
   */
  function ProfileUsed(given: string, alias: bool, c: Choice): string {
    if alias && c.Interactive? then AliasProfileName(c.option) else given
  }

  /** Whether section `p` of the file holds these credentials. */
  predicate Holds(file: CredsFile, p: string, c: Credentials) {
    && file.contents.Some? && p in file.contents.value
    && ACCESS_KEY_ID in file.contents.value[p] && file.contents.value[p][ACCESS_KEY_ID] == c.accessKeyId
    && SECRET_ACCESS_KEY in file.contents.value[p] && file.contents.value[p][SECRET_ACCESS_KEY] == c.secretAccessKey
    && SESSION_TOKEN in file.contents.value[p] && file.contents.value[p][SESSION_TOKEN] == c.sessionToken
  }

  /** The credentials file after `write_sts_token(p, ...)` succeeded. */
  function Written(file: CredsFile, p: string, c: Credentials): CredsFile {
    CredsFile(true, Some(SetCredentials(Sections(file), p, c.accessKeyId, c.secretAccessKey, c.sessionToken)))
  }

  /**
   * What the outside world answers during a run: the attributes of the
   * assertion the Okta login returns, the alias matches of the AWS sign-in
   * page (`None` when the request raises), the typed role number, and the
   * reply of STS.
   */
  datatype Answers = Answers(attrs: seq<Attribute>, signIn: Option<seq<AccountMatch>>, typed: string, sts: StsReply)

  /**
   * The state of `get_credentials` just before the STS call: the choice, the
   * okta config with the role saved, and the request, or the `IndexError` of
   * its region lookup.
   */
  datatype Prepared = Prepared(choice: Choice, saved: Ini, request: Result<StsRequest, ()>)

  /**
   * What the first steps of `get_credentials` guarantee when they succeed:
   * a predefined role is refused in alias mode, the role is saved for the
   * okta profile in use, and the request carries the role's ARNs and the
   * duration configured for that profile.
   */
  predicate PreparedWell(pre: Result<Prepared, Failure>, oktaProfile: string, alias: bool, oktaFile: Ini) {
    pre.Ok? ==>
      var c := pre.value.choice;
      var p := ProfileUsed(oktaProfile, alias, c);
      && (alias ==> c.Interactive?)
      && HasOption(pre.value.saved, p, ROLE) && pre.value.saved[p][ROLE] == c.role.roleArn
      && (pre.value.request.Ok? ==>
            && pre.value.request.value.roleArn == c.role.roleArn
            && pre.value.request.value.principalArn == c.role.principalArn
            && pre.value.request.value.duration == RequestDuration(DurationFor(oktaFile, p)))
  }

  /**
   * The first steps of `get_credentials`: choose the role, unpack its ARNs,
   * save the role for the okta profile in use, read that profile's
   * duration and build the STS request; or the exception that ends them.
   */
  function Prepare(role: string, oktaProfile: string, alias: bool, oktaFile: Ini, answers: Answers)
    : (r: Result<Prepared, Failure>)
    ensures var c := ChooseRole(role, answers.attrs, answers.signIn, answers.typed);
      && (c.Err? ==> r == Err(ChooseRaised(c.error)))
      && (c.Ok? && alias && c.value.Predefined? ==> r == Err(UnpackRaised))
      && (c.Ok? && (!alias || c.value.Interactive?) ==>
            var s := SaveWithBaseUrl(oktaFile, ProfileUsed(oktaProfile, alias, c.value), ROLE, c.value.role.roleArn);
            && (s.Err? ==> r == Err(SaveRaised(s.error)))
            && (s.Ok? ==> r.Ok? && r.value.choice == c.value && r.value.saved == s.value))
    ensures PreparedWell(r, oktaProfile, alias, oktaFile)
    ensures r.Ok? ==> r.value.request == StsRequestFor(r.value.choice.role.roleArn, r.value.choice.role.principalArn,
                                                       DurationFor(oktaFile, ProfileUsed(oktaProfile, alias, r.value.choice)))
  {
    match ChooseRole(role, answers.attrs, answers.signIn, answers.typed)
    case Err(e) => Err(ChooseRaised(e))
    case Ok(c) =>
      var arns := ChosenArns(c, alias);
      if !arns.Arns? then Err(UnpackRaised)
      else
        var p := ProfileUsed(oktaProfile, alias, c);
        match SaveWithBaseUrl(oktaFile, p, ROLE, arns.roleArn)
        case Err(e) => Err(SaveRaised(e))
        case Ok(saved) =>
          SaveKeepsOtherKeys(oktaFile, p, ROLE, arns.roleArn, p, DURATION);
          Ok(Prepared(c, saved, StsRequestFor(arns.roleArn, arns.principalArn, DurationFor(saved, p))))
  }

  /**
   * The ending and the credentials file after `get_credentials` writes
   * issued credentials under a non-empty profile: first to the alias
   * section (alias mode), then to the profile, each write refusing the name
   * `DEFAULT`.
   */
  predicate WroteAs(ending: Ending, after: CredsFile, used: string, alias: bool, c: Choice, creds: CredsFile,
                    issued: Credentials)
  {
    if alias && c.Interactive? && c.option.aliasName == DEFAULT_SECTION then
      ending == Raised(WriteRaised(WriteError.InvalidSectionName(DEFAULT_SECTION))) && after == creds.(dirExists := true)
    else
      var first := if alias && c.Interactive? then Written(creds, c.option.aliasName, issued) else creds;
      if used == DEFAULT_SECTION then
        ending == Raised(WriteRaised(WriteError.InvalidSectionName(DEFAULT_SECTION))) && after == first.(dirExists := true)
      else
        ending == Finished && after == Written(first, used, issued)
  }

  /**
   * How `get_credentials` hands issued credentials on, given the profile
   * it works under: export lines when there is none, else the writes.
   */
  predicate Stored(out: RunOutcome, used: string, alias: bool, c: Choice, creds: CredsFile, cache: bool,
                   issued: Credentials)
  {
    if used == "" then
      && out.ending == ExitedAfterExport && out.creds == creds && out.cached == cache
      && out.exports == Some(ConsoleOutput(issued.accessKeyId, issued.secretAccessKey, issued.sessionToken))
    else
      WroteAs(out.ending, out.creds, used, alias, c, creds, issued)
  }

  /** The writes of `get_credentials`, alias section first. */
  method StoreCredentials(creds: CredsFile, used: string, alias: bool, c: Choice, issued: Credentials)
    returns (ending: Ending, file: CredsFile)
    requires alias ==> c.Interactive?
    ensures WroteAs(ending, file, used, alias, c, creds, issued)
  {
    file := creds;
    var written: Result<(), WriteError>;
    if alias {
      file, written := AwsAuth.WriteStsToken(file, c.option.aliasName,
                                             issued.accessKeyId, issued.secretAccessKey, issued.sessionToken);
      if written.Err? {
        return Raised(WriteRaised(written.error)), file;
      }
    }
    file, written := AwsAuth.WriteStsToken(file, used,
                                           issued.accessKeyId, issued.secretAccessKey, issued.sessionToken);
    if written.Err? {
      return Raised(WriteRaised(written.error)), file;
    }
    ending := Finished;
  }

  /** The profile `get_credentials` returns when it gets that far. */
  function UsedProfile(pre: Result<Prepared, Failure>, profile: string, alias: bool): string {
    if pre.Ok? then ProfileUsed(profile, alias, pre.value.choice) else profile
  }

  /**
   * The outcome of `get_credentials` and the profile it works under, for
   * every way it can end: an exception of the first steps, an STS error,
   * a missing region, the export exit, a refused write, or the return.
   */
  predicate Fetched(out: RunOutcome, used: string, pre: Result<Prepared, Failure>, profile: string,
                    cache: bool, alias: bool, creds: CredsFile, sts: StsReply)
  {
    && out.refreshed && out.command.None?
    && used == UsedProfile(pre, profile, alias)
    && (out.ending != ExitedAfterExport ==> out.exports.None? && !out.cached)
    && (pre.Err? ==> && out.ending == Raised(pre.error) && out.creds == creds
                     && out.request.None? && out.oktaSaved.None?)
    && (pre.Ok? ==>
          && out.chosen == Some(pre.value.choice) && out.oktaSaved == Some(pre.value.saved)
          && (pre.value.request.Err? ==>
                out.ending == Raised(RegionRaised) && out.creds == creds && out.request.None?)
          && (pre.value.request.Ok? ==> out.request == Some(pre.value.request.value))
          && (pre.value.request.Ok? && sts.Refused? ==>
                out.ending == ExitedOnStsError && out.creds == creds)
          && (pre.value.request.Ok? && sts.Failed? ==>
                out.ending == Raised(StsRaised) && out.creds == creds)
          && (pre.value.request.Ok? && sts.Issued? ==>
                Stored(out, used, alias, pre.value.choice, creds, cache, sts.creds)))
  }

  /**
   * What every outcome of `get_credentials` guarantees: the export exit
   * happens only without a profile; the request carries the chosen role's
   * ARNs and the configured duration of the okta profile in use, where the
   * role is also saved; credentials land under the profile, and in alias
   * mode under the alias name too; and a run that stops before writing
   * leaves the credentials file alone.
   */
  lemma FetchedConsequences(out: RunOutcome, used: string, pre: Result<Prepared, Failure>, oktaProfile: string,
                            profile: string, cache: bool, alias: bool, creds: CredsFile, oktaFile: Ini, sts: StsReply)
    requires Fetched(out, used, pre, profile, cache, alias, creds, sts)
    requires PreparedWell(pre, oktaProfile, alias, oktaFile)
    ensures out.ending == ExitedAfterExport ==>
      && !alias && profile == "" && sts.Issued? && out.creds == creds && out.cached == cache
      && out.exports == Some(ConsoleOutput(sts.creds.accessKeyId, sts.creds.secretAccessKey,
                               sts.creds.sessionToken))
    ensures out.request.Some? ==> (out.chosen.Some?
      && out.request.value.roleArn == out.chosen.value.role.roleArn
      && out.request.value.principalArn == out.chosen.value.role.principalArn
      && out.request.value.duration ==
           RequestDuration(DurationFor(oktaFile, ProfileUsed(oktaProfile, alias, out.chosen.value))))
    ensures out.oktaSaved.Some? ==> (out.chosen.Some? &&
      var p := ProfileUsed(oktaProfile, alias, out.chosen.value);
      HasOption(out.oktaSaved.value, p, ROLE) && out.oktaSaved.value[p][ROLE] == out.chosen.value.role.roleArn)
    ensures out.ending == Finished ==> out.oktaSaved.Some? && out.request.Some? && sts.Issued?
    ensures out.ending == Finished && !alias ==>
      && profile != "" && used == profile && out.creds == Written(creds, profile, sts.creds)
    ensures out.ending == Finished && alias ==>
      && out.chosen.Some? && out.chosen.value.Interactive?
      && used == AliasProfileName(out.chosen.value.option)
      && out.creds == Written(Written(creds, out.chosen.value.option.aliasName, sts.creds), used,
                              sts.creds)
      && Holds(out.creds, out.chosen.value.option.aliasName, sts.creds)
      && Holds(out.creds, used, sts.creds)
    ensures out.ending == ExitedOnStsError || (out.ending.Raised? && !out.ending.failure.WriteRaised?) ==>
      out.creds == creds
  {
    if pre.Ok? && pre.value.request.Ok? && sts.Issued? {
      var c := pre.value.choice;
      var issued := sts.creds;
      if alias {
        assert c.Interactive?;
        var name := AliasProfileName(c.option);
        assert used == name && name[|c.option.aliasName|] == '-';
        assert used != "" && used != DEFAULT_SECTION;
        if out.ending == Finished {
          HoldsAfterWrite(Written(creds, c.option.aliasName, issued), used, c.option.aliasName, issued);
        }
      }
    }
  }

  /**
   * The steps of `get_credentials` before the STS call, and the choice
   * `choose_aws_role` returned when it returned.
   */
  method PrepareRequest(aws: AwsAuth, oktaProfile: string, alias: bool, oktaFile: Ini, answers: Answers)
    returns (pre: Result<Prepared, Failure>, chosen: Option<Choice>)
    ensures pre == Prepare(aws.role, oktaProfile, alias, oktaFile, answers)
    ensures pre.Ok? ==> chosen == Some(pre.value.choice)
  {
    var config := new OktaAuthConfig(oktaFile, false);
    var choice := aws.ChooseAwsRole(answers.attrs, answers.signIn, answers.typed);
    if choice.Err? {
      return Err(ChooseRaised(choice.error)), None;
    }
    var c := choice.value;
    chosen := Some(c);
    var arns := ChosenArns(c, alias);
    if !arns.Arns? {
      return Err(UnpackRaised), chosen;
    }
    var oktaUsed := oktaProfile;
    if alias {
      oktaUsed := AliasProfileName(c.option);
    }
    assert oktaUsed == ProfileUsed(oktaProfile, alias, c);
    var saved := config.SaveChosenRoleForProfile(oktaUsed, arns.roleArn);
    if saved.Err? {
      return Err(SaveRaised(saved.error)), chosen;
    }
    var duration := DurationFor(config.value, oktaUsed);
    var request := StsRequestFor(arns.roleArn, arns.principalArn, duration);
    pre := Ok(Prepared(c, config.value, request));
  }

  /**
   * `get_credentials`, over the files it finds and the answers of Okta, the
   * sign-in page, the prompt and STS. `used` is the profile it returns.
   */
  method GetCredentials(aws: AwsAuth, oktaProfile: string, profile: string, cache: bool, alias: bool,
                        creds: CredsFile, oktaFile: Ini, answers: Answers)
    returns (out: RunOutcome, used: string)
    ensures Fetched(out, used, Prepare(aws.role, oktaProfile, alias, oktaFile, answers), profile, cache, alias, creds,
                    answers.sts)
  {
    used := profile;
    var pre, chosen := PrepareRequest(aws, oktaProfile, alias, oktaFile, answers);
    if pre.Err? {
      return RunOutcome(Raised(pre.error), true, chosen, None, None, false, creds, None, None), used;
    }
    var c := pre.value.choice;
    if alias {
      used := AliasProfileName(c.option);
    }
    var saved := Some(pre.value.saved);
    var request := pre.value.request;
    if request.Err? {
      return RunOutcome(Raised(RegionRaised), true, chosen, None, None, false, creds, saved, None), used;
    }
    if answers.sts.Refused? {
      return RunOutcome(ExitedOnStsError, true, chosen, Some(request.value), None, false, creds, saved, None), used;
    }
    if answers.sts.Failed? {
      return RunOutcome(Raised(StsRaised), true, chosen, Some(request.value), None, false, creds, saved, None), used;
    }
    var issued := answers.sts.creds;
    if used == "" {
      var exports := ConsoleOutput(issued.accessKeyId, issued.secretAccessKey, issued.sessionToken);
      return RunOutcome(ExitedAfterExport, true, chosen, Some(request.value), Some(exports), cache, creds,
                        saved, None), used;
    }
    var ending, file := StoreCredentials(creds, used, alias, c, issued);
    out := RunOutcome(ending, true, chosen, Some(request.value), None, false, file, saved, None);
  }

  /**
   * A run of `main` that called `get_credentials`: the outcome that call
   * reaches for the resolved flags and the role configured for the okta
   * profile, and the `aws` command run under the profile it returned when
   * it returned.
   */
  predicate Refreshed(out: RunOutcome, flags: Flags, creds: CredsFile, oktaFile: Ini, answers: Answers) {
    var f := ResolveFlags(flags);
    var role := ConfiguredRole(oktaFile, f.oktaProfile);
    var pre := Prepare(role, f.oktaProfile, f.alias, oktaFile, answers);
    var used := UsedProfile(pre, f.profile, f.alias);
    && Fetched(out.(command := None), used, pre, f.profile, f.cache, f.alias, creds, answers.sts)
    && out.command == (if out.ending == Finished then CommandLine(used, flags.args) else None)
  }

  /**
   * The outcome of one run of `main`: the token check raises, or finds the
   * profile's token valid and (without `--force`) only runs the command, or
   * leads to `get_credentials`.
   */
  predicate RanAs(out: RunOutcome, flags: Flags, creds: CredsFile, oktaFile: Ini, identity: IdentityOutcome,
                  answers: Answers)
  {
    var f := ResolveFlags(flags);
    var check := AwsAuth.CheckStsToken(f.profile, creds, identity);
    && (out.ending == Raised(CheckRaised) <==> check.Err?)
    && (check.Err? ==> && !out.refreshed && out.creds == creds && out.chosen.None? && out.command.None?
                       && out.request.None? && out.oktaSaved.None? && out.exports.None? && !out.cached)
    && (check.Ok? ==> (out.refreshed <==> !check.value || f.force))
    && (check.Ok? && !out.refreshed ==>
          && out.ending == Finished && out.command == CommandLine(f.profile, flags.args)
          && out.creds == creds && out.chosen.None? && out.request.None? && out.oktaSaved.None?
          && out.exports.None? && !out.cached)
    && (out.refreshed ==> Refreshed(out, flags, creds, oktaFile, answers))
  }

  /**
   * One run of `main` over the files it finds and the answers of Okta, the
   * sign-in page, the prompt and STS.
   */
  method Run(flags: Flags, creds: CredsFile, oktaFile: Ini, identity: IdentityOutcome, answers: Answers)
    returns (out: RunOutcome)
    ensures RanAs(out, flags, creds, oktaFile, identity, answers)
  {
    var f := ResolveFlags(flags);
    var aws := new AwsAuth(f.oktaProfile, oktaFile);
    var check := AwsAuth.CheckStsToken(f.profile, creds, identity);
    if check.Err? {
      return RunOutcome(Raised(CheckRaised), false, None, None, None, false, creds, None, None);
    }
    if !check.value || f.force {
      var fetched, profile := GetCredentials(aws, f.oktaProfile, f.profile, f.cache, f.alias, creds, oktaFile, answers);
      out := fetched;
      if out.ending == Finished {
        out := out.(command := CommandLine(profile, f.args));
      }
      assert out.(command := None) == fetched;
    } else {
      out := RunOutcome(Finished, false, None, None, None, false, creds, None, CommandLine(f.profile, f.args));
    }
  }


  /**
   * What a run of `main` guarantees whichever way it went: the export exit
   * happens only without a profile or alias mode; the STS request carries
   * the chosen role's ARNs and the duration configured for the okta profile
   * in use, where the role is also saved; a finished refresh leaves the
   * credentials under the profile (and the alias name) and runs the command
   * there; a run that stops before writing leaves the credentials file
   * alone.
   */
  lemma RunConsequences(out: RunOutcome, flags: Flags, creds: CredsFile, oktaFile: Ini, identity: IdentityOutcome,
                        answers: Answers)
    requires RanAs(out, flags, creds, oktaFile, identity, answers)
    ensures out.ending == ExitedAfterExport ==>
      && !flags.alias && ResolveFlags(flags).profile == "" && answers.sts.Issued?
      && out.exports == Some(ConsoleOutput(answers.sts.creds.accessKeyId, answers.sts.creds.secretAccessKey,
                                          answers.sts.creds.sessionToken))
      && out.cached == flags.cache && out.creds == creds && out.command.None?
    ensures out.ending != ExitedAfterExport ==> out.exports.None? && !out.cached
    ensures out.request.Some? ==> (out.chosen.Some?
      && out.request.value.roleArn == out.chosen.value.role.roleArn
      && out.request.value.principalArn == out.chosen.value.role.principalArn
      && out.request.value.duration ==
           RequestDuration(DurationFor(oktaFile, ProfileUsed(ResolveFlags(flags).oktaProfile, flags.alias, out.chosen.value))))
    ensures out.refreshed && out.ending == Finished && !flags.alias ==>
      && answers.sts.Issued? && ResolveFlags(flags).profile != ""
      && out.creds == Written(creds, ResolveFlags(flags).profile, answers.sts.creds)
      && out.command == CommandLine(ResolveFlags(flags).profile, flags.args)
    ensures out.refreshed && out.ending == Finished && flags.alias ==>
      && answers.sts.Issued? && out.chosen.Some? && out.chosen.value.Interactive?
      && Holds(out.creds, out.chosen.value.option.aliasName, answers.sts.creds)
      && Holds(out.creds, AliasProfileName(out.chosen.value.option), answers.sts.creds)
      && out.command == CommandLine(AliasProfileName(out.chosen.value.option), flags.args)
    ensures out.command.Some? ==> out.ending == Finished && flags.args != []
    ensures out.oktaSaved.Some? ==> (out.chosen.Some? &&
      var p := ProfileUsed(ResolveFlags(flags).oktaProfile, flags.alias, out.chosen.value);
      HasOption(out.oktaSaved.value, p, ROLE) && out.oktaSaved.value[p][ROLE] == out.chosen.value.role.roleArn)
    ensures out.ending == ExitedOnStsError || (out.ending.Raised? && !out.ending.failure.WriteRaised?) ==>
      out.creds == creds
  {
    if out.refreshed {
      var f := ResolveFlags(flags);
      var role := ConfiguredRole(oktaFile, f.oktaProfile);
      var pre := Prepare(role, f.oktaProfile, f.alias, oktaFile, answers);
      FetchedConsequences(out.(command := None), UsedProfile(pre, f.profile, f.alias), pre, f.oktaProfile, f.profile,
                          f.cache, f.alias, creds, oktaFile, answers.sts);
    }
  }

  /**
   * A second write to another section keeps the credentials of the first;
   * a write to the same section sets them again.
   */
  lemma HoldsAfterWrite(file: CredsFile, p: string, q: string, c: Credentials)
    requires Holds(file, q, c)
    ensures var next := CredsFile(true, Some(SetCredentials(Sections(file), p, c.accessKeyId, c.secretAccessKey, c.sessionToken)));
      Holds(next, q, c) && Holds(next, p, c)
  {
  }
}
