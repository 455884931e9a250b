/**
 * `AwsAuth` (aws_auth.py): the role choice over a SAML assertion, the
 * endpoint and duration of the STS request, and the check and update of the
 * AWS credentials file. The STS service, the AWS sign-in page and the file
 * system are inputs: the credentials file is a value, the caller-identity
 * call an outcome, the sign-in page its alias matches.
 */
module Aws {
  import opened Wrappers
  import opened Text
  import opened IniFile
  import opened ArnScan
  import opened SamlRoles
  import opened RoleOptions

  /**
   * What `choose_aws_role` returns: the bare role tuple when the configured
   * role was found, the role together with its option after the prompt.
   */
  datatype Choice = Predefined(role: RoleEntry) | Interactive(role: RoleEntry, option: RoleOption)

  /** The exceptions `choose_aws_role` lets through. */
  datatype ChooseError =
    | ExtractFailed(cause: ExtractError)     // no ARN in a role attribute value
    | SignInFailed                         // the POST to the sign-in page raised
    | OptionsFailed                        // a role ARN has no role name after its last `/`
    | TypedFailed(reason: TypedError)      // the typed answer is no number, or out of range

  /** The outcome of `sts.get_caller_identity()`. */
  datatype IdentityOutcome =
    | CallerIdentified
    | ClientError(code: string)   // a `botocore` `ClientError` with this error code
    | OtherFailure                // any other exception, which `check_sts_token` does not catch

  /**
   * `~/.aws` and `~/.aws/credentials`: whether the directory exists, and the
   * file's sections when the file exists.
   */
  datatype CredsFile = CredsFile(dirExists: bool, contents: Option<Ini>)

  /** The sections `RawConfigParser.read` finds: none when the file is missing. */
  function Sections(file: CredsFile): Ini {
    if file.contents.Some? then file.contents.value else map[]
  }

  const ACCESS_KEY_ID := "aws_access_key_id"
  const SECRET_ACCESS_KEY := "aws_secret_access_key"
  const SESSION_TOKEN := "aws_session_token"

  const EXPIRED_TOKEN := "ExpiredToken"
  const GOV_PARTITION := "aws-us-gov"
  const GOV_REGION := "us-gov-west-1"
  const DEFAULT_DURATION := 3600

  /** The `ValueError` of `add_section("DEFAULT")`. */
  datatype WriteError = InvalidSectionName(name: string)

  /** The parameters `get_sts_token` passes to `assume_role_with_saml`. */
  datatype StsRequest = StsRequest(roleArn: string, principalArn: string, region: Option<string>, duration: int)

  /**
   * The credentials section `p` after `write_sts_token` sets its three keys:
   * the section is created if absent, its other keys and every other section
   * are kept.
   */
  function SetCredentials(ini: Ini, p: string, access: string, secret: string, token: string): (r: Ini)
    ensures r.Keys == ini.Keys + {p}
    ensures forall q :: q in ini && q != p ==> r[q] == ini[q]
    ensures r[p].Keys == SectionOf(ini, p).Keys + {ACCESS_KEY_ID, SECRET_ACCESS_KEY, SESSION_TOKEN}
    ensures r[p][ACCESS_KEY_ID] == access && r[p][SECRET_ACCESS_KEY] == secret && r[p][SESSION_TOKEN] == token
    ensures forall k :: k in SectionOf(ini, p) && k !in {ACCESS_KEY_ID, SECRET_ACCESS_KEY, SESSION_TOKEN} ==>
      r[p][k] == ini[p][k]
  {
    ini[p := SectionOf(ini, p)[ACCESS_KEY_ID := access][SECRET_ACCESS_KEY := secret][SESSION_TOKEN := token]]
  }

  /** Writing the same credentials twice leaves the file as the first write did. */
  lemma SetCredentialsIdempotent(ini: Ini, p: string, access: string, secret: string, token: string)
    ensures var once := SetCredentials(ini, p, access, secret, token);
      SetCredentials(once, p, access, secret, token) == once
  {
    var once := SetCredentials(ini, p, access, secret, token);
    var twice := SetCredentials(once, p, access, secret, token);
    assert twice[p] == once[p];
  }

  /**
   * The region of the STS client: `us-gov-west-1` when the second
   * `:`-separated field of the principal ARN is `aws-us-gov`, else the
   * default client (`None`). `Err` is the `IndexError` of a principal ARN
   * without any `:`.
   */
  function StsRegion(principalArn: string): (r: Result<Option<string>, ()>)
    ensures r.Err? <==> ':' !in principalArn
    ensures r.Ok? ==> |Split(principalArn, ':')| >= 2
    ensures r.Ok? ==> (r.value == Some(GOV_REGION) <==> Split(principalArn, ':')[1] == GOV_PARTITION)
    ensures r.Ok? ==> (r.value.None? <==> Split(principalArn, ':')[1] != GOV_PARTITION)
  {
    var fields := Split(principalArn, ':');
    if ':' !in principalArn then
      SplitWithoutSeparator(principalArn, ':');
      Err(())
    else
      SplitWithSeparator(principalArn, ':');
      if fields[1] == GOV_PARTITION then Ok(Some(GOV_REGION)) else Ok(None)
  }

  /** Every principal the extraction can return goes to the default STS endpoint. */
  lemma ExtractedPrincipalUsesDefaultEndpoint(t: string)
    requires IsArnText(t, ProviderArn)
    ensures StsRegion(t) == Ok(None)
  {
    assert t[..13] == ARN_PREFIX;
    assert t[3] == ':' && t[7] == ':';
    assert ':' !in t[..3];
    SplitAtFirstSeparator(t, ':', 3);
    var rest := t[4..];
    assert rest[3] == ':' && ':' !in rest[..3];
    SplitAtFirstSeparator(rest, ':', 3);
    assert Split(t, ':')[1] == rest[..3] == "aws";
  }

  /** A GovCloud principal goes to the GovCloud endpoint. */
  lemma GovCloudPrincipalUsesGovRegion(rest: string)
    ensures StsRegion("arn:aws-us-gov:" + rest) == Ok(Some(GOV_REGION))
  {
    var t := "arn:aws-us-gov:" + rest;
    assert ':' !in t[..3];
    SplitAtFirstSeparator(t, ':', 3);
    var tail := t[4..];
    assert tail[10] == ':' && ':' !in tail[..10];
    SplitAtFirstSeparator(tail, ':', 10);
    assert Split(t, ':')[1] == tail[..10] == GOV_PARTITION;
  }

  /**
   * `duration or 3600`: a configured duration is sent as it is, negative
   * values included, except that none and zero both mean an hour.
   */
  function RequestDuration(duration: Option<int>): (r: int)
    ensures r != 0
    ensures duration.Some? && duration.value != 0 ==> r == duration.value
    ensures duration.None? || duration.value == 0 ==> r == DEFAULT_DURATION
  {
    if duration.None? || duration.value == 0 then DEFAULT_DURATION else duration.value
  }

  /** The request `get_sts_token` sends, or the `IndexError` of the region lookup. */
  function StsRequestFor(roleArn: string, principalArn: string, duration: Option<int>): (r: Result<StsRequest, ()>)
    ensures r.Ok? <==> ':' in principalArn
    ensures r.Ok? ==> (r.value.roleArn == roleArn && r.value.principalArn == principalArn
      && Ok(r.value.region) == StsRegion(principalArn) && r.value.duration == RequestDuration(duration))
  {
    match StsRegion(principalArn)
    case Err(e) => Err(e)
    case Ok(region) => Ok(StsRequest(roleArn, principalArn, region, RequestDuration(duration)))
  }

  /** The `role` option of the okta profile in `~/.okta-aws`, or empty. */
  function ConfiguredRole(oktaConfig: Ini, oktaProfile: string): string {
    if HasOption(oktaConfig, oktaProfile, "role") then oktaConfig[oktaProfile]["role"] else ""
  }

  /**
   * The cases of `choose_aws_role` with `role` configured, for its result
   * `r`: extraction errors first; then the configured role when it is among
   * the extracted ones, with no sign-in request and no prompt; otherwise a
   * failed sign-in request, options that cannot be built, a typed answer that
   * selects nothing, or the role and option at the index it selects.
   */
  predicate ChoiceCases(r: Result<Choice, ChooseError>, role: string, attrs: seq<Attribute>,
                        signIn: Option<seq<AccountMatch>>, typed: string)
  {
    && (ExtractRoles(attrs).Err? <==> r.Err? && r.error.ExtractFailed?)
    && (ExtractRoles(attrs).Err? ==> r == Err(ExtractFailed(ExtractRoles(attrs).error)))
    && (r.Ok? && r.value.Predefined? <==>
         ExtractRoles(attrs).Ok? && role != "" && FindPredefinedRole(ExtractRoles(attrs).value, role).Some?)
    && (r.Ok? && r.value.Predefined? ==>
         FindPredefinedRole(ExtractRoles(attrs).value, role) == Some(r.value.role) && r.value.role.roleArn == role)
    && (r.Ok? && r.value.Interactive? ==>
         && ExtractRoles(attrs).Ok? && signIn.Some?
         && var roles := ExtractRoles(attrs).value;
         && ChosenIndex(|roles|, typed).Ok?
         && r.value.role == roles[ChosenIndex(|roles|, typed).value]
         && OptionFor(ChosenIndex(|roles|, typed).value, r.value.role, AliasMap(signIn.value)) == Some(r.value.option))
    && (r == Err(SignInFailed) <==>
         ExtractRoles(attrs).Ok? && !(r.Ok? && r.value.Predefined?) && signIn.None?)
    && (r == Err(OptionsFailed) <==>
         ExtractRoles(attrs).Ok? && !(r.Ok? && r.value.Predefined?) && signIn.Some? && !AllParse(ExtractRoles(attrs).value))
    && (r.Err? && r.error.TypedFailed? <==>
         ExtractRoles(attrs).Ok? && !(r.Ok? && r.value.Predefined?) && signIn.Some? && AllParse(ExtractRoles(attrs).value)
         && ChosenIndex(|ExtractRoles(attrs).value|, typed).Err?)
    && (r.Err? && r.error.TypedFailed? ==>
         ChosenIndex(|ExtractRoles(attrs).value|, typed) == Err(r.error.reason))
  }

  /**
   * What `choose_aws_role` returns with `role` configured, or the exception
   * it lets through: extraction errors first; then the configured role when
   * it is among the extracted ones, with no sign-in request and no prompt;
   * otherwise the role and option at the index the typed answer selects.
   */
  function ChooseRole(role: string, attrs: seq<Attribute>, signIn: Option<seq<AccountMatch>>, typed: string)
    : Result<Choice, ChooseError>
  {
    match ExtractRoles(attrs)
    case Err(e) => Err(ExtractFailed(e))
    case Ok(roles) =>
      if role != "" && FindPredefinedRole(roles, role).Some? then
        Ok(Predefined(FindPredefinedRole(roles, role).value))
      else if signIn.None? then Err(SignInFailed)
      else
        match OptionsFor(roles, AliasMap(signIn.value))
        case None => Err(OptionsFailed)
        case Some(options) =>
          match ChosenIndex(|roles|, typed)
          case Err(e) => Err(TypedFailed(e))
          case Ok(i) => Ok(Interactive(roles[i], options[i]))
  }

  /** `ChooseRole` goes through exactly the cases of `choose_aws_role`. */
  lemma ChooseRoleCases(role: string, attrs: seq<Attribute>, signIn: Option<seq<AccountMatch>>, typed: string)
    ensures ChoiceCases(ChooseRole(role, attrs, signIn, typed), role, attrs, signIn, typed)
  {
    if ExtractRoles(attrs).Ok? && signIn.Some? {
      var roles := ExtractRoles(attrs).value;
      var options := OptionsFor(roles, AliasMap(signIn.value));
      var i := ChosenIndex(|roles|, typed);
      if options.Some? && i.Ok? {
        assert OptionFor(i.value, roles[i.value], AliasMap(signIn.value)) == Some(options.value[i.value]);
      }
    }
  }

  class AwsAuth {
    /** The `role` configured for the okta profile in `~/.okta-aws`, or empty. */
    const role: string

    constructor(oktaProfile: string, oktaConfig: Ini)
      ensures role == ConfiguredRole(oktaConfig, oktaProfile)
    {
      if HasOption(oktaConfig, oktaProfile, "role") {
        role := oktaConfig[oktaProfile]["role"];
      } else {
        role := "";
      }
    }

    /** `choose_aws_role`, step by step. */
    method ChooseAwsRole(attrs: seq<Attribute>, signIn: Option<seq<AccountMatch>>, typed: string)
      returns (r: Result<Choice, ChooseError>)
      ensures r == ChooseRole(role, attrs, signIn, typed)
      ensures ChoiceCases(r, role, attrs, signIn, typed)
    {
      ChooseRoleCases(role, attrs, signIn, typed);
      var extracted := ExtractAvailableRoles(attrs);
      if extracted.Err? {
        return Err(ExtractFailed(extracted.error));
      }
      var roles := extracted.value;
      if role != "" {
        var predefined := FindPredefinedRole(roles, role);
        if predefined.Some? {
          return Ok(Predefined(predefined.value));
        }
      }
      if signIn.None? {
        return Err(SignInFailed);
      }
      var options := CreateOptions(roles, AliasMap(signIn.value));
      if options.None? {
        return Err(OptionsFailed);
      }
      var choice := ChosenIndex(|roles|, typed);
      if choice.Err? {
        return Err(TypedFailed(choice.error));
      }
      r := Ok(Interactive(roles[choice.value], options.value[choice.value]));
    }

    /**
     * `check_sts_token`: whether the stored credentials of `profile` are
     * still good. `Err` stands for an identity failure other than a
     * `ClientError`, which propagates.
     */
    static function CheckStsToken(profile: string, file: CredsFile, identity: IdentityOutcome): (r: Result<bool, ()>)
      ensures r == Ok(true) <==>
        && profile != "" && file.dirExists && file.contents.Some? && HasSection(file.contents.value, profile)
        && (identity.CallerIdentified? || (identity.ClientError? && identity.code != EXPIRED_TOKEN))
      ensures r.Err? <==>
        && profile != "" && file.dirExists && file.contents.Some? && HasSection(file.contents.value, profile)
        && identity.OtherFailure?
    {
      if profile == "" then Ok(false)
      else if !file.dirExists then Ok(false)
      else if file.contents.None? then Ok(false)
      else if !HasSection(file.contents.value, profile) then Ok(false)
      else
        match identity
        case CallerIdentified => Ok(true)
        case ClientError(code) => Ok(code != EXPIRED_TOKEN)
        case OtherFailure => Err(())
    }

    /**
     * `write_sts_token`: creates `~/.aws` when missing, reads the file when
     * present, creates the profile's section when missing, sets the three
     * credential keys and writes the file back. Adding a section named
     * `DEFAULT` raises after the directory was made and before anything was
     * written.
     */
    static method WriteStsToken(file: CredsFile, profile: string, access: string, secret: string, token: string)
      returns (written: CredsFile, r: Result<(), WriteError>)
      ensures r.Err? <==> profile == DEFAULT_SECTION
      ensures r.Err? ==> r.error == InvalidSectionName(profile)
      ensures r.Err? ==> written == file.(dirExists := true)
      ensures r.Ok? ==> written == CredsFile(true, Some(SetCredentials(Sections(file), profile, access, secret, token)))
    {
      var dirExists := file.dirExists;
      if !dirExists {
        dirExists := true;
      }
      var config: Ini := map[];
      if file.contents.Some? {
        config := file.contents.value;
      }
      assert config == Sections(file);
      if !HasSection(config, profile) {
        if profile == DEFAULT_SECTION {
          return CredsFile(dirExists, file.contents), Err(InvalidSectionName(profile));
        }
        config := config[profile := map[]];
      }
      assert config[profile] == SectionOf(Sections(file), profile);
      var section := config[profile];
      section := section[ACCESS_KEY_ID := access];
      section := section[SECRET_ACCESS_KEY := secret];
      section := section[SESSION_TOKEN := token];
      config := config[profile := section];
      assert config == Sections(file)[profile := section];
      written, r := CredsFile(dirExists, Some(config)), Ok(());
    }
  }

  /**
   * Once credentials were written for a non-empty profile, the check of that
   * profile depends only on the caller-identity outcome; a profile named
   * `DEFAULT` always checks as false, since `has_section` never reports it.
   */
  lemma WrittenProfileIsChecked(ini: Ini, profile: string, access: string, secret: string,
                                token: string, identity: IdentityOutcome)
    requires profile != ""
    ensures var written := CredsFile(true, Some(SetCredentials(ini, profile, access, secret, token)));
      && (profile != DEFAULT_SECTION ==>
           && (AwsAuth.CheckStsToken(profile, written, identity) == Ok(true) <==>
                identity.CallerIdentified? || (identity.ClientError? && identity.code != EXPIRED_TOKEN))
           && (AwsAuth.CheckStsToken(profile, written, identity) == Ok(false) <==>
                identity == ClientError(EXPIRED_TOKEN)))
      && (profile == DEFAULT_SECTION ==> AwsAuth.CheckStsToken(profile, written, identity) == Ok(false))
  {
  }
}
