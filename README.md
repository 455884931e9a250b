# okta-awscli, modelled in Dafny

`okta-awscli` logs a user in to Okta, takes the SAML assertion Okta returns,
and trades it with AWS STS for temporary credentials. Then it prints the
credentials as `export` lines or stores them in `~/.aws/credentials`, and
optionally runs an `aws` command with them. This project models the
decisions and data handling around those calls, in these modules:

- **Role extraction** (`SamlRoles`, `ArnScan`). Each value of a SAML `Role`
  attribute yields one (principal ARN, role ARN) pair. The two ARNs are
  found by scanners that mirror the tool's regular expressions
  (`arn:aws:iam::` + 12 digits + `:role/` or `:saml-provider/`, up to the
  next comma).
- **The role menu** (`RoleOptions`). The account-alias map from the AWS
  sign-in page, numbered options, the predefined-role lookup, and the index
  a typed answer selects, with Python's negative indexing.
- **`AwsAuth`** (`Aws`):
  - `choose_aws_role`;
  - the STS endpoint and duration;
  - `check_sts_token`, as a decision over the credentials file and the
    caller-identity outcome;
  - `write_sts_token`, as a step-by-step update of the credentials file's
    sections.
- **`OktaAuthConfig`** (`OktaConfig`). Profile lookups with their fallback to
  `default`, the cached password, and the three save operations on
  `~/.okta-aws`.
- **The command** (`OktaAwsCli`):
  - option rewriting for alias mode;
  - the refresh rule;
  - alias profile naming;
  - where credentials go;
  - the export text;
  - the final `aws` command line.
  - `Run` strings all of these together over the files and the answers of
    the outside services.

INI files are `map<section, map<key, value>>` (`IniFile`). Python's
`int()`, `"%d"`, `str.split` and `str.join` are in `Text`, and
Option/Result are in `Wrappers`.

The model keeps these behaviours of the code:

- `duration or 3600` in `get_sts_token` defaults only `None` and `0`. A
  negative duration is passed to `assume_role_with_saml` unchanged.
- `int(input(...)) - 1` indexes the role list with no range check. `0` and
  negative numbers select from the end of the list, and only out-of-range
  numbers and non-numbers raise.
- `__get_account_alias` does not catch a failed request to the AWS sign-in
  page, so the failure ends the run.
- `check_sts_token` catches only `ClientError`. Any other failure of the
  identity call propagates.
- `write_sts_token` and `add_section` raise for a section named `DEFAULT`
  whatever the file holds, because `has_section('DEFAULT')` is always false.

## Model

| member | source | states |
|---|---|---|
| SamlRoles.ExtractAvailableRoles | oktaawscli/aws_auth.py:147-161 | the nested extraction loop returns exactly the pairs of `ExtractRoles`, or the same first error |
| SamlRoles.ExtractRolesPerValue | oktaawscli/aws_auth.py:154-160 | extraction succeeds iff every role-attribute value yields a pair; then it returns one pair per value, in document order, duplicates kept |
| SamlRoles.OtherAttributeIgnored | oktaawscli/aws_auth.py:154-155 | inserting an attribute of any other name anywhere leaves the extraction result unchanged |
| SamlRoles.ExtractFailsAtFirstBadValue | oktaawscli/aws_auth.py:156-160 | a failed extraction reports the first value lacking an ARN; the missing kind is the role ARN exactly when that value has no role ARN |
| SamlRoles.EntryOrderIrrelevant | oktaawscli/aws_auth.py:157-159 | role-then-principal and principal-then-role in one value give the same pair |
| SamlRoles.ExtractedShapes | oktaawscli/aws_auth.py:158-159 | every extracted ARN starts with `arn:aws:iam::`, 12 digits and its resource type, and holds no comma, so `arn:aws-us-gov:` ARNs are never extracted |
| SamlRoles.ParseAllPointwise | oktaawscli/aws_auth.py:156-160 | appending in a loop that may raise succeeds iff each step succeeds, and then yields each step's result at its own index |
| ArnScan.FindArnIsFirstMatch | oktaawscli/aws_auth.py:158-159 | the scanner finds nothing iff the pattern matches nowhere, else it finds the leftmost match, extended up to the next comma or the end |
| ArnScan.ArnTextIsMatch | oktaawscli/aws_auth.py:158-159 | `findall(...)[0]` fails iff there is no match; otherwise the text is ARN-shaped |
| ArnScan.ArnTextOfLeading | oktaawscli/aws_auth.py:158-159 | an ARN before the first comma is the one found |
| ArnScan.ArnTextOfTrailing | oktaawscli/aws_auth.py:158-159 | when the text before the comma holds no match, the ARN after it is the one found |
| ArnScan.ParseRoleArn | oktaawscli/aws_auth.py:168 | no result iff the account/role-name pattern matches nowhere; otherwise a 12-digit account and a non-empty role name that holds no `/` and is the ARN's text after its last `/` |
| ArnScan.ParseRoleArnAccount | oktaawscli/aws_auth.py:168 | the reported account is the 12-digit group of the leftmost position where the pattern matches |
| ArnScan.ParseExtractedRoleArn | oktaawscli/aws_auth.py:168 | an extracted role ARN with no newline before its last `/` splits into account and name iff it does not end in `/`, and the account is the one in its head |
| RoleOptions.AliasMap | oktaawscli/aws_auth.py:60-61 | the alias map has exactly the accounts of the matches as keys |
| RoleOptions.AliasMapLastWins | oktaawscli/aws_auth.py:61 | an account maps to the alias of the last match naming it |
| RoleOptions.OptionFor | oktaawscli/aws_auth.py:168-176 | option text is `"<i+1>: <role ARN>"`, with `" (<alias>)"` appended iff the account has an alias; alias name is that alias, else the account; role name is the ARN's last segment; fails iff the ARN does not parse |
| RoleOptions.CreateOptions | oktaawscli/aws_auth.py:163-177 | the loop returns one option per role, same length and order, each the `OptionFor` of its index; fails iff some ARN does not parse |
| RoleOptions.FindPredefinedRole | oktaawscli/aws_auth.py:179-181 | none iff no role ARN equals the configured one; otherwise the first role whose ARN equals it |
| RoleOptions.ChosenIndex | oktaawscli/aws_auth.py:53-54 | a typed `n` is accepted iff it parses as an integer with `1-count <= n <= count`; it then selects index `n-1` when `n >= 1` and `count+n-1` otherwise, always below `count`; a non-number is `NotANumber` |
| RoleOptions.TypedNumberSelects | oktaawscli/aws_auth.py:53 | typing the decimal number `i+1` selects index `i` |
| RoleOptions.ZeroSelectsLast | oktaawscli/aws_auth.py:53-54 | typing `0` selects the last role instead of being refused |
| RoleOptions.DisplayedNumberSelects | oktaawscli/aws_auth.py:50-54 | the number printed before the colon on option line `i`, typed back, selects role and option `i` |
| RoleOptions.TwoAccountMenu | oktaawscli/aws_auth.py:164-177 | with accounts 111111111111 (alias `prod`) and 222222222222: line 1 ends in `(prod)`, line 2 is the bare ARN with the account as alias name, and `2` selects the second role |
| Aws.AwsAuth.constructor | oktaawscli/aws_auth.py:23-31 | the configured role is the okta profile's `role`, or empty |
| Aws.AwsAuth.ChooseAwsRole | oktaawscli/aws_auth.py:34-54 | returns `ChooseRole` of the configured role and meets `ChoiceCases`: `ExtractFailed` with the extraction error iff extraction fails; `Predefined` iff the configured role is non-empty and among the extracted roles, and then it is the first role with that ARN; otherwise `SignInFailed` iff the sign-in request failed, `OptionsFailed` iff some role ARN does not parse, `TypedFailed` with `ChosenIndex`'s error iff the typed answer selects nothing, else `Interactive` with the role and option at the index `ChosenIndex` selects |
| Aws.ChooseRoleCases | oktaawscli/aws_auth.py:34-54 | `ChooseRole` meets every case of `ChoiceCases` above, for every configured role, assertion, sign-in answer and typed answer |
| Aws.StsRegion | oktaawscli/aws_auth.py:68-72 | `us-gov-west-1` iff the second `:` field of the principal is `aws-us-gov`, else the default endpoint; error iff the principal has no `:` |
| Aws.ExtractedPrincipalUsesDefaultEndpoint | oktaawscli/aws_auth.py:68-72 | every principal the extraction can return goes to the default endpoint |
| Aws.GovCloudPrincipalUsesGovRegion | oktaawscli/aws_auth.py:67-70 | an `arn:aws-us-gov:` principal goes to `us-gov-west-1` |
| Aws.RequestDuration | oktaawscli/aws_auth.py:78 | a non-zero duration is sent as it is, negatives included; none or zero becomes 3600; the sent duration is never zero |
| Aws.StsRequestFor | oktaawscli/aws_auth.py:64-78 | the request carries the given role and principal ARNs, the partition's region and the defaulted duration; it fails iff the region lookup does |
| Aws.AwsAuth.CheckStsToken | oktaawscli/aws_auth.py:92-124 | true iff the profile is non-empty, the directory and file exist, `has_section` reports the profile (never for `DEFAULT`), and the identity call succeeds or fails with a code other than `ExpiredToken`; error iff it gets that far and the failure is not a `ClientError` |
| Aws.AwsAuth.WriteStsToken | oktaawscli/aws_auth.py:126-143 | the directory exists afterwards; fails with `InvalidSectionName` iff the profile is `DEFAULT`, and then the file is otherwise unchanged; else the file becomes `SetCredentials` of what was there |
| Aws.SetCredentials | oktaawscli/aws_auth.py:135-140 | the section exists and holds the three credentials; its other keys and every other section are unchanged |
| Aws.SetCredentialsIdempotent | oktaawscli/aws_auth.py:135-140 | repeating the same write changes nothing |
| Aws.WrittenProfileIsChecked | oktaawscli/aws_auth.py:109-124 | after a write, the check of a profile other than `DEFAULT` depends only on the identity outcome and is false only for `ExpiredToken`; for `DEFAULT` it is always false |
| OktaConfig.FirstWith | oktaawscli/okta_auth_config.py:51-57 | the value of the key in the first listed profile that has it; none iff no listed profile has it |
| OktaConfig.BaseUrlFor | oktaawscli/okta_auth_config.py:39-49 | the profile's `base-url`, else `default`'s; otherwise `NoSectionError` or `NoOptionError` for `default` |
| OktaConfig.AppLinkFor | oktaawscli/okta_auth_config.py:51-59 | the profile's `app-link`, else `default`'s, else none |
| OktaConfig.UsernameFor | oktaawscli/okta_auth_config.py:61-68 | the profile's own `username`, else the typed one; no fallback |
| OktaConfig.FactorFor | oktaawscli/okta_auth_config.py:80-86 | the profile's own `factor`; no fallback |
| OktaConfig.DurationFor | oktaawscli/okta_auth_config.py:88-97 | `int()` of the profile's own `duration`; none when absent or not an integer |
| OktaConfig.SelectedRolesFor | oktaawscli/okta_auth_config.py:134-139 | the comma-split `selected-roles` of the profile, else of `default`, else empty |
| OktaConfig.EnsureSection | oktaawscli/okta_auth_config.py:101-102 | fails iff the profile is `DEFAULT`; otherwise the section exists afterwards, empty if it was missing, and every other section is unchanged |
| OktaConfig.SaveWithBaseUrl | oktaawscli/okta_auth_config.py:99-106 | sets `base-url` to what `base_url_for` returned before and the key to the value; other keys and profiles are kept; fails iff the section cannot be added or there is no base URL |
| OktaConfig.SaveKeepsBaseUrls | oktaawscli/okta_auth_config.py:104-105 | saving a role or app link changes no profile's effective base URL |
| OktaConfig.SaveKeepsOtherKeys | oktaawscli/okta_auth_config.py:104-106 | every other key of every profile, `duration` included, reads as before |
| OktaConfig.SaveReadsBack | oktaawscli/okta_auth_config.py:111-118 | the saved role or app link is what the profile's lookup returns |
| OktaConfig.SaveSelected | oktaawscli/okta_auth_config.py:123-126 | `selected-roles` becomes the comma-joined list; everything else is kept |
| OktaConfig.SelectedRolesRoundTrip | oktaawscli/okta_auth_config.py:123-139 | reading back a saved comma-free list gives the list; an empty list comes back as `[""]` |
| OktaConfig.OktaAuthConfig.constructor | oktaawscli/okta_auth_config.py:17-28 | the parsed contents, no cached password, nothing written yet |
| OktaConfig.OktaAuthConfig.PasswordFor | oktaawscli/okta_auth_config.py:70-78 | a cached password is returned for any profile; otherwise the profile's `password` or the typed one, which becomes the cache |
| OktaConfig.OktaAuthConfig.SaveKeyWithBaseUrl | oktaawscli/okta_auth_config.py:99-109 | the config becomes `SaveWithBaseUrl`, or, when that fails, keeps only the added section. The file is written iff it succeeded and the config has a path |
| OktaConfig.OktaAuthConfig.SaveChosenRoleForProfile | oktaawscli/okta_auth_config.py:99-109 | the config becomes `SaveWithBaseUrl` with `role`; when that fails, its error is returned and the config keeps only the added section. The file is written iff it succeeded and the config has a path |
| OktaConfig.OktaAuthConfig.SaveChosenAppLinkForProfile | oktaawscli/okta_auth_config.py:111-121 | the config becomes `SaveWithBaseUrl` with `app-link`; when that fails, its error is returned and the config keeps only the added section. The file is written iff it succeeded and the config has a path |
| OktaConfig.OktaAuthConfig.SaveSelectedRoles | oktaawscli/okta_auth_config.py:123-132 | the config becomes `SaveSelected` and is written out, to the handle if there is one; fails only on `DEFAULT` |
| Text.ParseDecimal | oktaawscli/aws_auth.py:170 | `int()` reads back what `"%d"` prints |
| Text.ParseNegativeDecimal | oktaawscli/okta_auth_config.py:94 | `int()` reads a negative number |
| Text.SplitJoin | oktaawscli/okta_auth_config.py:126 | `split` undoes `join` on non-empty lists of separator-free parts |
| OktaAwsCli.ResolveFlags | oktaawscli/okta_awscli.py:107-113 | no okta profile means `default`; alias mode sets the okta profile to `temporary-cli-aws-profile`, drops the AWS profile and forces; otherwise the flags are kept |
| OktaAwsCli.ResolveFlagsIdempotent | oktaawscli/okta_awscli.py:107-113 | rewriting twice is rewriting once, and the okta profile is never empty |
| OktaAwsCli.ConsoleOutputLines | oktaawscli/okta_awscli.py:62-73 | the export text is exactly three lines: access key, secret key, session token, in that order |
| OktaAwsCli.AliasProfileName | oktaawscli/okta_awscli.py:26 | the alias name, a `-`, then the role name |
| OktaAwsCli.CommandLine | oktaawscli/okta_awscli.py:127-130 | a command iff there are arguments: `aws --profile <profile>` followed by them in order |
| OktaAwsCli.ArnsAsWritten | oktaawscli/okta_awscli.py:20-25 | without alias mode a prompted choice yields no ARNs; in alias mode a predefined one raises |
| OktaAwsCli.ChosenArns | oktaawscli/okta_awscli.py:20-25 | both shapes of the choice give the chosen role's own ARNs, except a predefined role in alias mode |
| OktaAwsCli.Prepare | oktaawscli/okta_awscli.py:19-37 | raises `choose_aws_role`'s error, refuses a predefined role in alias mode, raises the save error, or saves the role for the okta profile in use (the alias profile name in alias mode) and builds the request with the role's ARNs and that profile's configured duration |
| OktaAwsCli.PrepareRequest | oktaawscli/okta_awscli.py:16-37 | the steps before the STS call return exactly `Prepare`, and the choice made when they got that far |
| OktaAwsCli.StoreCredentials | oktaawscli/okta_awscli.py:53-57 | writes the alias section first in alias mode, then the profile; a write to `DEFAULT` raises and keeps the earlier write; otherwise both sections hold the credentials |
| OktaAwsCli.PromptedRoleLosesArns | oktaawscli/okta_awscli.py:20-22 | the as-written unpacking loses the ARNs of a prompted role, the corrected one keeps them, and the two agree everywhere else |
| OktaAwsCli.GetCredentials | oktaawscli/okta_awscli.py:13-59 | meets `Fetched` for `Prepare` of its inputs. An exception of the first steps ends it with that exception and no write. An STS `ClientError` exits with the store untouched, and any other STS exception raises with the store untouched; a missing region raises. With issued credentials and no profile it exits after the export lines, cached with `--cache`. Otherwise it writes the alias section (alias mode) and then the profile, raising at a write named `DEFAULT` with the earlier write kept, and returns the profile: `<alias>-<role name>` in alias mode |
| OktaAwsCli.FetchedConsequences | oktaawscli/okta_awscli.py:13-59 | the export exit happens only without a profile and alias mode; the request carries the chosen role's ARNs and the okta profile's configured duration, and the role is saved there; a normal return leaves the credentials under the profile and, in alias mode, under the alias name too; every ending before a write leaves the store unchanged |
| OktaAwsCli.Run | oktaawscli/okta_awscli.py:107-130 | meets `RanAs`: a failing check raises and does nothing else. Otherwise new credentials are fetched iff the check says false or force is set. Without fetching, the run finishes, writes nothing and runs the command under the given profile. With fetching, the outcome is `Fetched` for the role configured for the okta profile, and the `aws` command runs only after a normal return, under the returned profile |
| OktaAwsCli.RunConsequences | oktaawscli/okta_awscli.py:107-130 | over a whole run: the export exit needs no profile and no alias mode; the request carries the chosen role's ARNs and configured duration; a finished refresh stores the credentials under the profile (and the alias name) and runs the command there; the command needs a normal end and arguments; a run that stops before writing leaves the store alone |
| OktaAwsCli.HoldsAfterWrite | oktaawscli/okta_awscli.py:53-57 | the alias write survives the second write of the same credentials |

## Left out

- Network: the POST to the AWS sign-in page and the boto3 STS clients.
  - The sign-in page enters as its `Account: <alias> (<12 digits>)` matches, or as a failure.
  - STS enters as its reply (credentials, a `ClientError`, or any other exception, which propagates), and the identity call as its outcome.
  - Scanning the page text with `Account: ([^\s]+) \((\d{12})\)` is not modelled.
- Base64 decoding and XML parsing of the assertion. The assertion enters as its attributes, each a name with its value texts.
- `\d`, `\s` and `int()` in Python 3 accept non-ASCII digits and white space. The model accepts only ASCII.
- Files:
  - `~` expansion, `os.makedirs`, opening and writing files, and the INI text format;
  - the cache file, kept only as a flag saying the export text went to it;
  - `configparser` details: inheritance from `[DEFAULT]`, option-name lowercasing, and `has_option` on an empty section name. Only the refusal of `add_section("DEFAULT")` is modelled.
- The first-run prompt that creates `~/.okta-aws` in `OktaAuthConfig.__init__`. The config enters as already read.
- Prompts, printing, logging, `click` parsing, `subprocess.call` and `exit`.
  - Typed answers are parameters, and exits are `Ending` variants.
  - The `--verbose`, `--debug`, `--version` and `--token` options are not modelled.
- The Okta login (`oktaawscli/okta_auth.py`) is not part of this model. Its assertion is an input to `Run`.
- `oktaawscli/version.py` and `setup.py` are not part of this model.
- `AwsAuth.choose_roles`: it is called by `oktaawscli/tests.py` but not defined in `oktaawscli/aws_auth.py`, so it has no behaviour to model.
- The credentials' `Expiration`, which is only logged.
- StsRequestFor: does not model `get_sts_token` re-raising a `ClientError` when no logger is given. `get_credentials` always passes one, so a refusal ends in `exit(-1)`.
- GetCredentials: it uses the corrected unpacking `ChosenArns` (see Findings). The okta config in memory is not part of the outcome; only what was saved is.
- OktaAwsCli.ArnsAsWritten: the consequences of the bug are described, not modelled. These are storing the option tuple's text as `role` in `~/.okta-aws`, then `AttributeError` at `principal_arn.split`.

## Findings

| source | as written | input that shows it | evidently intended | confidence | as-written member | corrected member |
|---|---|---|---|---|---|---|
| oktaawscli/okta_awscli.py:21-22 | Without `--alias`, `principal_arn, role_arn = role` unpacks the whole return value of `choose_aws_role`. After the prompt that value is the pair (role tuple, option tuple), so `principal_arn` receives the role tuple and `role_arn` the option tuple | no configured role, `--profile p`, typed answer `1`: the option tuple is saved as the profile's `role`, then `principal_arn.split(':')` raises `AttributeError` | unpack the role tuple out of the pair, as the alias branch does, so that the chosen role's two ARNs reach STS | high; not executed | OktaAwsCli.ArnsAsWritten | OktaAwsCli.ChosenArns |
