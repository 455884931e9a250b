/**
 * `OktaAuthConfig` (okta_auth_config.py): the profiles of `~/.okta-aws`.
 * Lookups read one key from the named profile, some of them falling back to
 * the `default` profile; the save operations change one profile and write
 * the whole file back. Prompts are inputs: the text the user would type.
 */
module OktaConfig {
  import opened Wrappers
  import opened Text
  import opened IniFile

  const DEFAULT_PROFILE := "default"

  const BASE_URL := "base-url"
  const APP_LINK := "app-link"
  const USERNAME := "username"
  const PASSWORD := "password"
  const FACTOR := "factor"
  const DURATION := "duration"
  const ROLE := "role"
  const SELECTED_ROLES := "selected-roles"

  /** The exceptions of `RawConfigParser` the lookups and saves let through. */
  datatype ConfigError =
    | NoSectionError(section: string)
    | NoOptionError(section: string, key: string)
    | InvalidSectionName(name: string)     // `add_section("DEFAULT")`
    | NoConfigPath                         // `self.config_path` of a config read from a file handle

  /** The value of `key` in the first of `profiles` that has it. */
  function FirstWith(ini: Ini, profiles: seq<string>, key: string): (r: Option<string>)
    ensures r.None? <==> forall i :: 0 <= i < |profiles| ==> !HasOption(ini, profiles[i], key)
    ensures r.Some? ==> exists i :: (0 <= i < |profiles| && HasOption(ini, profiles[i], key)
      && r.value == ini[profiles[i]][key] && forall j :: 0 <= j < i ==> !HasOption(ini, profiles[j], key))
  {
    if profiles == [] then None
    else if HasOption(ini, profiles[0], key) then
      Some(ini[profiles[0]][key])
    else
      var r := FirstWith(ini, profiles[1..], key);
      assert forall i :: 1 <= i < |profiles| ==> profiles[i] == profiles[1..][i - 1];
      r
  }

  /** `base_url_for`: the profile's `base-url`, else the `default` profile's, else an error. */
  function BaseUrlFor(ini: Ini, profile: string): (r: Result<string, ConfigError>)
    ensures r.Ok? <==> FirstWith(ini, [profile, DEFAULT_PROFILE], BASE_URL).Some?
    ensures r.Ok? ==> Some(r.value) == FirstWith(ini, [profile, DEFAULT_PROFILE], BASE_URL)
    ensures r.Err? ==> r.error == (if DEFAULT_PROFILE in ini then NoOptionError(DEFAULT_PROFILE, BASE_URL)
                                   else NoSectionError(DEFAULT_PROFILE))
  {
    if HasOption(ini, profile, BASE_URL) then Ok(ini[profile][BASE_URL])
    else if DEFAULT_PROFILE !in ini then Err(NoSectionError(DEFAULT_PROFILE))
    else if BASE_URL !in ini[DEFAULT_PROFILE] then Err(NoOptionError(DEFAULT_PROFILE, BASE_URL))
    else Ok(ini[DEFAULT_PROFILE][BASE_URL])
  }

  /** `app_link_for`: the profile's `app-link`, else the `default` profile's, else none. */
  function AppLinkFor(ini: Ini, profile: string): (r: Option<string>)
    ensures r == FirstWith(ini, [profile, DEFAULT_PROFILE], APP_LINK)
  {
    if HasOption(ini, profile, APP_LINK) then Some(ini[profile][APP_LINK])
    else if HasOption(ini, DEFAULT_PROFILE, APP_LINK) then Some(ini[DEFAULT_PROFILE][APP_LINK])
    else None
  }

  /** `username_for`: the profile's `username`, else what the user types; no fallback. */
  function UsernameFor(ini: Ini, profile: string, typed: string): (r: string)
    ensures FirstWith(ini, [profile], USERNAME).Some? ==> Some(r) == FirstWith(ini, [profile], USERNAME)
    ensures FirstWith(ini, [profile], USERNAME).None? ==> r == typed
  {
    if HasOption(ini, profile, USERNAME) then ini[profile][USERNAME] else typed
  }

  /** `factor_for`: the profile's `factor`, with no fallback to `default`. */
  function FactorFor(ini: Ini, profile: string): (r: Option<string>)
    ensures r == FirstWith(ini, [profile], FACTOR)
  {
    if HasOption(ini, profile, FACTOR) then Some(ini[profile][FACTOR]) else None
  }

  /**
   * `duration_for`: `int()` of the profile's `duration`, with no fallback;
   * none when the key is absent or its value is not an integer.
   */
  function DurationFor(ini: Ini, profile: string): (r: Option<int>)
    ensures FirstWith(ini, [profile], DURATION).None? ==> r.None?
    ensures FirstWith(ini, [profile], DURATION).Some? ==> r == ParseInt(FirstWith(ini, [profile], DURATION).value)
  {
    if HasOption(ini, profile, DURATION) then ParseInt(ini[profile][DURATION]) else None
  }

  /** `selected_roles_for`: the comma-split `selected-roles` of the profile, else of `default`, else empty. */
  function SelectedRolesFor(ini: Ini, profile: string): (r: seq<string>)
    ensures FirstWith(ini, [profile, DEFAULT_PROFILE], SELECTED_ROLES).None? ==> r == []
    ensures FirstWith(ini, [profile, DEFAULT_PROFILE], SELECTED_ROLES).Some? ==>
      r == Split(FirstWith(ini, [profile, DEFAULT_PROFILE], SELECTED_ROLES).value, ',')
  {
    assert [profile, DEFAULT_PROFILE][1..] == [DEFAULT_PROFILE];
    if HasOption(ini, profile, SELECTED_ROLES) then Split(ini[profile][SELECTED_ROLES], ',')
    else if HasOption(ini, DEFAULT_PROFILE, SELECTED_ROLES) then Split(ini[DEFAULT_PROFILE][SELECTED_ROLES], ',')
    else []
  }

  /** `if not has_section(p): add_section(p)`, which refuses the name `DEFAULT`. */
  function EnsureSection(ini: Ini, profile: string): (r: Result<Ini, ConfigError>)
    ensures r.Err? <==> profile == DEFAULT_SECTION
    ensures r.Ok? ==> r.value.Keys == ini.Keys + {profile}
    ensures r.Ok? ==> forall q :: q in ini ==> r.value[q] == ini[q]
    ensures r.Ok? && profile !in ini ==> r.value[profile] == map[]
  {
    if HasSection(ini, profile) then Ok(ini)
    else if profile == DEFAULT_SECTION then Err(InvalidSectionName(profile))
    else Ok(ini[profile := map[]])
  }

  /**
   * The profile after `save_chosen_role_for_profile` or
   * `save_chosen_app_link_for_profile` sets `key`: its section exists, its
   * `base-url` is pinned to what `base_url_for` returned beforehand, and
   * `key` holds `v`.
   */
  function SaveWithBaseUrl(ini: Ini, profile: string, key: string, v: string): (r: Result<Ini, ConfigError>)
    requires key != BASE_URL
    ensures r.Ok? <==> EnsureSection(ini, profile).Ok? && BaseUrlFor(ini, profile).Ok?
    ensures r.Ok? ==> r.value.Keys == ini.Keys + {profile}
    ensures r.Ok? ==> forall q :: q in ini && q != profile ==> r.value[q] == ini[q]
    ensures r.Ok? ==> r.value[profile].Keys == SectionOf(ini, profile).Keys + {BASE_URL, key}
    ensures r.Ok? ==> r.value[profile][BASE_URL] == BaseUrlFor(ini, profile).value && r.value[profile][key] == v
    ensures r.Ok? ==> forall k :: k in SectionOf(ini, profile) && k != BASE_URL && k != key ==>
      r.value[profile][k] == ini[profile][k]
  {
    match EnsureSection(ini, profile)
    case Err(e) => Err(e)
    case Ok(added) =>
      assert HasOption(added, profile, BASE_URL) == HasOption(ini, profile, BASE_URL);
      assert HasOption(added, DEFAULT_PROFILE, BASE_URL) == HasOption(ini, DEFAULT_PROFILE, BASE_URL);
      match BaseUrlFor(added, profile)
      case Err(e) => Err(e)
      case Ok(base) =>
        var section := SectionOf(ini, profile)[BASE_URL := base][key := v];
        assert section.Keys == SectionOf(ini, profile).Keys + {BASE_URL, key};
        Ok(added[profile := section])
  }

  /** Saving a role or an app link changes no profile's effective base URL. */
  lemma SaveKeepsBaseUrls(ini: Ini, profile: string, key: string, v: string, q: string)
    requires key != BASE_URL && SaveWithBaseUrl(ini, profile, key, v).Ok?
    ensures BaseUrlFor(SaveWithBaseUrl(ini, profile, key, v).value, q) == BaseUrlFor(ini, q)
  {
    var saved := SaveWithBaseUrl(ini, profile, key, v).value;
    if q != profile && !HasOption(ini, q, BASE_URL) && profile == DEFAULT_PROFILE {
      assert !HasOption(saved, q, BASE_URL);
      assert BaseUrlFor(saved, q) == Ok(saved[DEFAULT_PROFILE][BASE_URL]);
    }
  }

  /** Saving a role or an app link leaves every other key of every profile as it was. */
  lemma SaveKeepsOtherKeys(ini: Ini, profile: string, key: string, v: string, q: string, k: string)
    requires key != BASE_URL && SaveWithBaseUrl(ini, profile, key, v).Ok?
    requires k != BASE_URL && k != key
    ensures FirstWith(SaveWithBaseUrl(ini, profile, key, v).value, [q], k) == FirstWith(ini, [q], k)
    ensures k == DURATION ==> DurationFor(SaveWithBaseUrl(ini, profile, key, v).value, q) == DurationFor(ini, q)
  {
    var saved := SaveWithBaseUrl(ini, profile, key, v).value;
    assert HasOption(saved, q, k) == HasOption(ini, q, k);
  }

  /** The saved value is the one read back. */
  lemma SaveReadsBack(ini: Ini, profile: string, key: string, v: string)
    requires key != BASE_URL && SaveWithBaseUrl(ini, profile, key, v).Ok?
    ensures FirstWith(SaveWithBaseUrl(ini, profile, key, v).value, [profile], key) == Some(v)
    ensures key == APP_LINK ==> AppLinkFor(SaveWithBaseUrl(ini, profile, key, v).value, profile) == Some(v)
  {
    var saved := SaveWithBaseUrl(ini, profile, key, v).value;
    assert HasOption(saved, profile, key);
  }

  /** The profile after `save_selected_roles`: `selected-roles` holds the comma-joined list. */
  function SaveSelected(ini: Ini, profile: string, roles: seq<string>): (r: Result<Ini, ConfigError>)
    ensures r.Ok? <==> EnsureSection(ini, profile).Ok?
    ensures r.Ok? ==> r.value.Keys == ini.Keys + {profile}
    ensures r.Ok? ==> forall q :: q in ini && q != profile ==> r.value[q] == ini[q]
    ensures r.Ok? ==> r.value[profile] == SectionOf(ini, profile)[SELECTED_ROLES := Join(roles, ',')]
  {
    match EnsureSection(ini, profile)
    case Err(e) => Err(e)
    case Ok(added) => Ok(added[profile := added[profile][SELECTED_ROLES := Join(roles, ',')]])
  }

  /**
   * `selected_roles_for` gives back the list `save_selected_roles` stored,
   * as long as no entry holds a comma; an empty list comes back as one empty
   * entry.
   */
  lemma SelectedRolesRoundTrip(ini: Ini, profile: string, roles: seq<string>)
    requires SaveSelected(ini, profile, roles).Ok?
    requires forall i :: 0 <= i < |roles| ==> ',' !in roles[i]
    ensures SelectedRolesFor(SaveSelected(ini, profile, roles).value, profile) == (if roles == [] then [""] else roles)
  {
    var saved := SaveSelected(ini, profile, roles).value;
    assert HasOption(saved, profile, SELECTED_ROLES);
    if roles != [] {
      SplitJoin(roles, ',');
    }
  }

  class OktaAuthConfig {
    /** The parsed contents of `~/.okta-aws`, or of the file handle given. */
    var value: Ini
    /** The password once asked for or read, for every later call. */
    var password: Option<string>
    /** Whether the config was read from a file handle instead of `~/.okta-aws`. */
    const fromHandle: bool
    /** The contents last written out, to `~/.okta-aws` or to the file handle. */
    var saved: Option<Ini>

    constructor(contents: Ini, fromHandle: bool)
      ensures value == contents && password.None? && this.fromHandle == fromHandle && saved.None?
    {
      value := contents;
      password := None;
      this.fromHandle := fromHandle;
      saved := None;
    }

    /**
     * `password_for`: the cached password when there is one; otherwise the
     * profile's `password`, or what the user types, which is then cached.
     */
    method PasswordFor(profile: string, typed: string) returns (r: string)
      modifies this
      ensures old(password).Some? ==> r == old(password).value
      ensures old(password).None? ==> r == (if HasOption(value, profile, PASSWORD) then value[profile][PASSWORD] else typed)
      ensures password == Some(r)
      ensures value == old(value) && saved == old(saved)
    {
      if password.Some? {
        return password.value;
      }
      if HasOption(value, profile, PASSWORD) {
        password := Some(value[profile][PASSWORD]);
      } else {
        password := Some(typed);
      }
      r := password.value;
    }

    /**
     * The common shape of the two `save_chosen_*` methods: add the section,
     * look up the base URL, set it and `key`, write the file out. A failed
     * base-URL lookup leaves the added section in memory and writes nothing;
     * a config read from a file handle has no path to write to.
     */
    method SaveKeyWithBaseUrl(profile: string, key: string, v: string) returns (r: Result<(), ConfigError>)
      requires key != BASE_URL
      modifies this
      ensures var s := SaveWithBaseUrl(old(value), profile, key, v);
        && (r.Ok? <==> s.Ok? && !fromHandle)
        && (s.Ok? ==> value == s.value)
        && (s.Err? ==> value == (if EnsureSection(old(value), profile).Ok? then EnsureSection(old(value), profile).value
                                 else old(value)))
        && (s.Err? ==> r == Err(s.error))
      ensures saved == (if r.Ok? then Some(value) else old(saved))
      ensures password == old(password)
    {
      var ini := value;
      if !HasSection(ini, profile) {
        if profile == DEFAULT_SECTION {
          return Err(InvalidSectionName(profile));
        }
        ini := ini[profile := map[]];
      }
      assert ini == EnsureSection(value, profile).value;
      var base := BaseUrlFor(ini, profile);
      if base.Err? {
        value := ini;
        return Err(base.error);
      }
      ini := ini[profile := ini[profile][BASE_URL := base.value]];
      ini := ini[profile := ini[profile][key := v]];
      assert ini == SaveWithBaseUrl(value, profile, key, v).value;
      value := ini;
      if fromHandle {
        return Err(NoConfigPath);
      }
      saved := Some(value);
      r := Ok(());
    }

    /** `save_chosen_role_for_profile`: the profile's `role` becomes `roleArn`. */
    method SaveChosenRoleForProfile(profile: string, roleArn: string) returns (r: Result<(), ConfigError>)
      modifies this
      ensures var s := SaveWithBaseUrl(old(value), profile, ROLE, roleArn);
        && (r.Ok? <==> s.Ok? && !fromHandle)
        && (s.Ok? ==> value == s.value)
        && (s.Err? ==> value == (if EnsureSection(old(value), profile).Ok? then EnsureSection(old(value), profile).value
                                 else old(value)))
        && (s.Err? ==> r == Err(s.error))
      ensures saved == (if r.Ok? then Some(value) else old(saved))
      ensures password == old(password)
    {
      r := SaveKeyWithBaseUrl(profile, ROLE, roleArn);
    }

    /** `save_chosen_app_link_for_profile`: the profile's `app-link` becomes `appLink`. */
    method SaveChosenAppLinkForProfile(profile: string, appLink: string) returns (r: Result<(), ConfigError>)
      modifies this
      ensures var s := SaveWithBaseUrl(old(value), profile, APP_LINK, appLink);
        && (r.Ok? <==> s.Ok? && !fromHandle)
        && (s.Ok? ==> value == s.value)
        && (s.Err? ==> value == (if EnsureSection(old(value), profile).Ok? then EnsureSection(old(value), profile).value
                                 else old(value)))
        && (s.Err? ==> r == Err(s.error))
      ensures saved == (if r.Ok? then Some(value) else old(saved))
      ensures password == old(password)
    {
      r := SaveKeyWithBaseUrl(profile, APP_LINK, appLink);
    }

    /** `save_selected_roles`: stores the comma-joined list and writes it out, to the handle if there is one. */
    method SaveSelectedRoles(profile: string, roles: seq<string>) returns (r: Result<(), ConfigError>)
      modifies this
      ensures r == (if SaveSelected(old(value), profile, roles).Ok? then Ok(()) else Err(SaveSelected(old(value), profile, roles).error))
      ensures r.Ok? ==> value == SaveSelected(old(value), profile, roles).value && saved == Some(value)
      ensures r.Err? ==> value == old(value) && saved == old(saved)
      ensures password == old(password)
    {
      if !HasSection(value, profile) {
        if profile == DEFAULT_SECTION {
          return Err(InvalidSectionName(profile));
        }
        value := value[profile := map[]];
      }
      value := value[profile := value[profile][SELECTED_ROLES := Join(roles, ',')]];
      saved := Some(value);
      r := Ok(());
    }
  }
}
