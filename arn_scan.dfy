/**
 * The two regular expressions aws_auth.py applies to ARNs, as scanners with
 * the leftmost-match meaning of `re.findall(pattern, s)[0]`:
 *   `arn:aws:iam::\d{12}:role/[^,]*` and `arn:aws:iam::\d{12}:saml-provider/[^,]*`
 * pick the role and principal ARNs out of a SAML attribute value, and
 *   `arn:aws:iam::(\d{12}):role.*\/([^/]+)$`
 * splits a role ARN into its account number and role name.
 */
module ArnScan {
  import opened Wrappers
  import opened Text

  const ARN_PREFIX := "arn:aws:iam::"

  datatype ArnKind = RoleArn | ProviderArn

  /** The literal text after the account number. */
  function Resource(k: ArnKind): string {
    match k
    case RoleArn => ":role/"
    case ProviderArn => ":saml-provider/"
  }

  /** Length of the fixed part of a match: prefix, 12 digits, resource. */
  function HeadLength(k: ArnKind): nat {
    13 + 12 + |Resource(k)|
  }

  predicate IsAccountNumber(s: string) {
    |s| == 12 && AllDigits(s)
  }

  /** `w` is exactly the fixed part of the pattern for `k`. */
  predicate IsHead(w: string, k: ArnKind) {
    && |w| == HeadLength(k)
    && w[..13] == ARN_PREFIX
    && IsAccountNumber(w[13..25])
    && w[25..] == Resource(k)
  }

  /** The fixed part of the pattern for `k` starts at position `i` of `s`. */
  predicate HeadAt(s: string, i: nat, k: ArnKind) {
    i + HeadLength(k) <= |s| && IsHead(s[i..i + HeadLength(k)], k)
  }

  lemma HeadHasNoComma(w: string, k: ArnKind)
    requires IsHead(w, k)
    ensures ',' !in w
  {
    forall j | 0 <= j < |w| ensures w[j] != ',' {
      if j < 13 {
        assert w[j] == w[..13][j];
      } else if j < 25 {
        assert w[j] == w[13..25][j - 13];
      } else {
        assert w[j] == w[25..][j - 25] == Resource(k)[j - 25];
      }
    }
  }

  /** End of the `[^,]*` run that starts at `j`: the next comma, or the end. */
  function RunEnd(s: string, j: nat): nat
    requires j <= |s|
    decreases |s| - j
  {
    if j == |s| || s[j] == ',' then j else RunEnd(s, j + 1)
  }

  lemma {:induction false} RunEndIsNextComma(s: string, j: nat)
    requires j <= |s|
    ensures j <= RunEnd(s, j) <= |s|
    ensures RunEnd(s, j) == |s| || s[RunEnd(s, j)] == ','
    ensures forall m :: j <= m < RunEnd(s, j) ==> s[m] != ','
    decreases |s| - j
  {
    if j < |s| && s[j] != ',' {
      RunEndIsNextComma(s, j + 1);
    }
  }

  /** The least position in `i..n` where `p` holds, if any. */
  function FirstFrom(p: nat -> bool, i: nat, n: nat): Option<nat>
    requires i <= n
    decreases n - i
  {
    if p(i) then Some(i)
    else if i == n then None
    else FirstFrom(p, i + 1, n)
  }

  lemma {:induction false} FirstFromIsLeast(p: nat -> bool, i: nat, n: nat)
    requires i <= n
    ensures var r := FirstFrom(p, i, n);
      && (r.Some? ==> i <= r.value <= n && p(r.value))
      && (r.Some? ==> forall m :: i <= m < r.value ==> !p(m))
      && (r.None? ==> forall m :: i <= m <= n ==> !p(m))
    decreases n - i
  {
    if !p(i) && i < n {
      FirstFromIsLeast(p, i + 1, n);
    }
  }

  /** The leftmost position at or after `i` where the fixed part for `k` starts. */
  function FirstHeadFrom(s: string, k: ArnKind, i: nat): Option<nat>
    requires i <= |s|
    decreases |s| - i
  {
    if HeadAt(s, i, k) then Some(i)
    else if i == |s| then None
    else FirstHeadFrom(s, k, i + 1)
  }

  lemma {:induction false} FirstHeadFromIsFirstFrom(s: string, k: ArnKind, i: nat, p: nat -> bool)
    requires i <= |s|
    requires forall m :: p(m) == HeadAt(s, m, k)
    ensures FirstHeadFrom(s, k, i) == FirstFrom(p, i, |s|)
    decreases |s| - i
  {
    if !p(i) && i < |s| {
      FirstHeadFromIsFirstFrom(s, k, i + 1, p);
    }
  }

  lemma FirstHeadFromIsLeftmost(s: string, k: ArnKind, i: nat)
    requires i <= |s|
    ensures var r := FirstHeadFrom(s, k, i);
      && (r.Some? ==> i <= r.value && HeadAt(s, r.value, k))
      && (r.Some? ==> forall m :: i <= m < r.value ==> !HeadAt(s, m, k))
      && (r.None? ==> forall m :: i <= m <= |s| ==> !HeadAt(s, m, k))
  {
    var p := (m: nat) => HeadAt(s, m, k);
    FirstHeadFromIsFirstFrom(s, k, i, p);
    FirstFromIsLeast(p, i, |s|);
  }

  /** Where a match lies in the scanned text: `s[start..end]`. */
  datatype Span = Span(start: nat, end: nat)

  /** `sp` is the leftmost match of the pattern for `k` in `s`, tail included. */
  predicate IsFirstMatch(s: string, k: ArnKind, sp: Span) {
    && sp.start + HeadLength(k) <= sp.end <= |s|
    && HeadAt(s, sp.start, k)
    && (forall m :: 0 <= m < sp.start ==> !HeadAt(s, m, k))
    && (forall m :: sp.start + HeadLength(k) <= m < sp.end ==> s[m] != ',')
    && (sp.end == |s| || s[sp.end] == ',')
  }

  /** The first match of the ARN pattern for `k` in `s`, if there is one. */
  function FindArn(s: string, k: ArnKind): Option<Span> {
    match FirstHeadFrom(s, k, 0)
    case None => None
    case Some(i) =>
      FirstHeadFromIsLeftmost(s, k, 0);
      Some(Span(i, RunEnd(s, i + HeadLength(k))))
  }

  /** The scanner finds the leftmost match, and finds none only where there is none. */
  lemma FindArnIsFirstMatch(s: string, k: ArnKind)
    ensures FindArn(s, k).None? <==> NoHead(s, k)
    ensures FindArn(s, k).Some? ==> IsFirstMatch(s, k, FindArn(s, k).value)
  {
    FirstHeadFromIsLeftmost(s, k, 0);
    var r := FirstHeadFrom(s, k, 0);
    if r.Some? {
      RunEndIsNextComma(s, r.value + HeadLength(k));
    }
  }

  /** The matched text, as `re.findall(...)[0]` returns it; `None` where `[0]` raises. */
  function ArnText(s: string, k: ArnKind): Option<string> {
    match FindArn(s, k)
    case None => None
    case Some(sp) =>
      FindArnIsFirstMatch(s, k);
      Some(s[sp.start..sp.end])
  }

  /** `re.findall(...)[0]` raises exactly when the pattern matches nowhere; otherwise it returns an ARN-shaped text. */
  lemma ArnTextIsMatch(s: string, k: ArnKind)
    ensures ArnText(s, k).None? <==> NoHead(s, k)
    ensures ArnText(s, k).Some? ==> IsArnText(ArnText(s, k).value, k)
  {
    FindArnIsFirstMatch(s, k);
    if FindArn(s, k).Some? {
      MatchTextShape(s, k, FindArn(s, k).value);
    }
  }

  /** No match of the pattern for `k` anywhere in `s`. */
  predicate NoHead(s: string, k: ArnKind) {
    forall m :: 0 <= m <= |s| ==> !HeadAt(s, m, k)
  }

  lemma MatchTextShape(s: string, k: ArnKind, sp: Span)
    requires IsFirstMatch(s, k, sp)
    ensures HeadAt(s[sp.start..sp.end], 0, k) && ',' !in s[sp.start..sp.end]
  {
    var t := s[sp.start..sp.end];
    var h := HeadLength(k);
    SliceOfSlice(s, sp.start, sp.end, h);
    HeadHasNoComma(t[0..h], k);
    forall m | 0 <= m < |t| ensures t[m] != ',' {
      if m < h {
        assert t[m] == t[0..h][m];
      } else {
        assert t[m] == s[sp.start + m];
      }
    }
  }

  lemma SliceOfSlice<T>(s: seq<T>, i: nat, j: nat, h: nat)
    requires i + h <= j <= |s|
    ensures s[i..j][0..h] == s[i..i + h]
  {
  }

  /** A string of the shape the scanner extracts: a head at 0 and no comma. */
  predicate IsArnText(t: string, k: ArnKind) {
    HeadAt(t, 0, k) && ',' !in t
  }

  /** A window of `a + "," + b` without a comma lies wholly in `a` or wholly in `b`. */
  lemma WindowInJoined(a: string, b: string, m: nat, h: nat)
    requires m + h <= |a| + 1 + |b|
    requires forall j :: m <= j < m + h ==> (a + [','] + b)[j] != ','
    ensures m <= |a| ==> m + h <= |a| && (a + [','] + b)[m..m + h] == a[m..m + h]
    ensures m > |a| ==> (a + [','] + b)[m..m + h] == b[m - |a| - 1..m - |a| - 1 + h]
  {
    assert (a + [','] + b)[|a|] == ',';
  }

  /** A head contains no comma, so in `a + "," + b` it lies wholly in `a` or wholly in `b`. */
  lemma HeadInJoined(a: string, b: string, k: ArnKind, m: nat)
    requires HeadAt(a + [','] + b, m, k)
    ensures m <= |a| ==> m + HeadLength(k) <= |a| && HeadAt(a, m, k)
    ensures m > |a| ==> HeadAt(b, m - |a| - 1, k)
  {
    var s := a + [','] + b;
    var w := s[m..m + HeadLength(k)];
    HeadHasNoComma(w, k);
    assert forall j :: m <= j < m + HeadLength(k) ==> s[j] == w[j - m];
    WindowInJoined(a, b, m, HeadLength(k));
  }

  lemma HeadShiftsIntoJoined(a: string, b: string, k: ArnKind, n: nat)
    requires HeadAt(b, n, k)
    ensures HeadAt(a + [','] + b, |a| + 1 + n, k)
  {
    var s := a + [','] + b;
    var m := |a| + 1 + n;
    assert s[m..m + HeadLength(k)] == b[n..n + HeadLength(k)];
  }

  /** The ARN at the front of `a + "," + b` is all of `a`. */
  lemma ArnTextOfLeading(a: string, b: string, k: ArnKind)
    requires IsArnText(a, k)
    ensures ArnText(a + [','] + b, k) == Some(a)
  {
    var s := a + [','] + b;
    var h := HeadLength(k);
    assert s[0..h] == a[0..h];
    assert HeadAt(s, 0, k);
    FindArnIsFirstMatch(s, k);
    var sp := FindArn(s, k).value;
    assert sp.start == 0;
    assert s[|a|] == ',';
    assert forall j :: h <= j < |a| ==> s[j] == a[j];
    assert sp.end == |a|;
    assert s[0..|a|] == a;
  }

  /** When `a` has no match, the ARN found in `a + "," + b` is all of `b`. */
  lemma ArnTextOfTrailing(a: string, b: string, k: ArnKind)
    requires NoHead(a, k) && IsArnText(b, k)
    ensures ArnText(a + [','] + b, k) == Some(b)
  {
    var s := a + [','] + b;
    var start := |a| + 1;
    HeadShiftsIntoJoined(a, b, k, 0);
    FindArnIsFirstMatch(s, k);
    var sp := FindArn(s, k).value;
    if sp.start < start {
      HeadInJoined(a, b, k, sp.start);
      assert false;
    }
    assert sp.start == start;
    assert s[start..|s|] == b;
  }

  /** Index of the last `/` in `s`. */
  function LastSlash(s: string): (r: Option<nat>)
    ensures r.Some? ==> r.value < |s| && s[r.value] == '/'
    ensures r.Some? ==> forall m :: r.value < m < |s| ==> s[m] != '/'
    ensures r.None? ==> forall m :: 0 <= m < |s| ==> s[m] != '/'
  {
    if s == [] then None
    else if s[|s| - 1] == '/' then Some(|s| - 1)
    else LastSlash(s[..|s| - 1])
  }

  /**
   * `arn:aws:iam::(\d{12}):role.*\/([^/]+)$` matches at `p`. Since `[^/]+`
   * cannot cross a `/` and must run to the end, the `/` it follows is the
   * last one; `.*` reaches it only if no newline lies in between; and
   * the role name after it must not be empty.
   */
  predicate RoleNameMatchAt(s: string, p: nat) {
    && p + 30 <= |s|
    && s[p..p + 13] == ARN_PREFIX
    && IsAccountNumber(s[p + 13..p + 25])
    && s[p + 25..p + 30] == ":role"
    && LastSlash(s).Some?
    && p + 30 <= LastSlash(s).value
    && LastSlash(s).value + 1 < |s|
    && '\n' !in s[p + 30..LastSlash(s).value]
  }

  function FirstRoleNameMatchFrom(s: string, p: nat): (r: Option<nat>)
    requires p <= |s|
    ensures r.Some? ==> p <= r.value && RoleNameMatchAt(s, r.value)
    ensures r.Some? ==> forall m :: p <= m < r.value ==> !RoleNameMatchAt(s, m)
    ensures r.None? ==> forall m :: p <= m <= |s| ==> !RoleNameMatchAt(s, m)
    decreases |s| - p
  {
    if RoleNameMatchAt(s, p) then Some(p)
    else if p == |s| then None
    else FirstRoleNameMatchFrom(s, p + 1)
  }

  datatype RoleArnParts = RoleArnParts(account: string, roleName: string)

  /**
   * The two groups of the first match of the role-name pattern in a role
   * ARN: its 12-digit account and the text after its last `/`. `None` where
   * `re.findall(...)[0]` raises.
   */
  function ParseRoleArn(s: string): (r: Option<RoleArnParts>)
    ensures r.None? <==> forall p :: 0 <= p <= |s| ==> !RoleNameMatchAt(s, p)
    ensures r.Some? ==> IsAccountNumber(r.value.account)
    ensures r.Some? ==> |r.value.roleName| > 0 && '/' !in r.value.roleName
    ensures r.Some? ==> |r.value.roleName| < |s| && s[|s| - |r.value.roleName| - 1] == '/'
    ensures r.Some? ==> s[|s| - |r.value.roleName|..] == r.value.roleName
  {
    match FirstRoleNameMatchFrom(s, 0)
    case None => None
    case Some(p) =>
      var l := LastSlash(s).value;
      Some(RoleArnParts(s[p + 13..p + 25], s[l + 1..]))
  }

  /**
   * The account `ParseRoleArn` reports is the 12-digit group of the leftmost
   * match of the pattern.
   */
  lemma ParseRoleArnAccount(s: string)
    ensures ParseRoleArn(s).Some? ==>
      (exists p ::
         && 0 <= p <= |s| && RoleNameMatchAt(s, p)
         && (forall m :: 0 <= m < p ==> !RoleNameMatchAt(s, m))
         && ParseRoleArn(s).value.account == s[p + 13..p + 25])
  {
    if ParseRoleArn(s).Some? {
      var p := FirstRoleNameMatchFrom(s, 0).value;
      assert RoleNameMatchAt(s, p);
    }
  }

  /** A match at the very start gives the account at offsets 13 to 25. */
  lemma MatchAtStartParses(s: string)
    requires FirstRoleNameMatchFrom(s, 0) == Some(0)
    ensures ParseRoleArn(s).Some? && ParseRoleArn(s).value.account == s[13..25]
  {
  }

  /**
   * On a role ARN as the extractor returns it, with no newline before its
   * last `/` (its tail may hold one, since `[^,]*` crosses lines), the parse
   * succeeds exactly when the ARN does not end in `/`, and the account it
   * reports is the one in the ARN's own head.
   */
  lemma ParseExtractedRoleArn(t: string)
    requires IsArnText(t, RoleArn) && LastSlash(t).Some? && '\n' !in t[..LastSlash(t).value]
    ensures ParseRoleArn(t).Some? <==> t[|t| - 1] != '/'
    ensures ParseRoleArn(t).Some? ==> ParseRoleArn(t).value.account == t[13..25]
  {
    assert t[30] == t[25..31][5] == '/';
    var l := LastSlash(t).value;
    assert t[25..30] == t[25..31][..5];
    assert t[13..25] == t[0..31][13..25];
    assert t[0..13] == t[0..31][..13];
    if t[|t| - 1] != '/' {
      assert l + 1 < |t|;
      assert 30 <= l && t[30..l] == t[..l][30..];
      assert RoleNameMatchAt(t, 0);
      assert FirstRoleNameMatchFrom(t, 0) == Some(0);
      MatchAtStartParses(t);
    } else {
      assert l == |t| - 1;
    }
  }
}
