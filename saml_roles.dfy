/**
 * Role extraction from a decoded SAML assertion (`__extract_available_roles_from`
 * in aws_auth.py). The assertion arrives already base64-decoded and parsed:
 * the `Attribute` elements in document order, each with its `Name` and the
 * texts of the `AttributeValue` elements beneath it.
 */
module SamlRoles {
  import opened Wrappers
  import opened ArnScan

  const ROLE_ATTRIBUTE := "https://aws.amazon.com/SAML/Attributes/Role"

  datatype Attribute = Attribute(name: string, values: seq<string>)

  /** The `RoleTuple(principal_arn, role_arn)` namedtuple. */
  datatype RoleEntry = RoleEntry(principalArn: string, roleArn: string)

  /**
   * The `IndexError` raised when a value holds no match for one of the two
   * patterns. The role ARN is searched first, so a value lacking both
   * reports the role ARN.
   */
  datatype ExtractError = MissingArn(kind: ArnKind, value: string)

  /** The values under every attribute called `name`, in document order. */
  function ValuesNamed(attrs: seq<Attribute>, name: string): seq<string> {
    if attrs == [] then []
    else
      var last := attrs[|attrs| - 1];
      ValuesNamed(attrs[..|attrs| - 1], name) + (if last.name == name then last.values else [])
  }

  /** Every value under a role attribute, in document order. */
  function RoleValues(attrs: seq<Attribute>): seq<string> {
    ValuesNamed(attrs, ROLE_ATTRIBUTE)
  }

  /** The pair one attribute value yields, or the error it raises. */
  function EntryOf(v: string): Result<RoleEntry, ExtractError> {
    match ArnText(v, RoleArn)
    case None => Err(MissingArn(RoleArn, v))
    case Some(role) =>
      match ArnText(v, ProviderArn)
      case None => Err(MissingArn(ProviderArn, v))
      case Some(principal) => Ok(RoleEntry(principal, role))
  }

  /** `f` applied to each element in turn: all the results, or the first error. */
  function ParseAll<T, U, E>(xs: seq<T>, f: T -> Result<U, E>): Result<seq<U>, E> {
    if xs == [] then Ok([])
    else
      match ParseAll(xs[..|xs| - 1], f)
      case Err(e) => Err(e)
      case Ok(us) =>
        match f(xs[|xs| - 1])
        case Err(e) => Err(e)
        case Ok(u) => Ok(us + [u])
  }

  /** What `__extract_available_roles_from` returns, or the error it raises. */
  function ExtractRoles(attrs: seq<Attribute>): Result<seq<RoleEntry>, ExtractError> {
    ParseAll(RoleValues(attrs), EntryOf)
  }

  /** The extraction loop: one pass over the attributes, one over each role attribute's values. */
  method ExtractAvailableRoles(attrs: seq<Attribute>) returns (r: Result<seq<RoleEntry>, ExtractError>)
    ensures r == ExtractRoles(attrs)
  {
    var roles: seq<RoleEntry> := [];
    var i := 0;
    while i < |attrs|
      invariant 0 <= i <= |attrs|
      invariant ParseAll(RoleValues(attrs[..i]), EntryOf) == Ok(roles)
    {
      var attr := attrs[i];
      ghost var before := RoleValues(attrs[..i]);
      ValuesNamedSnoc(attrs, i, ROLE_ATTRIBUTE);
      if attr.name == ROLE_ATTRIBUTE {
        assert RoleValues(attrs[..i + 1]) == before + attr.values;
        var j := 0;
        assert before + attr.values[..0] == before;
        while j < |attr.values|
          invariant 0 <= j <= |attr.values|
          invariant ParseAll(before + attr.values[..j], EntryOf) == Ok(roles)
        {
          var value := attr.values[j];
          ghost var done := before + attr.values[..j];
          SnocSlice(before, attr.values, j);
          ParseAllSnoc(done, value, EntryOf);
          var entry := EntryOf(value);
          if entry.Err? {
            ErrorAtValue(attrs, i, j, ROLE_ATTRIBUTE, EntryOf);
            return Err(entry.error);
          }
          roles := roles + [entry.value];
          j := j + 1;
        }
        assert attr.values[..j] == attr.values;
      } else {
        assert RoleValues(attrs[..i + 1]) == before;
      }
      i := i + 1;
    }
    assert attrs[..i] == attrs;
    r := Ok(roles);
  }

  lemma SnocSlice<T>(pre: seq<T>, xs: seq<T>, j: nat)
    requires j < |xs|
    ensures pre + xs[..j + 1] == (pre + xs[..j]) + [xs[j]]
  {
    assert xs[..j + 1] == xs[..j] + [xs[j]];
  }

  lemma ValuesNamedSnoc(attrs: seq<Attribute>, i: nat, name: string)
    requires i < |attrs|
    ensures ValuesNamed(attrs[..i + 1], name) ==
      ValuesNamed(attrs[..i], name) + (if attrs[i].name == name then attrs[i].values else [])
  {
    assert attrs[..i + 1][..i] == attrs[..i];
  }

  lemma ParseAllSnoc<T, U, E>(pre: seq<T>, x: T, f: T -> Result<U, E>)
    requires ParseAll(pre, f).Ok?
    ensures ParseAll(pre + [x], f) ==
      match f(x)
      case Err(e) => Err(e)
      case Ok(u) => Ok(ParseAll(pre, f).value + [u])
  {
    assert (pre + [x])[..|pre|] == pre;
  }

  lemma {:induction false} ValuesNamedAppend(a: seq<Attribute>, b: seq<Attribute>, name: string)
    ensures ValuesNamed(a + b, name) == ValuesNamed(a, name) + ValuesNamed(b, name)
    decreases |b|
  {
    if b == [] {
      assert a + b == a;
    } else {
      var b' := b[..|b| - 1];
      assert (a + b)[..|a + b| - 1] == a + b';
      ValuesNamedAppend(a, b', name);
    }
  }

  lemma ValuesNamedAround(attrs: seq<Attribute>, i: nat, name: string)
    requires i < |attrs|
    ensures ValuesNamed(attrs, name) ==
      ValuesNamed(attrs[..i], name) + (if attrs[i].name == name then attrs[i].values else [])
      + ValuesNamed(attrs[i + 1..], name)
  {
    ValuesNamedAppend(attrs[..i + 1], attrs[i + 1..], name);
    assert attrs[..i + 1] + attrs[i + 1..] == attrs;
    ValuesNamedSnoc(attrs, i, name);
  }

  /** A failing value decides the outcome of the whole extraction. */
  lemma ErrorAtValue<U, E>(attrs: seq<Attribute>, i: nat, j: nat, name: string, f: string -> Result<U, E>)
    requires i < |attrs| && attrs[i].name == name && j < |attrs[i].values|
    requires ParseAll(ValuesNamed(attrs[..i], name) + attrs[i].values[..j + 1], f).Err?
    ensures ParseAll(ValuesNamed(attrs, name), f) ==
      ParseAll(ValuesNamed(attrs[..i], name) + attrs[i].values[..j + 1], f)
  {
    var vs := attrs[i].values;
    var done := ValuesNamed(attrs[..i], name) + vs[..j + 1];
    var rest := vs[j + 1..] + ValuesNamed(attrs[i + 1..], name);
    ValuesNamedAround(attrs, i, name);
    assert vs == vs[..j + 1] + vs[j + 1..];
    assert ValuesNamed(attrs, name) == done + rest;
    ParseAllErrSticks(done, rest, f);
  }

  lemma {:induction false} ParseAllErrSticks<T, U, E>(a: seq<T>, b: seq<T>, f: T -> Result<U, E>)
    requires ParseAll(a, f).Err?
    ensures ParseAll(a + b, f) == ParseAll(a, f)
    decreases |b|
  {
    if b == [] {
      assert a + b == a;
    } else {
      var b' := b[..|b| - 1];
      assert (a + b)[..|a + b| - 1] == a + b';
      ParseAllErrSticks(a, b', f);
    }
  }

  /** `ParseAll` succeeds exactly when `f` succeeds on every element, and then maps `f` over them. */
  lemma {:induction false} ParseAllPointwise<T, U, E>(xs: seq<T>, f: T -> Result<U, E>)
    ensures ParseAll(xs, f).Ok? <==> forall i :: 0 <= i < |xs| ==> f(xs[i]).Ok?
    ensures ParseAll(xs, f).Ok? ==> |ParseAll(xs, f).value| == |xs|
    ensures ParseAll(xs, f).Ok? ==> forall i :: 0 <= i < |xs| ==> Ok(ParseAll(xs, f).value[i]) == f(xs[i])
    decreases |xs|
  {
    if xs != [] {
      var pre := xs[..|xs| - 1];
      ParseAllPointwise(pre, f);
      assert forall i :: 0 <= i < |pre| ==> pre[i] == xs[i];
    }
  }

  /**
   * Extraction yields exactly one pair per value under a role attribute, in
   * document order and with duplicates kept, or fails when some value lacks
   * an ARN.
   */
  lemma ExtractRolesPerValue(attrs: seq<Attribute>)
    ensures ExtractRoles(attrs).Ok? <==>
      forall i :: 0 <= i < |RoleValues(attrs)| ==> EntryOf(RoleValues(attrs)[i]).Ok?
    ensures ExtractRoles(attrs).Ok? ==> |ExtractRoles(attrs).value| == |RoleValues(attrs)|
    ensures ExtractRoles(attrs).Ok? ==> forall i :: 0 <= i < |RoleValues(attrs)| ==>
      Ok(ExtractRoles(attrs).value[i]) == EntryOf(RoleValues(attrs)[i])
  {
    ParseAllPointwise(RoleValues(attrs), EntryOf);
  }

  lemma ValuesNamedSkip(a: seq<Attribute>, x: Attribute, b: seq<Attribute>, name: string)
    requires x.name != name
    ensures ValuesNamed(a + [x] + b, name) == ValuesNamed(a + b, name)
  {
    ValuesNamedAppend(a + [x], b, name);
    ValuesNamedAppend(a, [x], name);
    ValuesNamedAppend(a, b, name);
    assert [x][..0] == [];
    assert ValuesNamed([x], name) == [];
  }

  /** An attribute with another name contributes nothing, wherever it stands. */
  lemma OtherAttributeIgnored(a: seq<Attribute>, x: Attribute, b: seq<Attribute>)
    requires x.name != ROLE_ATTRIBUTE
    ensures ExtractRoles(a + [x] + b) == ExtractRoles(a + b)
  {
    ValuesNamedSkip(a, x, b, ROLE_ATTRIBUTE);
  }

  /** A failing `ParseAll` reports the error of the first element `f` refuses. */
  lemma {:induction false} ParseAllFirstError<T, U, E>(xs: seq<T>, f: T -> Result<U, E>)
    requires ParseAll(xs, f).Err?
    ensures exists i :: (0 <= i < |xs| && f(xs[i]) == Err(ParseAll(xs, f).error)
      && forall j :: 0 <= j < i ==> f(xs[j]).Ok?)
    decreases |xs|
  {
    var pre := xs[..|xs| - 1];
    assert forall j :: 0 <= j < |pre| ==> pre[j] == xs[j];
    if ParseAll(pre, f).Err? {
      ParseAllFirstError(pre, f);
      var i :| 0 <= i < |pre| && f(pre[i]) == Err(ParseAll(pre, f).error) && forall j :: 0 <= j < i ==> f(pre[j]).Ok?;
      assert f(xs[i]) == Err(ParseAll(xs, f).error);
    } else {
      ParseAllPointwise(pre, f);
      assert f(xs[|xs| - 1]) == Err(ParseAll(xs, f).error);
    }
  }

  /**
   * A failed extraction reports the first role attribute value that lacks
   * an ARN, the role ARN being looked for before the principal.
   */
  lemma ExtractFailsAtFirstBadValue(attrs: seq<Attribute>)
    requires ExtractRoles(attrs).Err?
    ensures exists i :: (0 <= i < |RoleValues(attrs)| && EntryOf(RoleValues(attrs)[i]) == Err(ExtractRoles(attrs).error)
      && forall j :: 0 <= j < i ==> EntryOf(RoleValues(attrs)[j]).Ok?)
    ensures var e := ExtractRoles(attrs).error;
      e.kind == RoleArn <==> ArnText(e.value, RoleArn).None?
  {
    ParseAllFirstError(RoleValues(attrs), EntryOf);
  }

  /**
   * Within a value the two ARNs are found by pattern, not by position:
   * role-then-principal and principal-then-role give the same pair.
   */
  lemma EntryOrderIrrelevant(role: string, principal: string)
    requires IsArnText(role, RoleArn) && NoHead(role, ProviderArn)
    requires IsArnText(principal, ProviderArn) && NoHead(principal, RoleArn)
    ensures EntryOf(role + "," + principal) == Ok(RoleEntry(principal, role))
    ensures EntryOf(principal + "," + role) == Ok(RoleEntry(principal, role))
  {
    ArnTextOfLeading(role, principal, RoleArn);
    ArnTextOfTrailing(role, principal, ProviderArn);
    ArnTextOfLeading(principal, role, ProviderArn);
    ArnTextOfTrailing(principal, role, RoleArn);
  }

  /** Every extracted pair has the shape of the two patterns, in the `arn:aws:` partition. */
  lemma ExtractedShapes(attrs: seq<Attribute>, i: nat)
    requires ExtractRoles(attrs).Ok? && i < |ExtractRoles(attrs).value|
    ensures IsArnText(ExtractRoles(attrs).value[i].roleArn, RoleArn)
    ensures IsArnText(ExtractRoles(attrs).value[i].principalArn, ProviderArn)
  {
    ExtractRolesPerValue(attrs);
    var v := RoleValues(attrs)[i];
    ArnTextIsMatch(v, RoleArn);
    ArnTextIsMatch(v, ProviderArn);
  }
}
