/** Checking what a later stage asserts against the stored semantic contract. */
module SemanticAssertions {
  import opened Vocabulary
  import opened Ordering
  import opened CleanText
  import opened SemanticContracts

  /** Dictionaries are listed in their own order. */
  datatype Assertions = Assertions(
    fingerprint: Option<string>,
    protectedValues: seq<(Field, Option<string>)>,
    facts: seq<Fact>,
    claims: seq<string>,
    usedAssets: Option<seq<Asset>>)

  datatype Violation =
    | FingerprintDiffers
    | ScalarChanged(scalar: Scalar, now: Option<string>)
    | FactChanged(fact: Fact, actual: string)
    | ForbiddenClaim(claim: string)
    | AssetMissing(asset: Asset)

  predicate SameMeaning(u: Unicode, expected: Option<string>, actual: Option<string>) {
    match (expected, actual)
    case (None, None) => true
    case (Some(e), Some(a)) => Semantic(u, e) == Semantic(u, a)
    case _ => false
  }

  predicate Forbids(u: Unicode, forbidden: seq<string>, claim: string) {
    exists f :: f in forbidden && Contains(Semantic(u, claim), Semantic(u, f))
  }

  /** An asserted fact gives a required fact another value. */
  predicate Contradicts(u: Unicode, f: Fact, asserted: Fact) {
    Semantic(u, f.name) == Semantic(u, asserted.name) && Semantic(u, f.value) != Semantic(u, asserted.value)
  }

  /** What it is to violate a contract: another fingerprint; a protected value that appeared, disappeared
      or reads otherwise once cleaned and casefolded; a required fact with another value under its name; a
      claim with a forbidden text in it; a required asset that is not used. */
  ghost predicate IsViolation(u: Unicode, c: Contract, a: Assertions, v: Violation)
    requires forall s: Scalar :: s in c.scalars
  {
    match v
    case FingerprintDiffers => a.fingerprint.Some? && a.fingerprint.value != c.fingerprint
    case ScalarChanged(s, actual) =>
      && (Protected(s), actual) in a.protectedValues
      && (|| c.scalars[s].Some? != actual.Some?
          || (c.scalars[s].Some? && actual.Some?
              && u.casefold(Clean(u, c.scalars[s].value)) != u.casefold(Clean(u, actual.value))))
    case FactChanged(f, actual) =>
      && f in c.facts
      && exists g :: g in a.facts && g.value == actual
           && u.casefold(Clean(u, g.name)) == u.casefold(Clean(u, f.name))
           && u.casefold(Clean(u, actual)) != u.casefold(Clean(u, f.value))
    case ForbiddenClaim(claim) =>
      && claim in a.claims
      && exists f :: f in c.forbidden && Contains(u.casefold(Clean(u, claim)), u.casefold(Clean(u, f)))
    case AssetMissing(asset) => a.usedAssets.Some? && asset in c.assets && asset !in a.usedAssets.value
  }

  lemma ViolationMeans(u: Unicode, c: Contract, a: Assertions, v: Violation)
    requires forall s: Scalar :: s in c.scalars
    ensures v.ScalarChanged? ==>
      (IsViolation(u, c, a, v) <==>
        (Protected(v.scalar), v.now) in a.protectedValues && !SameMeaning(u, c.scalars[v.scalar], v.now))
    ensures v.FactChanged? ==> (IsViolation(u, c, a, v) <==> Changed(u, c.facts, a.facts, v))
    ensures v.ForbiddenClaim? ==>
      (IsViolation(u, c, a, v) <==> v.claim in a.claims && Forbids(u, c.forbidden, v.claim))
  {
    hide Clean, Contains;
  }

  // ----- The report -----------------------------------------------------------------------

  predicate AllProtected(values: seq<(Field, Option<string>)>) {
    forall i :: 0 <= i < |values| ==> values[i].0.Protected?
  }

  function ScalarViolations(u: Unicode, scalars: Scalars, values: seq<(Field, Option<string>)>): seq<Violation>
    requires AllProtected(values) && forall s: Scalar :: s in scalars
  {
    if values == [] then []
    else
      var (field, actual) := values[|values| - 1];
      ScalarViolations(u, scalars, values[..|values| - 1])
      + if SameMeaning(u, scalars[field.scalar], actual) then [] else [ScalarChanged(field.scalar, actual)]
  }

  /** The contract's facts by the meaning of their names; a later one replaces an earlier one. */
  function ByName(u: Unicode, facts: seq<Fact>): map<string, Fact> {
    if facts == [] then map[]
    else ByName(u, facts[..|facts| - 1])[Semantic(u, facts[|facts| - 1].name) := facts[|facts| - 1]]
  }

  function FactViolations(u: Unicode, expected: map<string, Fact>, asserted: seq<Fact>): seq<Violation> {
    if asserted == [] then []
    else
      var g := asserted[|asserted| - 1];
      var name := Semantic(u, g.name);
      FactViolations(u, expected, asserted[..|asserted| - 1])
      + if name in expected && Semantic(u, expected[name].value) != Semantic(u, g.value)
        then [FactChanged(expected[name], g.value)] else []
  }

  /** The claims that contain one forbidden text. */
  function ClaimsAgainst(u: Unicode, forbidden: string, claims: seq<string>): seq<Violation> {
    if claims == [] then []
    else
      var claim := claims[|claims| - 1];
      ClaimsAgainst(u, forbidden, claims[..|claims| - 1])
      + if Contains(Semantic(u, claim), Semantic(u, forbidden)) then [ForbiddenClaim(claim)] else []
  }

  function ClaimViolations(u: Unicode, forbidden: seq<string>, claims: seq<string>): seq<Violation> {
    if forbidden == [] then []
    else ClaimViolations(u, forbidden[..|forbidden| - 1], claims) + ClaimsAgainst(u, forbidden[|forbidden| - 1], claims)
  }

  /** The required assets come sorted, so what is missing of them does too. */
  function AssetViolations(required: seq<Asset>, used: seq<Asset>): seq<Violation> {
    var missing := Without(required, Elements(used));
    seq(|missing|, i requires 0 <= i < |missing| => AssetMissing(missing[i]))
  }

  function AllViolations(u: Unicode, c: Contract, a: Assertions): seq<Violation>
    requires AllProtected(a.protectedValues) && forall s: Scalar :: s in c.scalars
  {
    (if a.fingerprint.Some? && a.fingerprint.value != c.fingerprint then [FingerprintDiffers] else [])
    + ScalarViolations(u, c.scalars, a.protectedValues)
    + FactViolations(u, ByName(u, c.facts), a.facts)
    + ClaimViolations(u, c.forbidden, a.claims)
    + (if a.usedAssets.Some? then AssetViolations(c.assets, a.usedAssets.value) else [])
  }

  // ----- What it means --------------------------------------------------------------------

  lemma {:induction false} ScalarViolationsExactly(u: Unicode, scalars: Scalars, values: seq<(Field, Option<string>)>)
    requires AllProtected(values) && forall s: Scalar :: s in scalars
    ensures forall v :: v in ScalarViolations(u, scalars, values) <==>
      v.ScalarChanged? && (Protected(v.scalar), v.now) in values && !SameMeaning(u, scalars[v.scalar], v.now)
  {
    hide SameMeaning;
    if values != [] {
      var init := values[..|values| - 1];
      ScalarViolationsExactly(u, scalars, init);
      assert values == init + [values[|values| - 1]];
    }
  }

  lemma {:induction false} ByNameExactly(u: Unicode, facts: seq<Fact>)
    requires NoTies(FactKey(u), Elements(facts))
    ensures forall k, f :: (k in ByName(u, facts) && ByName(u, facts)[k] == f) <==>
      (f in facts && Semantic(u, f.name) == k)
  {
    hide Semantic;
    if facts != [] {
      var init, last := facts[..|facts| - 1], facts[|facts| - 1];
      assert facts == init + [last];
      forall f ensures f in init ==> f in Elements(facts) {
      }
      ByNameExactly(u, init);
      forall f | f in init && FactKey(u)(f) == FactKey(u)(last) ensures f == last {
        assert f in Elements(facts) && last in Elements(facts);
      }
    }
  }

  ghost predicate Changed(u: Unicode, facts: seq<Fact>, asserted: seq<Fact>, v: Violation) {
    v.FactChanged? && v.fact in facts && exists g :: g in asserted && g.value == v.actual && Contradicts(u, v.fact, g)
  }

  lemma {:induction false} FactViolationsExactly(u: Unicode, facts: seq<Fact>, asserted: seq<Fact>)
    requires NoTies(FactKey(u), Elements(facts))
    ensures forall v :: v in FactViolations(u, ByName(u, facts), asserted) <==> Changed(u, facts, asserted, v)
  {
    hide Semantic, NoTies, ByName;
    if asserted != [] {
      var init, g := asserted[..|asserted| - 1], asserted[|asserted| - 1];
      FactViolationsExactly(u, facts, init);
      assert asserted == init + [g];
      ByNameExactly(u, facts);
      var expected, name := ByName(u, facts), Semantic(u, g.name);
      forall f | f in facts && Semantic(u, f.name) == name ensures name in expected && expected[name] == f {
      }
      if name in expected {
        assert Contradicts(u, expected[name], g) <==> Semantic(u, expected[name].value) != Semantic(u, g.value);
      }
    }
  }

  lemma {:induction false} ClaimsAgainstExactly(u: Unicode, forbidden: string, claims: seq<string>)
    ensures forall v :: v in ClaimsAgainst(u, forbidden, claims) <==>
      v.ForbiddenClaim? && v.claim in claims && Contains(Semantic(u, v.claim), Semantic(u, forbidden))
  {
    hide Semantic, Contains;
    if claims != [] {
      ClaimsAgainstExactly(u, forbidden, claims[..|claims| - 1]);
      assert claims == claims[..|claims| - 1] + [claims[|claims| - 1]];
    }
  }

  lemma {:induction false} ClaimViolationsExactly(u: Unicode, forbidden: seq<string>, claims: seq<string>)
    ensures forall v :: v in ClaimViolations(u, forbidden, claims) <==>
      v.ForbiddenClaim? && v.claim in claims && Forbids(u, forbidden, v.claim)
  {
    hide Semantic, Contains, ClaimsAgainst;
    if forbidden != [] {
      var init, last := forbidden[..|forbidden| - 1], forbidden[|forbidden| - 1];
      ClaimViolationsExactly(u, init, claims);
      ClaimsAgainstExactly(u, last, claims);
      assert forbidden == init + [last];
    }
  }

  lemma AssetViolationsExactly(required: seq<Asset>, used: seq<Asset>)
    ensures forall v :: v in AssetViolations(required, used) <==>
      v.AssetMissing? && v.asset in required && v.asset !in used
  {
    var missing := Without(required, Elements(used));
    forall x ensures x in missing <==> x in required && x !in used {
      assert x in missing <==> x in Elements(missing);
    }
    forall i | 0 <= i < |missing| ensures AssetViolations(required, used)[i] == AssetMissing(missing[i]) {
    }
  }

  /** The report lists every violation of a contract and nothing else. */
  lemma ViolationsExactly(u: Unicode, c: Contract, a: Assertions, v: Violation)
    requires AllProtected(a.protectedValues) && forall s: Scalar :: s in c.scalars
    requires NoTies(FactKey(u), Elements(c.facts))
    ensures v in AllViolations(u, c, a) <==> IsViolation(u, c, a, v)
  {
    hide NoTies, Forbids, Contradicts, SameMeaning, ScalarViolations, FactViolations, ClaimViolations, AssetViolations;
    hide ByName;
    ScalarViolationsExactly(u, c.scalars, a.protectedValues);
    FactViolationsExactly(u, c.facts, a.facts);
    ClaimViolationsExactly(u, c.forbidden, a.claims);
    ViolationMeans(u, c, a, v);
    if a.usedAssets.Some? {
      AssetViolationsExactly(c.assets, a.usedAssets.value);
    }
  }

  // ----- How it is made -------------------------------------------------------------------

  method ChangedScalars(u: Unicode, scalars: Scalars, values: seq<(Field, Option<string>)>)
    returns (r: Result<seq<Violation>, Field>)
    requires forall s: Scalar :: s in scalars
    ensures r.Success? <==> AllProtected(values)
    ensures r.Success? ==> r.value == ScalarViolations(u, scalars, values)
    ensures r.Failure? ==>
      !r.error.Protected? && exists i :: 0 <= i < |values| && values[i].0 == r.error && AllProtected(values[..i])
  {
    hide SameMeaning;
    var found: seq<Violation> := [];
    for i := 0 to |values|
      invariant AllProtected(values[..i]) && found == ScalarViolations(u, scalars, values[..i])
    {
      var (field, actual) := values[i];
      if !field.Protected? {
        return Failure(field);
      }
      assert values[..i + 1][..i] == values[..i];
      if !SameMeaning(u, scalars[field.scalar], actual) {
        found := found + [ScalarChanged(field.scalar, actual)];
      }
    }
    assert values[..|values|] == values;
    r := Success(found);
  }

  method ChangedFacts(u: Unicode, facts: seq<Fact>, asserted: seq<Fact>) returns (found: seq<Violation>)
    ensures found == FactViolations(u, ByName(u, facts), asserted)
  {
    hide Semantic;
    var expected: map<string, Fact> := map[];
    for i := 0 to |facts|
      invariant expected == ByName(u, facts[..i])
    {
      assert facts[..i + 1][..i] == facts[..i];
      expected := expected[Semantic(u, facts[i].name) := facts[i]];
    }
    assert facts[..|facts|] == facts;
    found := [];
    for i := 0 to |asserted|
      invariant found == FactViolations(u, expected, asserted[..i])
    {
      assert asserted[..i + 1][..i] == asserted[..i];
      var name := Semantic(u, asserted[i].name);
      if name in expected && Semantic(u, expected[name].value) != Semantic(u, asserted[i].value) {
        found := found + [FactChanged(expected[name], asserted[i].value)];
      }
    }
    assert asserted[..|asserted|] == asserted;
  }

  method ForbiddenClaims(u: Unicode, forbidden: seq<string>, claims: seq<string>) returns (found: seq<Violation>)
    ensures found == ClaimViolations(u, forbidden, claims)
  {
    hide Semantic, Contains;
    found := [];
    for i := 0 to |forbidden|
      invariant found == ClaimViolations(u, forbidden[..i], claims)
    {
      ghost var before := found;
      for j := 0 to |claims|
        invariant found == before + ClaimsAgainst(u, forbidden[i], claims[..j])
      {
        assert claims[..j + 1][..j] == claims[..j];
        if Contains(Semantic(u, claims[j]), Semantic(u, forbidden[i])) {
          found := found + [ForbiddenClaim(claims[j])];
        }
      }
      assert claims[..|claims|] == claims;
      assert forbidden[..i + 1][..i] == forbidden[..i];
    }
    assert forbidden[..|forbidden|] == forbidden;
  }

  method MissingAssets(required: seq<Asset>, used: seq<Asset>) returns (found: seq<Violation>)
    ensures found == AssetViolations(required, used)
  {
    var missing := Without(required, Elements(used));
    found := [];
    for i := 0 to |missing|
      invariant |found| == i && forall k :: 0 <= k < i ==> found[k] == AssetMissing(missing[k])
    {
      found := found + [AssetMissing(missing[i])];
    }
  }

  /** semantic_contract_violations: the violations in their order, unless a protected value names an
      unknown field. */
  method Violations(u: Unicode, c: Contract, a: Assertions) returns (r: Result<seq<Violation>, Field>)
    requires forall s: Scalar :: s in c.scalars
    ensures r.Success? <==> AllProtected(a.protectedValues)
    ensures r.Success? ==> r.value == AllViolations(u, c, a)
  {
    hide SameMeaning, ScalarViolations, FactViolations, ClaimViolations, AssetViolations, ByName, AllProtected;
    var found := if a.fingerprint.Some? && a.fingerprint.value != c.fingerprint then [FingerprintDiffers] else [];
    var scalars := ChangedScalars(u, c.scalars, a.protectedValues);
    if scalars.Failure? {
      return Failure(scalars.error);
    }
    var facts := ChangedFacts(u, c.facts, a.facts);
    var claims := ForbiddenClaims(u, c.forbidden, a.claims);
    var assets: seq<Violation> := [];
    if a.usedAssets.Some? {
      assets := MissingAssets(c.assets, a.usedAssets.value);
    }
    r := Success(found + scalars.value + facts + claims + assets);
  }
}
