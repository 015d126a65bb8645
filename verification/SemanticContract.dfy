/** The write-once semantic contract: its canonical form, its fingerprint, its stored dictionary, and
    the assertions it is checked against. */
module SemanticContracts {
  import opened Vocabulary
  import opened Ordering
  import opened CleanText

  datatype Scalar =
    | Company
    | Brand
    | Product
    | PrimaryEntity
    | Goal
    | Audience
    | Market
    | Location
    | Offer
    | CtaIntent
    | Platform
    | Language

  /** PROTECTED_SCALAR_FIELDS. */
  const SCALAR_NAMES: seq<Scalar> :=
    [Company, Brand, Product, PrimaryEntity, Goal, Audience, Market, Location, Offer, CtaIntent, Platform, Language]

  datatype Field =
    | Protected(scalar: Scalar)
    | RequiredFacts
    | ForbiddenClaims
    | RequiredAssets
    | Constraints
    | Fingerprint
    | ContractVersion
    | OtherField(name: string)

  datatype Json = Null | Number(n: int) | Text(s: string) | Texts(items: seq<string>)
      | Object(members: map<string, string>)

  type Stored = map<Field, Json>

  /** A UUID. */
  datatype Asset = Asset(id: nat)

  type Scalars = map<Scalar, Option<string>>

  datatype Fact = Fact(name: string, value: string)

  /** The arguments of create. */
  datatype Draft = Draft(
    scalars: Scalars,
    facts: map<string, string>,
    forbidden: seq<string>,
    assets: seq<Asset>,
    constraints: seq<string>)

  datatype Contract = Contract(
    scalars: Scalars,
    facts: seq<Fact>,
    forbidden: seq<string>,
    assets: seq<Asset>,
    constraints: seq<string>,
    fingerprint: string,
    version: int)

  datatype Error =
    | TooMany(field: Field)
    | Blank(field: Field)
    | TooLong(field: Field)
    | NotText(field: Field)
    | DuplicateFact(name: string)
    | InvalidShape
    | UnsupportedVersion
    | Malformed(field: Field)
    | InvalidFingerprint

  /** The functions of the standard library that the contract rests on. */
  datatype Library = Library(
    unicode: Unicode,
    digest: Stored -> string,
    assetText: Asset -> string,
    assetParsed: string -> Option<Asset>)

  ghost predicate Sound(lib: Library) {
    Lawful(lib.unicode) && forall a :: lib.assetParsed(lib.assetText(a)) == Some(a)
  }

  ghost predicate CollisionFree(lib: Library) {
    forall v, w :: lib.digest(v) == lib.digest(w) ==> v == w
  }

  /** The orders in which one call happens to iterate a dictionary and three sets. */
  datatype Iteration = Iteration(
    facts: seq<string>, forbidden: seq<string>, assets: seq<Asset>, constraints: seq<string>)

  function CleanedSet(u: Unicode, values: seq<string>): set<string> {
    set v | v in values :: Clean(u, v)
  }

  ghost predicate Fits(lib: Library, d: Draft, it: Iteration) {
    && (forall s: Scalar :: s in d.scalars)
    && Arranges(it.facts, d.facts.Keys)
    && Arranges(it.forbidden, CleanedSet(lib.unicode, d.forbidden))
    && Arranges(it.assets, Elements(d.assets))
    && Arranges(it.constraints, CleanedSet(lib.unicode, d.constraints))
  }

  // ----- Texts and lists ------------------------------------------------------------------

  /** _required_text's complaint. */
  function TextError(u: Unicode, field: Field, value: string, limit: nat): (e: Option<Error>)
    ensures e == None <==> 1 <= |Clean(u, value)| <= limit
    ensures e == Some(Blank(field)) <==> |Clean(u, value)| == 0
  {
    if Clean(u, value) == "" then Some(Blank(field))
    else if |Clean(u, value)| > limit then Some(TooLong(field))
    else None
  }

  predicate IsRequired(s: Scalar) {
    s in {PrimaryEntity, Goal, Audience, CtaIntent, Platform, Language}
  }

  function LimitOf(s: Scalar): nat {
    if s in {Platform, Language} then 100 else 500
  }

  function ScalarError(u: Unicode, s: Scalar, value: Option<string>): Option<Error> {
    match value
    case None => if IsRequired(s) then Some(NotText(Protected(s))) else None
    case Some(text) =>
      if !IsRequired(s) && Clean(u, text) == "" then None else TextError(u, Protected(s), text, LimitOf(s))
  }

  function NormalScalar(u: Unicode, s: Scalar, value: Option<string>): Option<string> {
    if value.None? || (!IsRequired(s) && Clean(u, value.value) == "") then None else Some(Clean(u, value.value))
  }

  function ScalarsError(u: Unicode, scalars: Scalars, names: seq<Scalar>): (r: Option<Error>)
    requires forall s :: s in names ==> s in scalars
    ensures r.None? <==> forall s :: s in names ==> ScalarError(u, s, scalars[s]).None?
  {
    if names == [] then None
    else
      var first := ScalarError(u, names[0], scalars[names[0]]);
      assert names == [names[0]] + names[1..];
      if first.Some? then first else ScalarsError(u, scalars, names[1..])
  }

  function NormalScalars(u: Unicode, scalars: Scalars): Scalars {
    map s | s in scalars :: NormalScalar(u, s, scalars[s])
  }

  function ListError(u: Unicode, field: Field, values: seq<string>): (r: Option<Error>)
    ensures r.None? <==> forall v :: v in values ==> TextError(u, field, v, 500).None?
  {
    if values == [] then None
    else
      var first := TextError(u, field, values[0], 500);
      assert values == [values[0]] + values[1..];
      if first.Some? then first else ListError(u, field, values[1..])
  }

  function TextKey(u: Unicode): string -> string {
    (v: string) => Semantic(u, v)
  }

  function FactKey(u: Unicode): Fact -> string {
    (f: Fact) => Semantic(u, f.name)
  }

  /** _string_list, given the order in which the set of clean values is iterated. */
  function StringList(u: Unicode, field: Field, values: seq<string>, order: seq<string>): Result<seq<string>, Error> {
    if |values| > 100 then Failure(TooMany(field))
    else
      match ListError(u, field, values)
      case Some(e) => Failure(e)
      case None => Success(Sort(TextKey(u), order))
  }

  // ----- Facts ----------------------------------------------------------------------------

  function CleanFact(u: Unicode, name: string, value: string): Fact {
    Fact(Clean(u, name), Clean(u, value))
  }

  function FactError(u: Unicode, rows: seq<Fact>, name: string, value: string): Option<Error> {
    var nameError := TextError(u, RequiredFacts, name, 100);
    if nameError.Some? then nameError
    else if exists i :: 0 <= i < |rows| && FactKey(u)(rows[i]) == Semantic(u, Clean(u, name))
    then Some(DuplicateFact(Clean(u, name)))
    else TextError(u, RequiredFacts, value, 500)
  }

  /** The rows of normalized_facts after some of the facts, in insertion order. */
  function FactRows(u: Unicode, facts: map<string, string>, names: seq<string>): Result<seq<Fact>, Error>
    requires forall n :: n in names ==> n in facts
  {
    if names == [] then Success([])
    else
      var name := names[|names| - 1];
      match FactRows(u, facts, names[..|names| - 1])
      case Failure(e) => Failure(e)
      case Success(rows) =>
        match FactError(u, rows, name, facts[name])
        case Some(e) => Failure(e)
        case None => Success(rows + [CleanFact(u, name, facts[name])])
  }

  lemma {:induction false} FailureStays(u: Unicode, facts: map<string, string>, names: seq<string>, n: nat)
    requires n <= |names| && forall n :: n in names ==> n in facts
    requires FactRows(u, facts, names[..n]).Failure?
    ensures FactRows(u, facts, names) == FactRows(u, facts, names[..n])
    decreases |names|
  {
    if n < |names| {
      assert names[..|names| - 1][..n] == names[..n];
      FailureStays(u, facts, names[..|names| - 1], n);
    } else {
      assert names[..n] == names;
    }
  }

  /** The loop of create that fills normalized_facts. */
  method NormalizeFacts(u: Unicode, facts: map<string, string>,
                        names: seq<string>) returns (r: Result<seq<Fact>, Error>)
    requires forall n :: n in names ==> n in facts
    ensures r == FactRows(u, facts, names)
  {
    var rows: seq<Fact> := [];
    for i := 0 to |names|
      invariant FactRows(u, facts, names[..i]) == Success(rows)
    {
      assert names[..i + 1][..i] == names[..i];
      var name := names[i];
      assert name in names;
      var error := FactError(u, rows, name, facts[name]);
      if error.Some? {
        FailureStays(u, facts, names, i + 1);
        return Failure(error.value);
      }
      rows := rows + [CleanFact(u, name, facts[name])];
    }
    assert names[..|names|] == names;
    r := Success(rows);
  }

  function CleanFacts(u: Unicode, facts: map<string, string>, names: seq<string>): seq<Fact>
    requires forall n :: n in names ==> n in facts
  {
    seq(|names|, i requires 0 <= i < |names| => assert names[i] in names; CleanFact(u, names[i], facts[names[i]]))
  }

  predicate FactFits(u: Unicode, name: string, value: string) {
    TextError(u, RequiredFacts, name, 100).None? && TextError(u, RequiredFacts, value, 500).None?
  }

  /** No two of the names mean the same. */
  predicate NamesDiffer(u: Unicode, names: seq<string>) {
    forall i, j :: 0 <= i < j < |names| ==> Semantic(u, Clean(u, names[i])) != Semantic(u, Clean(u, names[j]))
  }

  /** The facts pass exactly when each fits and no two names mean the same; the rows are then their
      clean forms. */
  lemma {:induction false} FactRowsExactly(u: Unicode, facts: map<string, string>, names: seq<string>)
    requires forall n :: n in names ==> n in facts
    ensures FactRows(u, facts, names).Success? <==>
      NamesDiffer(u, names) && forall n :: n in names ==> FactFits(u, n, facts[n])
    ensures FactRows(u, facts, names).Success? ==> FactRows(u, facts, names).value == CleanFacts(u, facts, names)
  {
    hide Clean, Semantic, FactKey, NamesDiffer, CleanFacts, CleanFact, TextError;
    if names == [] {
      NothingDiffers(u, facts);
    } else {
      var init, name := names[..|names| - 1], names[|names| - 1];
      FactRowsExactly(u, facts, init);
      assert names == init + [name];
      NewName(u, facts, init, name);
      CleanFactsGrow(u, facts, init, name);
    }
  }

  lemma NothingDiffers(u: Unicode, facts: map<string, string>)
    ensures NamesDiffer(u, []) && CleanFacts(u, facts, []) == []
  {
  }

  /** A further name is new exactly when no row so far means the same. */
  lemma NewName(u: Unicode, facts: map<string, string>, names: seq<string>, name: string)
    requires forall n :: n in names ==> n in facts
    ensures
      var rows := CleanFacts(u, facts, names);
      NamesDiffer(u, names + [name]) <==>
        NamesDiffer(u, names) && forall i :: 0 <= i < |rows| ==> FactKey(u)(rows[i]) != Semantic(u, Clean(u, name))
  {
    hide Clean, Semantic;
    var rows, more := CleanFacts(u, facts, names), names + [name];
    forall i | 0 <= i < |names| ensures FactKey(u)(rows[i]) == Semantic(u, Clean(u, more[i])) && more[i] == names[i] {
      assert names[i] in names;
    }
    assert more[|names|] == name;
    if NamesDiffer(u, more) {
      forall i, j | 0 <= i < j < |names| ensures Semantic(u, Clean(u, names[i])) != Semantic(u, Clean(u, names[j])) {
        assert more[i] == names[i] && more[j] == names[j];
      }
      forall i | 0 <= i < |rows| ensures FactKey(u)(rows[i]) != Semantic(u, Clean(u, name)) {
        assert Semantic(u, Clean(u, more[i])) != Semantic(u, Clean(u, more[|names|]));
      }
    }
  }

  lemma CleanFactsGrow(u: Unicode, facts: map<string, string>, names: seq<string>, name: string)
    requires name in facts && forall n :: n in names ==> n in facts
    ensures CleanFacts(u, facts, names + [name]) == CleanFacts(u, facts, names) + [CleanFact(u, name, facts[name])]
  {
    hide CleanFact;
    forall i | 0 <= i < |names| ensures (names + [name])[i] == names[i] && names[i] in names {
    }
  }

  // ----- Creation -------------------------------------------------------------------------

  function AssetKey(lib: Library): Asset -> string {
    lib.assetText
  }

  function AssetTexts(lib: Library, assets: seq<Asset>): seq<string> {
    seq(|assets|, i requires 0 <= i < |assets| => lib.assetText(assets[i]))
  }

  /** dict(facts). */
  function FactMap(facts: seq<Fact>): (m: map<string, string>)
    ensures |m| <= |facts|
  {
    if facts == [] then map[] else FactMap(facts[..|facts| - 1])[facts[|facts| - 1].name := facts[|facts| - 1].value]
  }

  function ScalarJson(value: Option<string>): Json {
    match value
    case None => Null
    case Some(s) => Text(s)
  }

  function ScalarFields(scalars: Scalars): (r: Stored)
    ensures forall f :: f in r <==> f.Protected? && f.scalar in scalars
    ensures forall s :: s in scalars ==> r[Protected(s)] == ScalarJson(scalars[s])
  {
    map s | s in scalars :: Protected(s) := ScalarJson(scalars[s])
  }

  /** The dictionary that is fingerprinted. */
  function Body(lib: Library, scalars: Scalars, facts: seq<Fact>, forbidden: seq<string>, assets: seq<Asset>,
                constraints: seq<string>, version: int): Stored
  {
    ScalarFields(scalars) +
    map[
      RequiredFacts := Object(FactMap(facts)),
      ForbiddenClaims := Texts(forbidden),
      RequiredAssets := Texts(AssetTexts(lib, assets)),
      Constraints := Texts(constraints),
      ContractVersion := Number(version)
    ]
  }

  function Assembled(lib: Library, scalars: Scalars, facts: seq<Fact>, forbidden: seq<string>, assets: seq<Asset>,
                     constraints: seq<string>): Contract
  {
    Contract(scalars, facts, forbidden, assets, constraints,
             lib.digest(Body(lib, scalars, facts, forbidden, assets, constraints, 1)), 1)
  }

  /** PostSemanticContract.create. */
  function Create(lib: Library, d: Draft, it: Iteration): Result<Contract, Error>
    requires Fits(lib, d, it)
  {
    var u := lib.unicode;
    if |d.facts| > 100 then Failure(TooMany(RequiredFacts))
    else
      assert forall n :: n in it.facts ==> n in Elements(it.facts);
      match FactRows(u, d.facts, it.facts)
      case Failure(e) => Failure(e)
      case Success(rows) =>
        var facts := Sort(FactKey(u), rows);
        var assets := Sort(AssetKey(lib), it.assets);
        if |assets| > 100 then Failure(TooMany(RequiredAssets))
        else
          match ScalarsError(u, d.scalars, SCALAR_NAMES)
          case Some(e) => Failure(e)
          case None =>
            match StringList(u, ForbiddenClaims, d.forbidden, it.forbidden)
            case Failure(e) => Failure(e)
            case Success(forbidden) =>
              match StringList(u, Constraints, d.constraints, it.constraints)
              case Failure(e) => Failure(e)
              case Success(constraints) =>
                Success(Assembled(lib, NormalScalars(u, d.scalars), facts, forbidden, assets, constraints))
  }

  predicate ListAccepted(u: Unicode, field: Field, values: seq<string>) {
    |values| <= 100 && forall v :: v in values ==> TextError(u, field, v, 500).None?
  }

  ghost predicate FactsAccepted(u: Unicode, facts: map<string, string>) {
    && |facts| <= 100
    && (forall n :: n in facts ==> FactFits(u, n, facts[n]))
    && (forall m, n :: m in facts && n in facts && Semantic(u, Clean(u, m)) == Semantic(u, Clean(u, n)) ==> m == n)
  }

  predicate ScalarsAccepted(u: Unicode, scalars: Scalars) {
    forall s :: s in scalars ==> ScalarError(u, s, scalars[s]).None?
  }

  ghost predicate Acceptable(lib: Library, d: Draft) {
    && FactsAccepted(lib.unicode, d.facts)
    && |Elements(d.assets)| <= 100
    && ScalarsAccepted(lib.unicode, d.scalars)
    && ListAccepted(lib.unicode, ForbiddenClaims, d.forbidden)
    && ListAccepted(lib.unicode, Constraints, d.constraints)
  }

  /** The contract of an acceptable draft. */
  function Built(lib: Library, d: Draft, it: Iteration): Contract
    requires Fits(lib, d, it)
  {
    var u := lib.unicode;
    assert forall n :: n in it.facts ==> n in Elements(it.facts);
    Assembled(lib, NormalScalars(u, d.scalars),
              Sort(FactKey(u), CleanFacts(u, d.facts, it.facts)),
              Sort(TextKey(u), it.forbidden),
              Sort(AssetKey(lib), it.assets),
              Sort(TextKey(u), it.constraints))
  }

  lemma AllScalarsNamed(s: Scalar)
    ensures s in SCALAR_NAMES
  {
    match s
    case Company => assert SCALAR_NAMES[0] == s;
    case Brand => assert SCALAR_NAMES[1] == s;
    case Product => assert SCALAR_NAMES[2] == s;
    case PrimaryEntity => assert SCALAR_NAMES[3] == s;
    case Goal => assert SCALAR_NAMES[4] == s;
    case Audience => assert SCALAR_NAMES[5] == s;
    case Market => assert SCALAR_NAMES[6] == s;
    case Location => assert SCALAR_NAMES[7] == s;
    case Offer => assert SCALAR_NAMES[8] == s;
    case CtaIntent => assert SCALAR_NAMES[9] == s;
    case Platform => assert SCALAR_NAMES[10] == s;
    case Language => assert SCALAR_NAMES[11] == s;
  }

  lemma FactsAcceptedExactly(u: Unicode, facts: map<string, string>, names: seq<string>)
    requires Arranges(names, facts.Keys) && |facts| <= 100
    ensures forall n :: n in names <==> n in facts
    ensures FactsAccepted(u, facts) <==> FactRows(u, facts, names).Success?
    ensures FactsAccepted(u, facts) ==> FactRows(u, facts, names).value == CleanFacts(u, facts, names)
  {
    hide FactFits, Semantic, Clean, CleanFacts;
    forall n ensures n in names <==> n in facts {
      assert n in names <==> n in Elements(names);
    }
    FactRowsExactly(u, facts, names);
    if NamesDiffer(u, names) {
      forall m, n | m in facts && n in facts && Semantic(u, Clean(u, m)) == Semantic(u, Clean(u, n)) ensures m == n {
        var i :| 0 <= i < |names| && names[i] == m;
        var j :| 0 <= j < |names| && names[j] == n;
        assert !(i < j) && !(j < i);
      }
    }
  }

  /** What create demands of a draft: six fields given, texts that are neither blank nor too long, lists
      that are not too long, and no two fact names that mean the same. */
  ghost predicate WithinLimits(lib: Library, d: Draft)
    requires forall s: Scalar :: s in d.scalars
  {
    var u := lib.unicode;
    && |d.facts| <= 100 && |d.forbidden| <= 100 && |d.constraints| <= 100 && |Elements(d.assets)| <= 100
    && (forall s: Scalar :: s in {PrimaryEntity, Goal, Audience, CtaIntent, Platform, Language} ==>
          d.scalars[s].Some? && Clean(u, d.scalars[s].value) != "")
    && (forall s: Scalar :: d.scalars[s].Some? ==>
          |Clean(u, d.scalars[s].value)| <= if s == Platform || s == Language then 100 else 500)
    && (forall n :: n in d.facts ==> 1 <= |Clean(u, n)| <= 100 && 1 <= |Clean(u, d.facts[n])| <= 500)
    && (forall m, n :: m in d.facts && n in d.facts && m != n ==>
          u.casefold(Clean(u, Clean(u, m))) != u.casefold(Clean(u, Clean(u, n))))
    && (forall v :: v in d.forbidden || v in d.constraints ==> 1 <= |Clean(u, v)| <= 500)
  }

  lemma LimitsExactly(lib: Library, d: Draft)
    requires forall s: Scalar :: s in d.scalars
    ensures Acceptable(lib, d) <==> WithinLimits(lib, d)
  {
    hide Clean, ScalarsAccepted, FactsAccepted, ListAccepted;
    ScalarLimits(lib.unicode, d.scalars);
    FactLimits(lib.unicode, d.facts);
    ListLimits(lib.unicode, ForbiddenClaims, d.forbidden);
    ListLimits(lib.unicode, Constraints, d.constraints);
  }

  lemma FactLimits(u: Unicode, facts: map<string, string>)
    ensures FactsAccepted(u, facts) <==>
      && |facts| <= 100
      && (forall n :: n in facts ==> 1 <= |Clean(u, n)| <= 100 && 1 <= |Clean(u, facts[n])| <= 500)
      && forall m, n :: m in facts && n in facts && m != n ==>
           u.casefold(Clean(u, Clean(u, m))) != u.casefold(Clean(u, Clean(u, n)))
  {
    hide Clean;
  }

  lemma ListLimits(u: Unicode, field: Field, values: seq<string>)
    ensures ListAccepted(u, field, values) <==>
      |values| <= 100 && forall v :: v in values ==> 1 <= |Clean(u, v)| <= 500
  {
    hide Clean;
  }

  lemma ScalarLimits(u: Unicode, scalars: Scalars)
    requires forall s: Scalar :: s in scalars
    ensures ScalarsAccepted(u, scalars) <==>
      && (forall s: Scalar :: s in {PrimaryEntity, Goal, Audience, CtaIntent, Platform, Language} ==>
            scalars[s].Some? && Clean(u, scalars[s].value) != "")
      && (forall s: Scalar :: scalars[s].Some? ==>
            |Clean(u, scalars[s].value)| <= if s == Platform || s == Language then 100 else 500)
  {
    hide Clean, ScalarError;
    forall s: Scalar
      ensures ScalarError(u, s, scalars[s]).None? <==>
        && (s in {PrimaryEntity, Goal, Audience, CtaIntent, Platform, Language} ==>
              scalars[s].Some? && Clean(u, scalars[s].value) != "")
        && (scalars[s].Some? ==>
              |Clean(u, scalars[s].value)| <= if s == Platform || s == Language then 100 else 500)
    {
      ScalarLimit(u, s, scalars[s]);
    }
  }

  lemma ScalarLimit(u: Unicode, s: Scalar, value: Option<string>)
    ensures ScalarError(u, s, value).None? <==>
      && (s in {PrimaryEntity, Goal, Audience, CtaIntent, Platform, Language} ==>
            value.Some? && Clean(u, value.value) != "")
      && (value.Some? ==> |Clean(u, value.value)| <= if s == Platform || s == Language then 100 else 500)
  {
    hide Clean;
  }

  /** Creation succeeds exactly within these limits, in every order of iteration. */
  lemma CreateExactly(lib: Library, d: Draft, it: Iteration)
    requires Fits(lib, d, it)
    ensures Create(lib, d, it).Success? <==> WithinLimits(lib, d)
    ensures Create(lib, d, it).Success? <==> Acceptable(lib, d)
    ensures Acceptable(lib, d) ==> Create(lib, d, it) == Success(Built(lib, d, it))
  {
    LimitsExactly(lib, d);
    hide WithinLimits;
    hide Assembled, ScalarError, TextError, Clean, FactsAccepted, CleanFacts, FactRows, Sort, CleanedSet, NormalScalars;
    if |d.facts| <= 100 {
      FactsAcceptedExactly(lib.unicode, d.facts, it.facts);
      SortArranges(AssetKey(lib), it.assets, Elements(d.assets));
      forall s | s in d.scalars ensures s in SCALAR_NAMES {
        AllScalarsNamed(s);
      }
    } else {
      TooManyFacts(lib.unicode, d.facts);
    }
  }

  lemma TooManyFacts(u: Unicode, facts: map<string, string>)
    requires |facts| > 100
    ensures !FactsAccepted(u, facts)
  {
  }

  // ----- What a contract means ------------------------------------------------------------

  datatype Meaning = Meaning(
    scalars: Scalars,
    facts: set<Fact>,
    forbidden: set<string>,
    assets: set<Asset>,
    constraints: set<string>)

  function CleanFactSet(u: Unicode, facts: map<string, string>): set<Fact> {
    set n | n in facts :: CleanFact(u, n, facts[n])
  }

  function MeaningOf(lib: Library, d: Draft): Meaning {
    Meaning(NormalScalars(lib.unicode, d.scalars), CleanFactSet(lib.unicode, d.facts),
            CleanedSet(lib.unicode, d.forbidden), Elements(d.assets), CleanedSet(lib.unicode, d.constraints))
  }

  function MeaningIn(c: Contract): Meaning {
    Meaning(c.scalars, Elements(c.facts), Elements(c.forbidden), Elements(c.assets), Elements(c.constraints))
  }

  /** No two values of the list have different clean forms with one casefolded form. */
  predicate ListTieFree(u: Unicode, values: seq<string>) {
    forall v, w :: v in values && w in values && u.casefold(Clean(u, v)) == u.casefold(Clean(u, w)) ==>
      Clean(u, v) == Clean(u, w)
  }

  predicate NoListTies(lib: Library, d: Draft) {
    ListTieFree(lib.unicode, d.forbidden) && ListTieFree(lib.unicode, d.constraints)
  }

  lemma TieFreeExactly(u: Unicode, values: seq<string>)
    requires Lawful(u)
    ensures ListTieFree(u, values) <==> NoTies(TextKey(u), CleanedSet(u, values))
  {
    hide Clean, Lawful;
    forall v | v in values ensures Clean(u, v) in CleanedSet(u, values) && Clean(u, Clean(u, v)) == Clean(u, v) {
      CleanIsIdempotent(u, v);
    }
    if ListTieFree(u, values) {
      forall x, y | x in CleanedSet(u, values) && y in CleanedSet(u, values) && TextKey(u)(x) == TextKey(u)(y)
        ensures x == y
      {
        var v :| v in values && x == Clean(u, v);
        var w :| w in values && y == Clean(u, w);
      }
    }
    if NoTies(TextKey(u), CleanedSet(u, values)) {
      forall v, w | v in values && w in values && u.casefold(Clean(u, v)) == u.casefold(Clean(u, w))
        ensures Clean(u, v) == Clean(u, w)
      {
        assert TextKey(u)(Clean(u, v)) == TextKey(u)(Clean(u, w));
      }
    }
  }

  // The same, without naming a step of create: what a draft says.

  /** The field is given this text: its clean form, unless nothing is left of it. */
  predicate SaysText(u: Unicode, value: Option<string>, t: string) {
    value.Some? && Clean(u, value.value) == t && t != ""
  }

  predicate SaysItem(u: Unicode, values: seq<string>, t: string) {
    exists v :: v in values && Clean(u, v) == t
  }

  predicate SaysFact(u: Unicode, facts: map<string, string>, f: Fact) {
    exists n :: n in facts && Clean(u, n) == f.name && Clean(u, facts[n]) == f.value
  }

  /** Two drafts say the same: of every field the same text, and the same facts, claims, assets and
      constraints, in whatever order and however often. */
  ghost predicate SayTheSame(lib: Library, d: Draft, e: Draft)
    requires forall s: Scalar :: s in d.scalars && s in e.scalars
  {
    var u := lib.unicode;
    && (forall s: Scalar, t: string :: SaysText(u, d.scalars[s], t) <==> SaysText(u, e.scalars[s], t))
    && (forall f :: SaysFact(u, d.facts, f) <==> SaysFact(u, e.facts, f))
    && (forall t :: SaysItem(u, d.forbidden, t) <==> SaysItem(u, e.forbidden, t))
    && (forall a :: a in d.assets <==> a in e.assets)
    && (forall t :: SaysItem(u, d.constraints, t) <==> SaysItem(u, e.constraints, t))
  }

  /** A contract holds what a draft says and nothing else, and every list of it is in order. */
  ghost predicate Holds(lib: Library, d: Draft, c: Contract)
    requires forall s: Scalar :: s in d.scalars
  {
    var u := lib.unicode;
    && (forall s: Scalar :: s in c.scalars)
    && (forall s: Scalar, t: string :: c.scalars[s] == Some(t) <==> SaysText(u, d.scalars[s], t))
    && (forall f :: f in c.facts <==> SaysFact(u, d.facts, f))
    && (forall t :: t in c.forbidden <==> SaysItem(u, d.forbidden, t))
    && (forall a :: a in c.assets <==> a in d.assets)
    && (forall t :: t in c.constraints <==> SaysItem(u, d.constraints, t))
    && Distinct(c.facts) && Distinct(c.forbidden) && Distinct(c.assets) && Distinct(c.constraints)
    && InOrder(lib, c)
    && c.version == 1
  }

  /** The lists run by the casefolded clean forms of texts and names, and by the texts of assets. */
  ghost predicate InOrder(lib: Library, c: Contract) {
    var u := lib.unicode;
    && (forall i, j :: 0 <= i < j < |c.facts| ==>
          AtMost(u.casefold(Clean(u, c.facts[i].name)), u.casefold(Clean(u, c.facts[j].name))))
    && (forall i, j :: 0 <= i < j < |c.forbidden| ==>
          AtMost(u.casefold(Clean(u, c.forbidden[i])), u.casefold(Clean(u, c.forbidden[j]))))
    && (forall i, j :: 0 <= i < j < |c.assets| ==> AtMost(lib.assetText(c.assets[i]), lib.assetText(c.assets[j])))
    && (forall i, j :: 0 <= i < j < |c.constraints| ==>
          AtMost(u.casefold(Clean(u, c.constraints[i])), u.casefold(Clean(u, c.constraints[j]))))
  }

  lemma ScalarsSaid(u: Unicode, scalars: Scalars, s: Scalar, t: string)
    requires s in scalars && ScalarsAccepted(u, scalars)
    ensures NormalScalars(u, scalars)[s] == Some(t) <==> SaysText(u, scalars[s], t)
  {
    hide Clean;
    assert ScalarError(u, s, scalars[s]).None?;
  }

  lemma ListSaid(u: Unicode, values: seq<string>, t: string)
    ensures t in CleanedSet(u, values) <==> SaysItem(u, values, t)
  {
    hide Clean;
  }

  lemma FactsSaid(u: Unicode, facts: map<string, string>, f: Fact)
    ensures f in CleanFactSet(u, facts) <==> SaysFact(u, facts, f)
  {
    hide Clean;
    if n :| n in facts && Clean(u, n) == f.name && Clean(u, facts[n]) == f.value {
      assert f == CleanFact(u, n, facts[n]);
    }
  }

  /** Every successful create: the contract holds what the draft says. */
  lemma ContractHoldsTheDraft(lib: Library, d: Draft, it: Iteration)
    requires Fits(lib, d, it) && Create(lib, d, it).Success?
    ensures Holds(lib, d, Create(lib, d, it).value)
  {
    hide FactsAccepted, ScalarsAccepted, ListAccepted, CleanFacts, CleanFactSet, CleanedSet, NormalScalar, Body, Sort;
    hide Create, NoTies, SaysText, SaysItem, SaysFact, Clean, InOrder;
    var u, c := lib.unicode, Built(lib, d, it);
    CreateExactly(lib, d, it);
    BuiltMeans(lib, d, it);
    BuiltIsSorted(lib, d, it);
    forall s: Scalar, t: string ensures c.scalars[s] == Some(t) <==> SaysText(u, d.scalars[s], t) {
      ScalarsSaid(u, d.scalars, s, t);
    }
    forall f ensures f in c.facts <==> SaysFact(u, d.facts, f) {
      assert f in c.facts <==> f in Elements(c.facts);
      FactsSaid(u, d.facts, f);
    }
    forall t ensures t in c.forbidden <==> SaysItem(u, d.forbidden, t) {
      assert t in c.forbidden <==> t in Elements(c.forbidden);
      ListSaid(u, d.forbidden, t);
    }
    forall t ensures t in c.constraints <==> SaysItem(u, d.constraints, t) {
      assert t in c.constraints <==> t in Elements(c.constraints);
      ListSaid(u, d.constraints, t);
    }
    forall a ensures a in c.assets <==> a in d.assets {
      assert a in c.assets <==> a in Elements(c.assets);
    }
  }

  lemma BuiltIsSorted(lib: Library, d: Draft, it: Iteration)
    requires Fits(lib, d, it)
    ensures InOrder(lib, Built(lib, d, it)) && Built(lib, d, it).version == 1
  {
    hide Clean, CleanFacts, Body, Sort, NormalScalars, CleanedSet;
    var u, c := lib.unicode, Built(lib, d, it);
    assert forall n :: n in it.facts ==> n in Elements(it.facts);
    SortedPermutation(FactKey(u), CleanFacts(u, d.facts, it.facts));
    SortedPermutation(TextKey(u), it.forbidden);
    SortedPermutation(AssetKey(lib), it.assets);
    SortedPermutation(TextKey(u), it.constraints);
  }

  lemma SayingIsMeaning(lib: Library, d: Draft, e: Draft)
    requires (forall s: Scalar :: s in d.scalars && s in e.scalars) && Acceptable(lib, d) && Acceptable(lib, e)
    ensures SayTheSame(lib, d, e) <==> MeaningOf(lib, d) == MeaningOf(lib, e)
  {
    hide FactsAccepted, ScalarsAccepted, ListAccepted, CleanFactSet, CleanedSet, NormalScalars;
    hide SaysText, SaysItem, SaysFact;
    var u := lib.unicode;
    SameScalars(u, d.scalars, e.scalars);
    SameFacts(u, d.facts, e.facts);
    SameItems(u, d.forbidden, e.forbidden);
    SameItems(u, d.constraints, e.constraints);
    SameAssets(d.assets, e.assets);
  }

  lemma SameFacts(u: Unicode, a: map<string, string>, b: map<string, string>)
    ensures CleanFactSet(u, a) == CleanFactSet(u, b) <==> forall f :: SaysFact(u, a, f) <==> SaysFact(u, b, f)
  {
    hide SaysFact, CleanFactSet;
    forall f
      ensures f in CleanFactSet(u, a) <==> SaysFact(u, a, f)
      ensures f in CleanFactSet(u, b) <==> SaysFact(u, b, f)
    {
      FactsSaid(u, a, f);
      FactsSaid(u, b, f);
    }
  }

  lemma SameItems(u: Unicode, a: seq<string>, b: seq<string>)
    ensures CleanedSet(u, a) == CleanedSet(u, b) <==> forall t :: SaysItem(u, a, t) <==> SaysItem(u, b, t)
  {
    hide SaysItem, CleanedSet;
    forall t
      ensures t in CleanedSet(u, a) <==> SaysItem(u, a, t)
      ensures t in CleanedSet(u, b) <==> SaysItem(u, b, t)
    {
      ListSaid(u, a, t);
      ListSaid(u, b, t);
    }
  }

  lemma SameScalars(u: Unicode, a: Scalars, b: Scalars)
    requires forall s: Scalar :: s in a && s in b
    requires ScalarsAccepted(u, a) && ScalarsAccepted(u, b)
    ensures NormalScalars(u, a) == NormalScalars(u, b) <==>
      forall s: Scalar, t: string :: SaysText(u, a[s], t) <==> SaysText(u, b[s], t)
  {
    hide NormalScalar, SaysText, ScalarsAccepted;
    var x, y := NormalScalars(u, a), NormalScalars(u, b);
    forall s: Scalar, t: string
      ensures x[s] == Some(t) <==> SaysText(u, a[s], t)
      ensures y[s] == Some(t) <==> SaysText(u, b[s], t)
    {
      ScalarsSaid(u, a, s, t);
      ScalarsSaid(u, b, s, t);
    }
    if forall s: Scalar, t: string :: SaysText(u, a[s], t) <==> SaysText(u, b[s], t) {
      forall s: Scalar ensures x[s] == y[s] {
        if x[s].Some? {
          assert SaysText(u, a[s], x[s].value);
        } else if y[s].Some? {
          assert SaysText(u, b[s], y[s].value);
        }
      }
      assert forall s :: s in x <==> s in y;
      assert x == y;
    }
    if x == y {
      forall s: Scalar, t: string ensures SaysText(u, a[s], t) <==> SaysText(u, b[s], t) {
        assert x[s] == Some(t) <==> SaysText(u, a[s], t);
      }
    }
  }

  lemma SameAssets(a: seq<Asset>, b: seq<Asset>)
    ensures Elements(a) == Elements(b) <==> forall x :: x in a <==> x in b
  {
    if Elements(a) == Elements(b) {
      forall x ensures x in a <==> x in b {
        assert x in Elements(a) <==> x in Elements(b);
      }
    }
  }

  lemma CleanFactsArrange(u: Unicode, facts: map<string, string>, names: seq<string>)
    requires Arranges(names, facts.Keys) && FactsAccepted(u, facts)
    ensures forall n :: n in names ==> n in facts
    ensures Arranges(CleanFacts(u, facts, names), CleanFactSet(u, facts))
    ensures NoTies(FactKey(u), CleanFactSet(u, facts))
    ensures |CleanFacts(u, facts, names)| == |facts|
  {
    hide FactFits, Clean, Semantic;
    forall n ensures n in names <==> n in facts {
      assert n in names <==> n in Elements(names);
    }
    DistinctCardinality(names);
    var rows := CleanFacts(u, facts, names);
    forall f ensures f in rows <==> f in CleanFactSet(u, facts) {
      if f in rows {
        var i :| 0 <= i < |rows| && rows[i] == f;
        assert names[i] in facts;
      }
      if f in CleanFactSet(u, facts) {
        var n :| n in facts && f == CleanFact(u, n, facts[n]);
        var i :| 0 <= i < |names| && names[i] == n;
        assert rows[i] == f;
      }
    }
    forall i, j | 0 <= i < j < |rows| ensures rows[i] != rows[j] {
      assert names[i] in facts && names[j] in facts;
      assert names[i] != names[j];
    }
  }

  /** What went into a contract is what is in it. */
  lemma BuiltMeans(lib: Library, d: Draft, it: Iteration)
    requires Fits(lib, d, it) && Acceptable(lib, d)
    ensures MeaningIn(Built(lib, d, it)) == MeaningOf(lib, d)
    ensures Distinct(Built(lib, d, it).facts) && Distinct(Built(lib, d, it).forbidden)
    ensures Distinct(Built(lib, d, it).assets) && Distinct(Built(lib, d, it).constraints)
    ensures NoTies(FactKey(lib.unicode), Elements(Built(lib, d, it).facts))
    ensures |Built(lib, d, it).facts| <= 100
  {
    hide FactsAccepted, ScalarsAccepted, ListAccepted, CleanFacts, CleanFactSet, CleanedSet, NormalScalars, Body, Sort;
    hide NoTies, Sorted;
    var u := lib.unicode;
    assert |d.facts| <= 100 by { FewFacts(u, d.facts); }
    CleanFactsArrange(u, d.facts, it.facts);
    SortArranges(FactKey(u), CleanFacts(u, d.facts, it.facts), CleanFactSet(u, d.facts));
    DistinctCardinality(CleanFacts(u, d.facts, it.facts));
    SortArranges(TextKey(u), it.forbidden, CleanedSet(u, d.forbidden));
    SortArranges(AssetKey(lib), it.assets, Elements(d.assets));
    SortArranges(TextKey(u), it.constraints, CleanedSet(u, d.constraints));
  }

  lemma FewFacts(u: Unicode, facts: map<string, string>)
    requires FactsAccepted(u, facts)
    ensures |facts| <= 100
  {
  }

  lemma AssetsHaveNoTies(lib: Library, assets: set<Asset>)
    requires Sound(lib)
    ensures NoTies(AssetKey(lib), assets)
  {
    forall a, b | a in assets && b in assets && AssetKey(lib)(a) == AssetKey(lib)(b) ensures a == b {
      assert lib.assetParsed(lib.assetText(a)) == Some(a);
      assert lib.assetParsed(lib.assetText(b)) == Some(b);
    }
  }

  lemma SameMeaningBuilds(lib: Library, d: Draft, it: Iteration, e: Draft, jt: Iteration)
    requires Sound(lib) && Fits(lib, d, it) && Fits(lib, e, jt) && Acceptable(lib, d) && Acceptable(lib, e)
    requires NoListTies(lib, d) && MeaningOf(lib, d) == MeaningOf(lib, e)
    ensures Built(lib, d, it) == Built(lib, e, jt)
  {
    hide FactsAccepted, ScalarsAccepted, ListAccepted, CleanFacts, CleanFactSet, CleanedSet, NormalScalars, Body, Sort;
    hide NoTies;
    hide Arranges;
    var u := lib.unicode;
    CleanFactsArrange(u, d.facts, it.facts);
    CleanFactsArrange(u, e.facts, jt.facts);
    TieFreeExactly(u, d.forbidden);
    TieFreeExactly(u, d.constraints);
    SortIgnoresArrangement(FactKey(u), CleanFacts(u, d.facts, it.facts), CleanFacts(u, e.facts, jt.facts),
        CleanFactSet(u, d.facts));
    SortIgnoresArrangement(TextKey(u), it.forbidden, jt.forbidden, CleanedSet(u, d.forbidden));
    AssetsHaveNoTies(lib, Elements(d.assets));
    SortIgnoresArrangement(AssetKey(lib), it.assets, jt.assets, Elements(d.assets));
    SortIgnoresArrangement(TextKey(u), it.constraints, jt.constraints, CleanedSet(u, d.constraints));
  }

  /** Canonical form: drafts that say the same become the same contract, however their lists are ordered
      or repeated and however sets and dictionaries are iterated, if no list has ties. */
  lemma SameMeaningSameContract(lib: Library, d: Draft, it: Iteration, e: Draft, jt: Iteration)
    requires Sound(lib) && Fits(lib, d, it) && Fits(lib, e, jt) && NoListTies(lib, d) && SayTheSame(lib, d, e)
    requires Create(lib, d, it).Success? && Create(lib, e, jt).Success?
    ensures Create(lib, d, it) == Create(lib, e, jt)
  {
    hide Sound, NoListTies, Acceptable, SayTheSame, MeaningOf, Built, Create;
    CreateExactly(lib, d, it);
    CreateExactly(lib, e, jt);
    SayingIsMeaning(lib, d, e);
    SameMeaningBuilds(lib, d, it, e, jt);
  }

  // ----- The stored dictionary ------------------------------------------------------------

  /** to_dict. */
  function ToDict(lib: Library, c: Contract): Stored {
    Body(lib, c.scalars, c.facts, c.forbidden, c.assets, c.constraints, c.version)[Fingerprint := Text(c.fingerprint)]
  }

  function StoredFields(): set<Field> {
    (set s | s in SCALAR_NAMES :: Protected(s)) +
    {RequiredFacts, ForbiddenClaims, RequiredAssets, Constraints, Fingerprint, ContractVersion}
  }

  function AssetsParsed(lib: Library, texts: seq<string>): Option<seq<Asset>> {
    if texts == [] then Some([])
    else
      match lib.assetParsed(texts[0])
      case None => None
      case Some(a) =>
        match AssetsParsed(lib, texts[1..])
        case None => None
        case Some(rest) => Some([a] + rest)
  }

  predicate ScalarsReadable(stored: Stored) {
    forall s: Scalar :: Protected(s) in stored && (stored[Protected(s)].Null? || stored[Protected(s)].Text?)
  }

  function ReadScalars(stored: Stored): Scalars
    requires ScalarsReadable(stored)
  {
    map s | s in Elements(SCALAR_NAMES) :: if stored[Protected(s)].Null? then None else Some(stored[Protected(s)].s)
  }

  /** The arguments that from_dict passes to create. */
  function ReadDraft(lib: Library, stored: Stored): (r: Result<Draft, Error>)
    requires stored.Keys == StoredFields()
  {
    if !ScalarsReadable(stored) then Failure(Malformed(Protected(Company)))
    else if !stored[RequiredFacts].Object? then Failure(Malformed(RequiredFacts))
    else if !stored[ForbiddenClaims].Texts? then Failure(Malformed(ForbiddenClaims))
    else if !stored[RequiredAssets].Texts? then Failure(Malformed(RequiredAssets))
    else if !stored[Constraints].Texts? then Failure(Malformed(Constraints))
    else
      match AssetsParsed(lib, stored[RequiredAssets].items)
      case None => Failure(Malformed(RequiredAssets))
      case Some(assets) =>
        Success(Draft(ReadScalars(stored), stored[RequiredFacts].members, stored[ForbiddenClaims].items, assets,
                      stored[Constraints].items))
  }

  /** from_dict. */
  function FromDict(lib: Library, stored: Stored, it: Iteration): Result<Contract, Error>
    requires stored.Keys == StoredFields() && ReadDraft(lib, stored).Success? ==>
               Fits(lib, ReadDraft(lib, stored).value, it)
  {
    if stored.Keys != StoredFields() then Failure(InvalidShape)
    else if stored[ContractVersion] != Number(1) then Failure(UnsupportedVersion)
    else
      match ReadDraft(lib, stored)
      case Failure(e) => Failure(e)
      case Success(d) =>
        match Create(lib, d, it)
        case Failure(e) => Failure(e)
        case Success(c) => if stored[Fingerprint] != Text(c.fingerprint)
            then Failure(InvalidFingerprint) else Success(c)
  }

  /** The draft that a stored contract is read back as. */
  function Recovered(c: Contract): Draft {
    Draft(c.scalars, FactMap(c.facts), c.forbidden, c.assets, c.constraints)
  }

  lemma {:induction false} ParsedTexts(lib: Library, assets: seq<Asset>)
    requires Sound(lib)
    ensures AssetsParsed(lib, AssetTexts(lib, assets)) == Some(assets)
  {
    if assets == [] {
      assert AssetTexts(lib, assets) == [];
    } else {
      ParsedTexts(lib, assets[1..]);
      assert AssetTexts(lib, assets)[1..] == AssetTexts(lib, assets[1..]);
      assert AssetTexts(lib, assets)[0] == lib.assetText(assets[0]);
      assert lib.assetParsed(lib.assetText(assets[0])) == Some(assets[0]);
      assert assets == [assets[0]] + assets[1..];
    }
  }

  lemma DictKeys(lib: Library, c: Contract)
    requires forall s: Scalar :: s in c.scalars
    ensures ToDict(lib, c).Keys == StoredFields()
  {
    hide FactMap, AssetTexts, ScalarFields, StoredFields;
    forall f ensures f in ToDict(lib, c) <==> f in StoredFields() {
      StoredFieldsAre(f);
    }
  }

  lemma DictFields(lib: Library, c: Contract)
    requires forall s: Scalar :: s in c.scalars
    ensures ToDict(lib, c).Keys == StoredFields()
    ensures ToDict(lib, c)[ContractVersion] == Number(c.version) && ToDict(lib, c)[Fingerprint] == Text(c.fingerprint)
    ensures ToDict(lib, c)[RequiredFacts] == Object(FactMap(c.facts))
    ensures ToDict(lib, c)[ForbiddenClaims] == Texts(c.forbidden) && ToDict(lib, c)[Constraints] == Texts(c.constraints)
    ensures ToDict(lib, c)[RequiredAssets] == Texts(AssetTexts(lib, c.assets))
    ensures forall s: Scalar :: ToDict(lib, c)[Protected(s)] == ScalarJson(c.scalars[s])
  {
    hide FactMap, AssetTexts, ScalarFields, ScalarJson, StoredFields;
    DictKeys(lib, c);
  }

  lemma StoredFieldsAre(f: Field)
    ensures f in StoredFields() <==> !f.OtherField?
  {
    if f.Protected? {
      AllScalarsNamed(f.scalar);
    }
  }

  lemma ReadBack(lib: Library, c: Contract)
    requires Sound(lib) && forall s: Scalar :: s in c.scalars
    ensures ToDict(lib, c).Keys == StoredFields()
    ensures ReadDraft(lib, ToDict(lib, c)) == Success(Recovered(c))
  {
    hide ToDict, StoredFields, AssetTexts, AssetsParsed, FactMap;
    DictFields(lib, c);
    ParsedTexts(lib, c.assets);
    forall s: Scalar ensures s in Elements(SCALAR_NAMES) {
      AllScalarsNamed(s);
    }
    var stored := ToDict(lib, c);
    forall s: Scalar ensures Protected(s) in stored && (stored[Protected(s)].Null? || stored[Protected(s)].Text?) {
      StoredFieldsAre(Protected(s));
      assert stored[Protected(s)] == ScalarJson(c.scalars[s]);
    }
    assert ReadScalars(stored) == c.scalars;
  }

  lemma NormalScalarStays(u: Unicode, s: Scalar, value: Option<string>)
    requires Lawful(u) && ScalarError(u, s, value).None?
    ensures ScalarError(u, s, NormalScalar(u, s, value)).None?
    ensures NormalScalar(u, s, NormalScalar(u, s, value)) == NormalScalar(u, s, value)
  {
    hide Clean, Lawful;
    if value.Some? {
      CleanIsIdempotent(u, value.value);
    }
  }

  lemma ScalarsRecovered(u: Unicode, scalars: Scalars)
    requires Lawful(u) && ScalarsAccepted(u, scalars)
    ensures ScalarsAccepted(u, NormalScalars(u, scalars))
    ensures NormalScalars(u, NormalScalars(u, scalars)) == NormalScalars(u, scalars)
  {
    hide Lawful, NormalScalar, ScalarError;
    forall s | s in scalars
      ensures ScalarError(u, s, NormalScalar(u, s, scalars[s])).None?
      ensures NormalScalar(u, s, NormalScalar(u, s, scalars[s])) == NormalScalar(u, s, scalars[s])
    {
      NormalScalarStays(u, s, scalars[s]);
    }
  }

  lemma {:induction false} FactMapHolds(u: Unicode, rows: seq<Fact>)
    requires NoTies(FactKey(u), Elements(rows))
    ensures forall n :: n in FactMap(rows) ==> Fact(n, FactMap(rows)[n]) in rows
    ensures forall f :: f in rows ==> f.name in FactMap(rows) && FactMap(rows)[f.name] == f.value
  {
    hide Semantic;
    if rows != [] {
      var init, last := rows[..|rows| - 1], rows[|rows| - 1];
      assert rows == init + [last];
      forall f ensures f in init ==> f in Elements(rows) {
      }
      assert last in Elements(rows);
      FactMapHolds(u, init);
      forall f | f in rows ensures f.name in FactMap(rows) && FactMap(rows)[f.name] == f.value {
        assert f in Elements(rows);
        assert f.name == last.name ==> FactKey(u)(f) == FactKey(u)(last);
      }
    }
  }

  predicate IsClean(u: Unicode, f: Fact) {
    CleanFact(u, f.name, f.value) == f && FactFits(u, f.name, f.value)
  }

  lemma CleanFactIsClean(u: Unicode, name: string, value: string)
    requires Lawful(u) && FactFits(u, name, value)
    ensures IsClean(u, CleanFact(u, name, value))
  {
    hide Clean, Lawful;
    CleanIsIdempotent(u, name);
    CleanIsIdempotent(u, value);
  }

  /** The facts of a map are clean rows. */
  ghost predicate HoldsRows(u: Unicode, m: map<string, string>, rows: seq<Fact>) {
    && (forall n :: n in m ==> Fact(n, m[n]) in rows)
    && (forall f :: f in rows ==> f.name in m && m[f.name] == f.value && IsClean(u, f))
  }

  lemma CleanMapAccepted(u: Unicode, m: map<string, string>, rows: seq<Fact>)
    requires HoldsRows(u, m, rows) && |m| <= 100 && NoTies(FactKey(u), Elements(rows))
    ensures FactsAccepted(u, m)
  {
    hide Clean, Semantic, TextError;
    forall n | n in m ensures FactFits(u, n, m[n]) && Clean(u, n) == n {
      assert IsClean(u, Fact(n, m[n]));
    }
    forall a, b | a in m && b in m && Semantic(u, Clean(u, a)) == Semantic(u, Clean(u, b)) ensures a == b {
      assert Fact(a, m[a]) in Elements(rows) && Fact(b, m[b]) in Elements(rows);
      assert FactKey(u)(Fact(a, m[a])) == FactKey(u)(Fact(b, m[b]));
    }
  }

  lemma CleanMapSet(u: Unicode, m: map<string, string>, rows: seq<Fact>)
    requires HoldsRows(u, m, rows)
    ensures CleanFactSet(u, m) == Elements(rows)
  {
    hide CleanFact, FactFits;
    forall n | n in m ensures CleanFact(u, n, m[n]) == Fact(n, m[n]) {
      assert IsClean(u, Fact(n, m[n]));
    }
    forall f | f in rows ensures f in CleanFactSet(u, m) {
      assert f == CleanFact(u, f.name, m[f.name]);
    }
  }

  /** Cleaned facts stay as they are. */
  lemma FactsRecovered(u: Unicode, facts: map<string, string>, rows: seq<Fact>)
    requires Lawful(u) && FactsAccepted(u, facts) && |rows| <= 100
    requires Elements(rows) == CleanFactSet(u, facts) && NoTies(FactKey(u), Elements(rows))
    ensures FactsAccepted(u, FactMap(rows)) && CleanFactSet(u, FactMap(rows)) == Elements(rows)
  {
    hide CleanFact, Lawful, IsClean, FactFits, NoTies, FactKey;
    FactMapHolds(u, rows);
    forall f | f in rows ensures IsClean(u, f) {
      assert f in CleanFactSet(u, facts);
      var n :| n in facts && f == CleanFact(u, n, facts[n]);
      CleanFactIsClean(u, n, facts[n]);
    }
    CleanMapAccepted(u, FactMap(rows), rows);
    CleanMapSet(u, FactMap(rows), rows);
  }

  lemma {:induction false} CleanedSetIsSmaller(u: Unicode, values: seq<string>)
    ensures |CleanedSet(u, values)| <= |values|
  {
    hide Clean;
    if values == [] {
      assert CleanedSet(u, values) == {};
    } else {
      CleanedSetIsSmaller(u, values[1..]);
      assert values == [values[0]] + values[1..];
      assert CleanedSet(u, values) == {Clean(u, values[0])} + CleanedSet(u, values[1..]);
    }
  }

  /** A cleaned list stays as it is. */
  lemma ListRecovered(u: Unicode, field: Field, values: seq<string>, clean: seq<string>)
    requires Lawful(u) && ListAccepted(u, field, values) && Arranges(clean, CleanedSet(u, values))
    ensures ListAccepted(u, field, clean) && CleanedSet(u, clean) == CleanedSet(u, values)
  {
    hide Clean, Lawful;
    CleanedSetIsSmaller(u, values);
    DistinctCardinality(clean);
    forall v | v in clean ensures Clean(u, v) == v && TextError(u, field, v, 500).None? {
      assert v in Elements(clean);
      var w :| w in values && v == Clean(u, w);
      CleanIsIdempotent(u, w);
      assert TextError(u, field, w, 500).None?;
    }
    assert CleanedSet(u, clean) == Elements(clean);
  }

  /** A stored contract is read back as a draft that is acceptable and means what the first one did. */
  lemma RecoveredMeansTheSame(lib: Library, d: Draft, it: Iteration)
    requires Sound(lib) && Fits(lib, d, it) && Acceptable(lib, d)
    ensures Acceptable(lib, Recovered(Built(lib, d, it)))
    ensures MeaningOf(lib, Recovered(Built(lib, d, it))) == MeaningOf(lib, d)
    ensures forall s: Scalar :: s in Built(lib, d, it).scalars
  {
    hide Lawful, FactsAccepted, ScalarsAccepted, ListAccepted, CleanFacts, CleanFactSet, CleanedSet, Body, Sort, NoTies;
    hide FactMap;
    var c := Built(lib, d, it);
    BuiltMeans(lib, d, it);
    ScalarsRecovered(lib.unicode, d.scalars);
    FactsRecovered(lib.unicode, d.facts, c.facts);
    ListRecovered(lib.unicode, ForbiddenClaims, d.forbidden, c.forbidden);
    ListRecovered(lib.unicode, Constraints, d.constraints, c.constraints);
  }

  /** What is stored is within the limits again, and says what the first draft said. */
  lemma StoredSaysTheSame(lib: Library, d: Draft, it: Iteration)
    requires Sound(lib) && Fits(lib, d, it) && Create(lib, d, it).Success?
    ensures
      var e := Recovered(Create(lib, d, it).value);
      (forall s: Scalar :: s in e.scalars) && WithinLimits(lib, e) && SayTheSame(lib, d, e)
  {
    hide Sound, Acceptable, WithinLimits, SayTheSame, MeaningOf, Built, Create;
    CreateExactly(lib, d, it);
    RecoveredMeansTheSame(lib, d, it);
    LimitsExactly(lib, Recovered(Built(lib, d, it)));
    SayingIsMeaning(lib, d, Recovered(Built(lib, d, it)));
  }

  // ----- Round trip -----------------------------------------------------------------------

  /** Reading a stored contract back recomputes it, and accepts it exactly when that gives the same
      fingerprint. */
  lemma ReadingRebuilds(lib: Library, d: Draft, it: Iteration, jt: Iteration)
    requires Sound(lib) && Fits(lib, d, it) && Acceptable(lib, d)
    requires Fits(lib, Recovered(Built(lib, d, it)), jt)
    ensures
      var c := Built(lib, d, it);
      var rebuilt := Built(lib, Recovered(c), jt);
      && ToDict(lib, c).Keys == StoredFields()
      && ReadDraft(lib, ToDict(lib, c)) == Success(Recovered(c))
      && FromDict(lib, ToDict(lib, c), jt) ==
           if c.fingerprint == rebuilt.fingerprint then Success(rebuilt) else Failure(InvalidFingerprint)
  {
    hide Sound, Fits, Acceptable, Create, Recovered, ToDict, ReadDraft, StoredFields, Body, Sort, CleanFacts;
    hide NormalScalars;
    var c := Built(lib, d, it);
    RecoveredMeansTheSame(lib, d, it);
    DictFields(lib, c);
    ReadBack(lib, c);
    CreateExactly(lib, Recovered(c), jt);
  }

  /** The round trip, whatever orders the two calls iterate in, when no list has ties. */
  lemma RoundTrip(lib: Library, d: Draft, it: Iteration, jt: Iteration)
    requires Sound(lib) && Fits(lib, d, it) && Acceptable(lib, d) && NoListTies(lib, d)
    requires Fits(lib, Recovered(Built(lib, d, it)), jt)
    ensures ToDict(lib, Built(lib, d, it)).Keys == StoredFields()
    ensures ReadDraft(lib, ToDict(lib, Built(lib, d, it))) == Success(Recovered(Built(lib, d, it)))
    ensures FromDict(lib, ToDict(lib, Built(lib, d, it)), jt) == Success(Built(lib, d, it))
  {
    hide Sound, Fits, Acceptable, Built, Recovered, FromDict, ToDict, ReadDraft, StoredFields, NoListTies, MeaningOf;
    RecoveredMeansTheSame(lib, d, it);
    SameMeaningBuilds(lib, d, it, Recovered(Built(lib, d, it)), jt);
    ReadingRebuilds(lib, d, it, jt);
  }

  lemma BodyDetermines(lib: Library, b: Contract, c: Contract)
    requires Sound(lib) && (forall s: Scalar :: s in b.scalars && s in c.scalars)
    requires Body(lib, b.scalars, b.facts, b.forbidden, b.assets, b.constraints, 1) ==
             Body(lib, c.scalars, c.facts, c.forbidden, c.assets, c.constraints, 1)
    ensures b.scalars == c.scalars && b.forbidden == c.forbidden && b.assets == c.assets
    ensures b.constraints == c.constraints
    ensures FactMap(b.facts) == FactMap(c.facts)
  {
    hide Sound, ToDict, Body, FactMap, AssetTexts, StoredFields;
    var x, y := b.(version := 1, fingerprint := ""), c.(version := 1, fingerprint := "");
    assert ToDict(lib, x) == ToDict(lib, y) by { SameBody(lib, x, y); }
    DictFields(lib, x);
    DictFields(lib, y);
    ParsedTexts(lib, b.assets);
    ParsedTexts(lib, c.assets);
    forall s: Scalar ensures b.scalars[s] == c.scalars[s] {
      StoredFieldsAre(Protected(s));
      assert ToDict(lib, x)[Protected(s)] == ScalarJson(b.scalars[s]);
      assert ToDict(lib, y)[Protected(s)] == ScalarJson(c.scalars[s]);
    }
    assert b.scalars == c.scalars;
  }

  lemma SameBody(lib: Library, b: Contract, c: Contract)
    requires Body(lib, b.scalars, b.facts, b.forbidden, b.assets, b.constraints, b.version) ==
             Body(lib, c.scalars, c.facts, c.forbidden, c.assets, c.constraints, c.version)
    requires b.fingerprint == c.fingerprint
    ensures ToDict(lib, b) == ToDict(lib, c)
  {
    hide Body;
  }

  /** A fingerprint fixes everything but the order of equal facts. */
  lemma FingerprintDetermines(lib: Library, d: Draft, it: Iteration, e: Draft, jt: Iteration)
    requires Sound(lib) && CollisionFree(lib)
    requires Fits(lib, d, it) && Fits(lib, e, jt) && Acceptable(lib, d) && Acceptable(lib, e)
    requires Built(lib, d, it).fingerprint == Built(lib, e, jt).fingerprint
    ensures MeaningOf(lib, d) == MeaningOf(lib, e)
    ensures Built(lib, d, it).forbidden == Built(lib, e, jt).forbidden
    ensures Built(lib, d, it).constraints == Built(lib, e, jt).constraints
  {
    hide Sound, Fits, Acceptable, Body, FactMap, Sort, CleanFacts, NormalScalars, MeaningOf, NoTies;
    var b, c := Built(lib, d, it), Built(lib, e, jt);
    BuiltMeans(lib, d, it);
    BuiltMeans(lib, e, jt);
    RecoveredMeansTheSame(lib, d, it);
    RecoveredMeansTheSame(lib, e, jt);
    BodyDetermines(lib, b, c);
    SameFactMap(lib.unicode, b.facts, c.facts);
  }

  lemma SameFactMap(u: Unicode, a: seq<Fact>, b: seq<Fact>)
    requires NoTies(FactKey(u), Elements(a)) && NoTies(FactKey(u), Elements(b)) && FactMap(a) == FactMap(b)
    ensures Elements(a) == Elements(b)
  {
    hide NoTies, FactKey, FactMap;
    FactMapHolds(u, a);
    FactMapHolds(u, b);
    forall f ensures f in a <==> f in b {
      if f in a {
        assert Fact(f.name, FactMap(b)[f.name]) in b;
      }
      if f in b {
        assert Fact(f.name, FactMap(a)[f.name]) in a;
      }
    }
  }

  /** Two requests get the same fingerprint exactly when they say the same. */
  lemma FingerprintIsTheMeaning(lib: Library, d: Draft, it: Iteration, e: Draft, jt: Iteration)
    requires Sound(lib) && CollisionFree(lib) && NoListTies(lib, d) && Fits(lib, d, it) && Fits(lib, e, jt)
    requires Create(lib, d, it).Success? && Create(lib, e, jt).Success?
    ensures Create(lib, d, it).value.fingerprint == Create(lib, e, jt).value.fingerprint <==> SayTheSame(lib, d, e)
  {
    hide Sound, CollisionFree, NoListTies, Acceptable, SayTheSame, MeaningOf, Built, Create;
    CreateExactly(lib, d, it);
    CreateExactly(lib, e, jt);
    SayingIsMeaning(lib, d, e);
    if MeaningOf(lib, d) == MeaningOf(lib, e) {
      SameMeaningBuilds(lib, d, it, e, jt);
    }
    if Built(lib, d, it).fingerprint == Built(lib, e, jt).fingerprint {
      FingerprintDetermines(lib, d, it, e, jt);
    }
  }

  /** Under the fingerprint of a contract, only a dictionary that says the same is ever read back: nobody
      can change what a stored contract says and keep its fingerprint. */
  lemma TamperingShows(lib: Library, d: Draft, it: Iteration, stored: Stored, e: Draft, jt: Iteration)
    requires Sound(lib) && CollisionFree(lib) && NoListTies(lib, d) && Fits(lib, d, it) && Create(lib, d, it).Success?
    requires stored.Keys == StoredFields() && ReadDraft(lib, stored) == Success(e) && Fits(lib, e, jt)
    requires Fingerprint in stored && stored[Fingerprint] == Text(Create(lib, d, it).value.fingerprint)
    requires FromDict(lib, stored, jt).Success?
    ensures FromDict(lib, stored, jt) == Create(lib, d, it)
    ensures SayTheSame(lib, d, e)
  {
    hide Sound, CollisionFree, NoListTies, SayTheSame, Create, ReadDraft, StoredFields;
    FingerprintIsTheMeaning(lib, d, it, e, jt);
    SameMeaningSameContract(lib, d, it, e, jt);
  }

  /** What from_dict accepts, exactly, and what the dictionary then says of the contract. */
  lemma ReadExactly(lib: Library, stored: Stored, jt: Iteration)
    requires stored.Keys == StoredFields() && ReadDraft(lib, stored).Success? ==>
               Fits(lib, ReadDraft(lib, stored).value, jt)
    ensures stored.Keys == StoredFields() <==> forall f :: f in stored <==> !f.OtherField?
    ensures FromDict(lib, stored, jt).Success? <==>
      && stored.Keys == StoredFields()
      && stored[ContractVersion] == Number(1)
      && ReadDraft(lib, stored).Success?
      && Create(lib, ReadDraft(lib, stored).value, jt).Success?
      && stored[Fingerprint] == Text(Create(lib, ReadDraft(lib, stored).value, jt).value.fingerprint)
    ensures FromDict(lib, stored, jt).Success? ==>
      FromDict(lib, stored, jt) == Create(lib, ReadDraft(lib, stored).value, jt)
  {
    hide Create, ReadDraft, StoredFields, Fits;
    KeysExactly(stored);
  }

  lemma KeysExactly(stored: Stored)
    ensures stored.Keys == StoredFields() <==> forall f :: f in stored <==> !f.OtherField?
  {
    hide StoredFields;
    forall f ensures f in StoredFields() <==> !f.OtherField? {
      StoredFieldsAre(f);
    }
    if stored.Keys == StoredFields() {
      forall f ensures f in stored <==> !f.OtherField? {
        assert f in stored <==> f in stored.Keys;
      }
    }
  }

  /** The draft a dictionary is read as, exactly. */
  lemma DraftExactly(lib: Library, stored: Stored)
    requires stored.Keys == StoredFields()
    ensures ReadDraft(lib, stored).Success? <==>
      && (forall s: Scalar :: Protected(s) in stored && (stored[Protected(s)].Null? || stored[Protected(s)].Text?))
      && stored[RequiredFacts].Object? && stored[ForbiddenClaims].Texts? && stored[RequiredAssets].Texts?
      && stored[Constraints].Texts?
      && forall t :: t in stored[RequiredAssets].items ==> lib.assetParsed(t).Some?
    ensures ReadDraft(lib, stored).Success? ==>
      var d, texts := ReadDraft(lib, stored).value, stored[RequiredAssets].items;
      && (forall s: Scalar :: s in d.scalars
           && d.scalars[s] == if stored[Protected(s)] == Null then None else Some(stored[Protected(s)].s))
      && Object(d.facts) == stored[RequiredFacts]
      && Texts(d.forbidden) == stored[ForbiddenClaims]
      && Texts(d.constraints) == stored[Constraints]
      && |d.assets| == |texts| && forall i :: 0 <= i < |texts| ==> lib.assetParsed(texts[i]) == Some(d.assets[i])
  {
    hide StoredFields, AssetsParsed;
    StoredFieldsAre(RequiredFacts);
    StoredFieldsAre(ForbiddenClaims);
    StoredFieldsAre(RequiredAssets);
    StoredFieldsAre(Constraints);
    if stored[RequiredAssets].Texts? {
      ParsedExactly(lib, stored[RequiredAssets].items);
    }
    forall s: Scalar ensures s in Elements(SCALAR_NAMES) {
      AllScalarsNamed(s);
    }
  }

  lemma {:induction false} ParsedExactly(lib: Library, texts: seq<string>)
    ensures AssetsParsed(lib, texts).Some? <==> forall t :: t in texts ==> lib.assetParsed(t).Some?
    ensures AssetsParsed(lib, texts).Some? ==>
      var assets := AssetsParsed(lib, texts).value;
      |assets| == |texts| && forall i :: 0 <= i < |texts| ==> lib.assetParsed(texts[i]) == Some(assets[i])
  {
    if texts != [] {
      ParsedExactly(lib, texts[1..]);
      assert texts == [texts[0]] + texts[1..];
    }
  }

  /** Permuting a list, or repeating its values within the limit, gives the same contract. */
  lemma ReorderingChangesNothing(lib: Library, d: Draft, it: Iteration, e: Draft, jt: Iteration)
    requires Sound(lib) && NoListTies(lib, d) && Fits(lib, d, it) && Fits(lib, e, jt)
    requires e.scalars == d.scalars && e.facts == d.facts
    requires Elements(e.forbidden) == Elements(d.forbidden) && |e.forbidden| <= 100
    requires Elements(e.constraints) == Elements(d.constraints) && |e.constraints| <= 100
    requires Elements(e.assets) == Elements(d.assets)
    requires Create(lib, d, it).Success?
    ensures Create(lib, e, jt) == Create(lib, d, it)
  {
    hide Sound, NoListTies, Fits, Create, FactsAccepted, ScalarsAccepted, TextError, Built, Clean, CleanFactSet;
    hide NormalScalars;
    CreateExactly(lib, d, it);
    CreateExactly(lib, e, jt);
    SameElements(lib.unicode, d.forbidden, e.forbidden);
    SameElements(lib.unicode, d.constraints, e.constraints);
    SameMeaningBuilds(lib, d, it, e, jt);
  }

  lemma SameElements(u: Unicode, a: seq<string>, b: seq<string>)
    requires Elements(a) == Elements(b)
    ensures CleanedSet(u, a) == CleanedSet(u, b) && forall v :: v in a <==> v in b
  {
    forall v ensures v in a <==> v in b {
      assert v in Elements(a) <==> v in Elements(b);
    }
  }

  // ----- Ties -----------------------------------------------------------------------------

  function FactNames(facts: seq<Fact>): seq<string> {
    seq(|facts|, i requires 0 <= i < |facts| => facts[i].name)
  }

  lemma FactNamesArrange(u: Unicode, facts: seq<Fact>)
    requires Distinct(facts) && NoTies(FactKey(u), Elements(facts))
    ensures Arranges(FactNames(facts), FactMap(facts).Keys)
  {
    hide Semantic;
    FactMapHolds(u, facts);
    var names := FactNames(facts);
    forall i, j | 0 <= i < j < |facts| ensures names[i] != names[j] {
      assert facts[i] in Elements(facts) && facts[j] in Elements(facts);
      assert FactKey(u)(facts[i]) != FactKey(u)(facts[j]);
    }
    forall n ensures n in names <==> n in FactMap(facts) {
      if n in names {
        var i :| 0 <= i < |names| && names[i] == n;
        assert facts[i] in facts;
      }
      if n in FactMap(facts) {
        var i :| 0 <= i < |facts| && facts[i] == Fact(n, FactMap(facts)[n]);
        assert names[i] == n;
      }
    }
  }

  /** An iteration that reverses both lists of a stored contract. */
  function Adverse(c: Contract): Iteration {
    Iteration(FactNames(c.facts), Reversed(c.forbidden), c.assets, Reversed(c.constraints))
  }

  lemma ReversedArranges(s: seq<string>)
    requires Distinct(s)
    ensures Arranges(Reversed(s), Elements(s))
  {
    ReversedIsPermutation(s);
    ArrangementOf(Reversed(s), s);
  }

  lemma AdverseFits(lib: Library, d: Draft, it: Iteration)
    requires Sound(lib) && Fits(lib, d, it) && Acceptable(lib, d)
    ensures Fits(lib, Recovered(Built(lib, d, it)), Adverse(Built(lib, d, it)))
  {
    hide Sound, Acceptable, Built, FactMap, NoTies, CleanedSet, Reversed, Distinct, FactNames, CleanFactSet;
    hide NormalScalars;
    var c := Built(lib, d, it);
    BuiltMeans(lib, d, it);
    RecoveredMeansTheSame(lib, d, it);
    FactNamesArrange(lib.unicode, c.facts);
    ReversedArranges(c.forbidden);
    ReversedArranges(c.constraints);
  }

  /** With a tie in a list, some iteration order makes the stored contract unreadable. */
  lemma TieBreaksTheRoundTrip(lib: Library, d: Draft, it: Iteration)
    requires Sound(lib) && CollisionFree(lib) && Fits(lib, d, it) && Acceptable(lib, d) && !NoListTies(lib, d)
    ensures ReadBackAs(lib, Built(lib, d, it), Adverse(Built(lib, d, it)), Failure(InvalidFingerprint))
  {
    hide Lawful, CollisionFree, Fits, Acceptable, NoTies, Sort, Body, FactMap, CleanFacts, NormalScalars, Reversed;
    hide CleanedSet;
    hide FactNames, ToDict, ReadDraft, StoredFields, FromDict, CleanFactSet;
    var c, jt := Built(lib, d, it), Adverse(Built(lib, d, it));
    BuiltMeans(lib, d, it);
    RecoveredMeansTheSame(lib, d, it);
    AdverseFits(lib, d, it);
    ReadingRebuilds(lib, d, it, jt);
    TieFreeExactly(lib.unicode, d.forbidden);
    TieFreeExactly(lib.unicode, d.constraints);
    if !NoTies(TextKey(lib.unicode), CleanedSet(lib.unicode, d.forbidden)) {
      TieShows(TextKey(lib.unicode), c.forbidden);
    } else {
      TieShows(TextKey(lib.unicode), c.constraints);
    }
    if c.fingerprint == Built(lib, Recovered(c), jt).fingerprint {
      FingerprintDetermines(lib, d, it, Recovered(c), jt);
      assert false;
    }
  }

  /** from_dict(to_dict(c)) in one iteration order. */
  ghost predicate ReadBackAs(lib: Library, c: Contract, jt: Iteration, r: Result<Contract, Error>) {
    && Fits(lib, Recovered(c), jt)
    && ToDict(lib, c).Keys == StoredFields()
    && ReadDraft(lib, ToDict(lib, c)) == Success(Recovered(c))
    && FromDict(lib, ToDict(lib, c), jt) == r
  }

  /** The stored form reads back as the contract it was made from, in every order of iteration, exactly
      when no list holds two different clean values with the same casefolded form. */
  lemma RoundTripExactly(lib: Library, d: Draft, it: Iteration)
    requires Sound(lib) && CollisionFree(lib) && Fits(lib, d, it) && Create(lib, d, it).Success?
    ensures
      var c := Create(lib, d, it).value;
      NoListTies(lib, d) <==>
        forall jt :: Fits(lib, Recovered(c), jt) ==> ReadBackAs(lib, c, jt, Success(c))
  {
    hide Sound, CollisionFree, Fits, Acceptable, NoListTies, Create, Built, Recovered, ToDict, ReadDraft, FromDict;
    hide StoredFields, Adverse;
    CreateExactly(lib, d, it);
    var c := Built(lib, d, it);
    if NoListTies(lib, d) {
      forall jt | Fits(lib, Recovered(c), jt) ensures ReadBackAs(lib, c, jt, Success(c)) {
        RoundTrip(lib, d, it, jt);
      }
    } else {
      TieBreaksTheRoundTrip(lib, d, it);
      assert !ReadBackAs(lib, c, Adverse(c), Success(c));
      assert Fits(lib, Recovered(c), Adverse(c));
    }
  }
}
