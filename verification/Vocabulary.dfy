/** The closed vocabularies of the Posts control plane, and the two failure-compatible
    datatypes the other modules share. */
module Vocabulary {

  /** SupervisorStage: the specialist stages a generation passes through. */
  datatype Stage =
    | ClientUnderstanding
    | SemanticContract
    | AssetIntelligence
    | BrandProduct
    | AudienceIntelligence
    | ExternalResearch
    | MarketingStrategy
    | CreativeConcept
    | Copywriting
    | ArtDirection
    | DesignSpec
    | ReferenceValidation
    | GenerationPlanning
    | Production
    | ScenePurity
    | Composition
    | Verification
    | QualityReview
    | DesignReview
    | VisionReview
    | QualityScoring

  /** PostWorkflowSection: the independently versioned parts of a workflow state. */
  datatype Section =
    | SupervisorSection
    | ConversationContextSection
    | BriefSection
    | SemanticContractSection
    | BrandSection
    | ProductSection
    | AssetsSection
    | AudienceSection
    | ResearchSection
    | MarketingStrategySection
    | CreativeConceptSection
    | CopySection
    | ArtDirectionSection
    | DesignSpecSection
    | ReferenceValidationSection
    | GenerationPlanSection
    | GenerationArtifactsSection
    | ScenePuritySection
    | PostDraftSection
    | VerificationSection
    | QualitySection
    | DesignQualitySection
    | VisionQualitySection
    | QualityApprovalSection
    | RevisionHistorySection

  datatype Option<+T> = None | Some(value: T)

  datatype Result<+T, +E> = Success(value: T) | Failure(error: E)

  /** The elements of a sequence, as Python's set(...) collects them. */
  function Elements<T>(s: seq<T>): set<T> {
    set x | x in s
  }

  predicate StandsAt(text: string, part: string, i: nat) {
    i + |part| <= |text| && text[i..i + |part|] == part
  }

  /** The one text occurs in the other. */
  predicate Contains(text: string, part: string) {
    exists i :: 0 <= i <= |text| && StandsAt(text, part, i)
  }

  /** The one text occurs in the other: with some text before and after it. */
  lemma ContainsExactly(text: string, part: string)
    ensures Contains(text, part) <==> exists before, after :: text == before + (part + after)
  {
    if Contains(text, part) {
      var i :| 0 <= i <= |text| && StandsAt(text, part, i);
      assert text == text[..i] + (part + text[i + |part|..]);
    }
    if before, after :| text == before + (part + after) {
      assert text[|before|..|before| + |part|] == part;
      assert StandsAt(text, part, |before|);
    }
  }

  predicate Distinct<T(==)>(s: seq<T>) {
    forall i, j :: 0 <= i < j < |s| ==> s[i] != s[j]
  }

  /** Appending a value keeps it, unless the sequence already holds it. */
  function AppendUnique<T(==)>(s: seq<T>, x: T): (r: seq<T>)
    ensures Elements(r) == Elements(s) + {x}
    ensures Distinct(s) ==> Distinct(r)
  {
    if x in s then s else s + [x]
  }

  /** The elements of s outside a set, in their order. */
  function Without<T(==)>(s: seq<T>, gone: set<T>): (r: seq<T>)
    ensures Elements(r) == Elements(s) - gone
    ensures Distinct(s) ==> Distinct(r)
  {
    if s == [] then []
    else
      var rest := Without(s[..|s| - 1], gone);
      assert s == s[..|s| - 1] + [s[|s| - 1]];
      assert Elements(s) == Elements(s[..|s| - 1]) + {s[|s| - 1]};
      if s[|s| - 1] in gone then rest
      else
        assert s[|s| - 1] in rest ==> s[|s| - 1] in Elements(rest);
        assert Elements(rest + [s[|s| - 1]]) == Elements(rest) + {s[|s| - 1]};
        assert Distinct(s) ==> s[|s| - 1] !in s[..|s| - 1];
        rest + [s[|s| - 1]]
  }

  /** The number of distinct values never exceeds the number of positions, and meets it exactly
      when no value repeats. */
  lemma {:induction false} DistinctCardinality<T>(s: seq<T>)
    ensures |Elements(s)| <= |s|
    ensures |Elements(s)| == |s| <==> Distinct(s)
  {
    if s != [] {
      var init, last := s[..|s| - 1], s[|s| - 1];
      DistinctCardinality(init);
      assert s == init + [last];
      assert Elements(s) == Elements(init) + {last};
      if last in Elements(init) {
        var k :| 0 <= k < |init| && init[k] == last;
        assert s[k] == s[|s| - 1] && Elements(s) == Elements(init);
      }
    }
  }

  lemma SubsetCardinality<T>(a: set<T>, b: set<T>)
    requires a <= b
    ensures |a| <= |b|
  {
    assert b == a + (b - a);
    assert |a + (b - a)| == |a| + |b - a|;
  }
}
