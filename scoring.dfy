/** Scores derived from a document: `deriveTrustScore` and
    `assessCollaborationReadiness` of `src/harp.ts`. */
module Scoring {
  import opened Wrappers
  import opened Strings
  import opened Types

  // ---------------------------------------------------------------------------
  // Counting sections

  /** How many sections of `ss` satisfy `p`: `ss.filter(p).length`. */
  function Count(ss: seq<Section>, p: Section -> bool): (n: nat)
    ensures n <= |ss|
  {
    if |ss| == 0 then 0
    else Count(ss[..|ss| - 1], p) + (if p(ss[|ss| - 1]) then 1 else 0)
  }

  lemma CountSnoc(ss: seq<Section>, i: nat, p: Section -> bool)
    requires i < |ss|
    ensures Count(ss[..i + 1], p) == Count(ss[..i], p) + (if p(ss[i]) then 1 else 0)
  {
    assert ss[..i + 1][..i] == ss[..i];
  }

  /** Some section satisfies `p` exactly when the count is positive. */
  lemma {:induction false} CountPositive(ss: seq<Section>, p: Section -> bool)
    ensures Count(ss, p) > 0 <==> exists i :: 0 <= i < |ss| && p(ss[i])
  {
    if |ss| > 0 {
      var n := |ss| - 1;
      CountPositive(ss[..n], p);
      if exists i :: 0 <= i < |ss| && p(ss[i]) {
        var i :| 0 <= i < |ss| && p(ss[i]);
        if i < n {
          assert ss[..n][i] == ss[i];
        }
      }
    }
  }

  /** Sections that meet one of two exclusive predicates are counted once. */
  lemma {:induction false} CountSplit(ss: seq<Section>, p: Section -> bool, q: Section -> bool, pq: Section -> bool)
    requires forall s :: pq(s) == (p(s) || q(s)) && !(p(s) && q(s))
    ensures Count(ss, pq) == Count(ss, p) + Count(ss, q)
  {
    if |ss| > 0 {
      CountSplit(ss[..|ss| - 1], p, q, pq);
    }
  }

  predicate IsInteraction(s: Section) { s.sectionType == "Interaction" }
  predicate IsTrust(s: Section) { s.sectionType == "Trust" }
  predicate IsDecision(s: Section) { s.sectionType == "Decision" }
  predicate IsCapability(s: Section) { s.sectionType == "Capability" }
  predicate IsTension(s: Section) { s.sectionType == "Tension" }
  predicate IsContext(s: Section) { s.sectionType == "Context" }

  /** `section.meta?.status === "resolved"` */
  predicate IsResolved(s: Section) {
    s.meta.Some? && s.meta.value.status == Some(Resolved)
  }

  predicate IsResolvedTension(s: Section) { IsTension(s) && IsResolved(s) }
  predicate IsUnresolvedTension(s: Section) { IsTension(s) && !IsResolved(s) }

  /** `section.meta?.acknowledged_by` is truthy: present and not empty. */
  predicate IsAcknowledged(s: Section) {
    s.meta.Some? && s.meta.value.acknowledgedBy.Some? && s.meta.value.acknowledgedBy.value != ""
  }

  /** A section of one of the five types that move the trust score. */
  predicate IsScored(s: Section) {
    IsInteraction(s) || IsTrust(s) || IsDecision(s) || IsCapability(s) || IsTension(s)
  }

  // ---------------------------------------------------------------------------
  // deriveTrustScore

  /** The contribution of one section to `score` and to `maxScore`, in half
      units: every weight of the source is a multiple of 0.5. */
  function Weight(s: Section): (int, nat) {
    if IsInteraction(s) then (2, 2)
    else if IsTrust(s) then (4, 4)
    else if IsDecision(s) then (if IsAcknowledged(s) then 3 else 1, 3)
    else if IsCapability(s) then (2, 2)
    else if IsTension(s) then (if IsResolved(s) then 1 else -4, 1)
    else (0, 0)
  }

  /** `score` after the loop, in half units. */
  function ScoreUnits(ss: seq<Section>): int {
    if |ss| == 0 then 0 else ScoreUnits(ss[..|ss| - 1]) + Weight(ss[|ss| - 1]).0
  }

  /** `maxScore` after the loop, in half units. */
  function MaxUnits(ss: seq<Section>): nat {
    if |ss| == 0 then 0 else MaxUnits(ss[..|ss| - 1]) + Weight(ss[|ss| - 1]).1
  }

  /** The `factors` record: each counter counts the sections of its kind. */
  function FactorsOf(ss: seq<Section>): Factors {
    Factors(Count(ss, IsInteraction), Count(ss, IsTrust), Count(ss, IsDecision), Count(ss, IsCapability),
            Count(ss, IsResolvedTension), Count(ss, IsUnresolvedTension))
  }

  /** The `source_sections` list: one `"type: title"` line per section. */
  function SourceLines(ss: seq<Section>): (r: seq<string>)
    ensures |r| == |ss|
    ensures forall i :: 0 <= i < |ss| ==> r[i] == ss[i].sectionType + ": " + ss[i].title
  {
    if |ss| == 0 then []
    else
      var n := |ss| - 1;
      assert forall i :: 0 <= i < n ==> ss[..n][i] == ss[i];
      SourceLines(ss[..n]) + [ss[n].sectionType + ": " + ss[n].title]
  }

  function Clamp(x: real): real {
    if x < 0.0 then 0.0 else if x > 1.0 then 1.0 else x
  }

  /** `maxScore > 0 ? Math.max(0, Math.min(1, score / maxScore)) : 0`; the
      half units cancel in the quotient. */
  function Normalized(score2: int, max2: nat): real {
    if max2 > 0 then Clamp(score2 as real / max2 as real) else 0.0
  }

  /** `Math.round(x * 1000) / 1000`, in exact arithmetic. */
  function RoundMillis(x: real): real {
    ((x * 1000.0 + 0.5).Floor as real) / 1000.0
  }

  /** The score `deriveTrustScore` reports for a list of sections. */
  function TrustScore(ss: seq<Section>): real {
    RoundMillis(Normalized(ScoreUnits(ss), MaxUnits(ss)))
  }

  /** One more section of each kind it counts as. */
  function Bump(f: Factors, s: Section): Factors {
    Factors(
      f.interactions + (if IsInteraction(s) then 1 else 0),
      f.trustSignals + (if IsTrust(s) then 1 else 0),
      f.decisions + (if IsDecision(s) then 1 else 0),
      f.capabilities + (if IsCapability(s) then 1 else 0),
      f.resolvedTensions + (if IsResolvedTension(s) then 1 else 0),
      f.unresolvedTensions + (if IsUnresolvedTension(s) then 1 else 0))
  }

  /** What one more section does to the three accumulators. */
  lemma TallyStep(ss: seq<Section>, i: nat)
    requires i < |ss|
    ensures FactorsOf(ss[..i + 1]) == Bump(FactorsOf(ss[..i]), ss[i])
    ensures ScoreUnits(ss[..i + 1]) == ScoreUnits(ss[..i]) + Weight(ss[i]).0
    ensures MaxUnits(ss[..i + 1]) == MaxUnits(ss[..i]) + Weight(ss[i]).1
    ensures SourceLines(ss[..i + 1]) == SourceLines(ss[..i]) + [ss[i].sectionType + ": " + ss[i].title]
  {
    assert ss[..i + 1][..i] == ss[..i];
    CountSnoc(ss, i, IsInteraction);
    CountSnoc(ss, i, IsTrust);
    CountSnoc(ss, i, IsDecision);
    CountSnoc(ss, i, IsCapability);
    CountSnoc(ss, i, IsResolvedTension);
    CountSnoc(ss, i, IsUnresolvedTension);
  }

  /** The body of the loop of `deriveTrustScore`: the `switch` on the type. */
  method Tally(s: Section, score2: int, max2: nat, factors: Factors) returns (score2': int, max2': nat, factors': Factors)
    ensures score2' == score2 + Weight(s).0 && max2' == max2 + Weight(s).1
    ensures factors' == Bump(factors, s)
  {
    score2', max2', factors' := score2, max2, factors;
    if s.sectionType == "Interaction" {
      score2', max2' := score2 + 2, max2 + 2;
      factors' := factors.(interactions := factors.interactions + 1);
    } else if s.sectionType == "Trust" {
      score2', max2' := score2 + 4, max2 + 4;
      factors' := factors.(trustSignals := factors.trustSignals + 1);
    } else if s.sectionType == "Decision" {
      if s.meta.Some? && s.meta.value.acknowledgedBy.Some? && s.meta.value.acknowledgedBy.value != "" {
        score2' := score2 + 3;
      } else {
        score2' := score2 + 1;
      }
      max2' := max2 + 3;
      factors' := factors.(decisions := factors.decisions + 1);
    } else if s.sectionType == "Capability" {
      score2', max2' := score2 + 2, max2 + 2;
      factors' := factors.(capabilities := factors.capabilities + 1);
    } else if s.sectionType == "Tension" {
      if s.meta.Some? && s.meta.value.status == Some(Resolved) {
        score2' := score2 + 1;
        factors' := factors.(resolvedTensions := factors.resolvedTensions + 1);
      } else {
        score2' := score2 - 4;
        factors' := factors.(unresolvedTensions := factors.unresolvedTensions + 1);
      }
      max2' := max2 + 1;
    }
  }

  /** `deriveTrustScore`: one pass over the sections. */
  method DeriveTrustScore(doc: Document, now: string) returns (r: DerivedScore)
    ensures r.algorithm == "trust_simple_v1" && r.computedAt == now
    ensures r.score == TrustScore(doc.sections)
    ensures r.factors == FactorsOf(doc.sections)
    ensures r.sourceSections == SourceLines(doc.sections)
    ensures r.sourceEpoch == doc.frontmatter.epoch
  {
    var ss := doc.sections;
    var factors := Factors(0, 0, 0, 0, 0, 0);
    var sources: seq<string> := [];
    var score2: int := 0;
    var max2: nat := 0;
    for i := 0 to |ss|
      invariant factors == FactorsOf(ss[..i])
      invariant sources == SourceLines(ss[..i])
      invariant score2 == ScoreUnits(ss[..i]) && max2 == MaxUnits(ss[..i])
    {
      TallyStep(ss, i);
      sources := sources + [ss[i].sectionType + ": " + ss[i].title];
      score2, max2, factors := Tally(ss[i], score2, max2, factors);
    }
    assert ss[..|ss|] == ss;
    var normalized := if max2 > 0 then Clamp(score2 as real / max2 as real) else 0.0;
    r := DerivedScore("trust_simple_v1", RoundMillis(normalized), factors, sources, now, doc.frontmatter.epoch);
  }

  /** Rounding to thousandths keeps a value of the unit interval inside it. */
  lemma RoundMillisInUnit(x: real)
    requires 0.0 <= x <= 1.0
    ensures 0.0 <= RoundMillis(x) <= 1.0
  {
    var y := x * 1000.0 + 0.5;
    assert 0.5 <= y <= 1000.5;
    assert 0 <= y.Floor <= 1000;
  }

  /** The score lies between 0 and 1. */
  lemma TrustScoreInUnit(ss: seq<Section>)
    ensures 0.0 <= TrustScore(ss) <= 1.0
  {
    RoundMillisInUnit(Normalized(ScoreUnits(ss), MaxUnits(ss)));
  }

  /** Sections of the other types add nothing to `maxScore`. */
  lemma {:induction false} MaxUnitsZero(ss: seq<Section>)
    ensures MaxUnits(ss) == 0 <==> forall i :: 0 <= i < |ss| ==> !IsScored(ss[i])
  {
    if |ss| > 0 {
      var n := |ss| - 1;
      MaxUnitsZero(ss[..n]);
      assert forall i :: 0 <= i < n ==> ss[..n][i] == ss[i];
    }
  }

  /** Without an Interaction, Trust, Decision, Capability or Tension section
      the score is 0. */
  lemma TrustScoreWithoutScoredSections(ss: seq<Section>)
    requires forall i :: 0 <= i < |ss| ==> !IsScored(ss[i])
    ensures TrustScore(ss) == 0.0
  {
    MaxUnitsZero(ss);
  }

  /** A section earns its full weight unless it is an unacknowledged Decision
      or an unresolved Tension. */
  predicate IsFullMarks(s: Section) {
    !(IsDecision(s) && !IsAcknowledged(s)) && !IsUnresolvedTension(s)
  }

  lemma {:induction false} FullMarksUnits(ss: seq<Section>)
    requires forall i :: 0 <= i < |ss| ==> IsFullMarks(ss[i])
    ensures ScoreUnits(ss) == MaxUnits(ss)
  {
    if |ss| > 0 {
      var n := |ss| - 1;
      assert forall i :: 0 <= i < n ==> ss[..n][i] == ss[i];
      FullMarksUnits(ss[..n]);
    }
  }

  /** A record with at least one scored section, each earning its full weight,
      scores exactly 1. */
  lemma TrustScoreFullMarks(ss: seq<Section>)
    requires forall i :: 0 <= i < |ss| ==> IsFullMarks(ss[i])
    requires exists i :: 0 <= i < |ss| && IsScored(ss[i])
    ensures TrustScore(ss) == 1.0
  {
    FullMarksUnits(ss);
    MaxUnitsZero(ss);
    NormalizedFull(MaxUnits(ss));
    assert RoundMillis(1.0) == 1.0 by {
      assert (1.0 * 1000.0 + 0.5).Floor == 1000;
    }
  }

  lemma NormalizedFull(m: nat)
    requires m > 0
    ensures Normalized(m, m) == 1.0
  {
    assert m as real / m as real == 1.0;
  }

  /** Every Tension is either resolved or not, so the two tension counters
      add up to the number of Tension sections. */
  lemma TensionCounters(ss: seq<Section>)
    ensures FactorsOf(ss).resolvedTensions + FactorsOf(ss).unresolvedTensions == Count(ss, IsTension)
  {
    CountSplit(ss, IsResolvedTension, IsUnresolvedTension, IsTension);
  }

  // ---------------------------------------------------------------------------
  // assessCollaborationReadiness

  /** `s.meta?.x402 || s.meta?.tags?.includes("payment") ||
      s.content.toLowerCase().includes("payment")` */
  predicate MentionsPayment(s: Section) {
    || (s.meta.Some? && s.meta.value.x402.Some?)
    || (s.meta.Some? && s.meta.value.tags.Some? && "payment" in s.meta.value.tags.value)
    || Contains(ToLower(s.content), "payment")
  }

  /** The step classifier on the interaction and decision counts. */
  function Level(interactions: nat, decisions: nat): ReadinessLevel {
    if interactions == 0 then New
    else if interactions < 3 then Emerging
    else if interactions < 8 || decisions < 2 then Established
    else Mature
  }

  function Rank(l: ReadinessLevel): nat {
    match l
    case New => 0
    case Emerging => 1
    case Established => 2
    case Mature => 3
  }

  /** `assessCollaborationReadiness` */
  function AssessCollaborationReadiness(doc: Document): (r: CollaborationReadiness)
    ensures r.interactionCount == Count(doc.sections, IsInteraction)
    ensures r.hasHistory <==> exists i :: 0 <= i < |doc.sections| && IsInteraction(doc.sections[i])
    ensures r.unresolvedTensions == Count(doc.sections, IsUnresolvedTension)
    ensures r.hasCommPreferences <==> exists i :: 0 <= i < |doc.sections| && IsContext(doc.sections[i])
    ensures r.hasSharedDecisions <==> exists i :: 0 <= i < |doc.sections| && IsDecision(doc.sections[i])
    ensures r.paymentHistory <==> exists i :: 0 <= i < |doc.sections| && MentionsPayment(doc.sections[i])
  {
    var ss := doc.sections;
    var interactions := Count(ss, IsInteraction);
    var decisions := Count(ss, IsDecision);
    CountPositive(ss, IsInteraction);
    CountPositive(ss, IsContext);
    CountPositive(ss, IsDecision);
    CountPositive(ss, MentionsPayment);
    CollaborationReadiness(
      interactions > 0, interactions, Count(ss, IsUnresolvedTension), Count(ss, IsContext) > 0,
      decisions > 0, Count(ss, MentionsPayment) > 0, Level(interactions, decisions))
  }

  /** The readiness steps: `new` without interactions, `emerging` for one or
      two, `mature` from eight interactions and two decisions on, and
      `established` in between. */
  lemma ReadinessLevels(doc: Document)
    ensures var r := AssessCollaborationReadiness(doc);
      var n := r.interactionCount;
      var d := Count(doc.sections, IsDecision);
      && (r.readinessLevel == New <==> n == 0)
      && (r.readinessLevel == Emerging <==> 1 <= n <= 2)
      && (r.readinessLevel == Established <==> 3 <= n && (n < 8 || d < 2))
      && (r.readinessLevel == Mature <==> 8 <= n && 2 <= d)
  {
  }

  /** More interactions or more decisions never lower the level. */
  lemma LevelMonotone(n: nat, d: nat, n': nat, d': nat)
    requires n <= n' && d <= d'
    ensures Rank(Level(n, d)) <= Rank(Level(n', d'))
  {
  }

  /** The readiness report and the trust score agree on the unresolved
      tensions. */
  lemma ReadinessAgreesWithScore(doc: Document)
    ensures AssessCollaborationReadiness(doc).unresolvedTensions == FactorsOf(doc.sections).unresolvedTensions
    ensures AssessCollaborationReadiness(doc).interactionCount == FactorsOf(doc.sections).interactions
  {
  }
}
