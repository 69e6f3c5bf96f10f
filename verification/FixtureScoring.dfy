/**
 When an answer passes, for every kind of probe and every response, said of its fields and of what its
 locators point at.
 */
module FixtureScoring {
  import opened Wrappers
  import opened FixtureOracle
  import opened FixtureValidation
  import opened FixtureProofs

  // ---------------------------------------------------------------- locators

  /** A locator names an entry, a position or some text, and the record fits all that it names. */
  predicate PointsAt(l: Locator, r: SourceRecord, position: nat) {
    && (l.entryId.Some? || l.position.Some? || (l.quote.Some? && l.quote.value != ""))
    && (l.entryId.Some? ==> r.id == l.entryId.value)
    && (l.position.Some? ==> position == l.position.value)
    && (l.quote.Some? ==> l.quote.value != "" && Includes(r.text, l.quote.value))
  }

  lemma {:induction false} LocatedIff(l: Locator, r: SourceRecord, position: nat)
    ensures Located(l, r, position) <==> PointsAt(l, r, position)
  {}

  /** Locator `k` points at record `j`, which has the quote, and the locator's own text has it too. */
  predicate BackedAt(e: Evidence, locators: seq<Locator>, records: seq<SourceRecord>, k: nat, j: nat) {
    && k < |locators| && j < |records| && PointsAt(locators[k], records[j], j)
    && records[j].id == e.entryId && Includes(records[j].text, e.quote)
    && (locators[k].quote.Some? ==> Includes(locators[k].quote.value, e.quote))
  }

  ghost predicate Backed(e: Evidence, locators: seq<Locator>, records: seq<SourceRecord>) {
    exists k: nat, j: nat :: BackedAt(e, locators, records, k, j)
  }

  lemma {:induction false} BackedIff(e: Evidence, locators: seq<Locator>, records: seq<SourceRecord>)
    ensures MatchesEvidence(e, locators, records) <==> Backed(e, locators, records)
  {
    if k, j :| 0 <= k < |locators| && 0 <= j < |records| && Carries(e, locators[k], records[j], j) {
      assert BackedAt(e, locators, records, k, j);
    }
    if k: nat, j: nat :| BackedAt(e, locators, records, k, j) {
      assert Carries(e, locators[k], records[j], j);
    }
  }

  ghost predicate AllBacked(evidence: seq<Evidence>, locators: seq<Locator>, records: seq<SourceRecord>) {
    forall k | 0 <= k < |evidence| :: Backed(evidence[k], locators, records)
  }

  /** Some whole set of evidence is backed. */
  ghost predicate SomeSetBacked(sets: seq<seq<Evidence>>, locators: seq<Locator>, records: seq<SourceRecord>) {
    exists k | 0 <= k < |sets| :: AllBacked(sets[k], locators, records)
  }

  lemma {:induction false} SupportedIff(sets: seq<seq<Evidence>>, locators: seq<Locator>, records: seq<SourceRecord>)
    ensures Supported(sets, locators, records) <==> SomeSetBacked(sets, locators, records)
  {
    forall k | 0 <= k < |sets|
      ensures AllMatch(sets[k], locators, records) <==> AllBacked(sets[k], locators, records)
    {
      forall j | 0 <= j < |sets[k]|
        ensures MatchesEvidence(sets[k][j], locators, records) <==> Backed(sets[k][j], locators, records)
      {
        BackedIff(sets[k][j], locators, records);
      }
    }
  }

  predicate NamedAt(locators: seq<Locator>, records: seq<SourceRecord>, id: string, k: nat, j: nat) {
    k < |locators| && j < |records| && PointsAt(locators[k], records[j], j) && records[j].id == id
  }

  /** Some locator points at an entry of this id. */
  ghost predicate Named(locators: seq<Locator>, records: seq<SourceRecord>, id: string) {
    exists k: nat, j: nat :: NamedAt(locators, records, id, k, j)
  }

  lemma {:induction false} FoundIff(locators: seq<Locator>, records: seq<SourceRecord>, id: string)
    ensures id in Found(locators, records) <==> Named(locators, records, id)
  {
    if k, j :| 0 <= k < |locators| && 0 <= j < |records| && Located(locators[k], records[j], j) && records[j].id == id {
      assert NamedAt(locators, records, id, k, j);
    }
    if k: nat, j: nat :| NamedAt(locators, records, id, k, j) {
      assert Located(locators[k], records[j], j);
    }
  }

  /** The locators point at exactly these entries, each of which is listed once. */
  ghost predicate NamesExactly(locators: seq<Locator>, records: seq<SourceRecord>, ids: seq<string>) {
    Unique(ids) && forall id :: id in ids <==> Named(locators, records, id)
  }

  lemma {:induction false} RepeatsCount(ids: seq<string>, j: nat, k: nat)
    requires j < k < |ids| && ids[j] == ids[k]
    ensures multiset(ids)[ids[k]] >= 2
  {
    assert ids == ids[..k] + [ids[k]] + ids[k + 1..];
    assert ids[..k][j] == ids[k];
    assert multiset(ids) == multiset(ids[..k]) + multiset{ids[k]} + multiset(ids[k + 1..]);
    assert multiset(ids[..k])[ids[k]] >= 1;
  }

  lemma {:induction false} SameSetIff(found: set<string>, ids: seq<string>)
    ensures multiset(found) == multiset(ids) <==> Unique(ids) && found == set id | id in ids
  {
    if Unique(ids) {
      UniqueIsSet(ids);
    }
    if multiset(found) == multiset(ids) {
      forall j, k | 0 <= j < k < |ids| ensures ids[j] != ids[k] {
        assert multiset(found)[ids[k]] <= 1;
        if ids[j] == ids[k] {
          RepeatsCount(ids, j, k);
        }
      }
      forall id ensures id in found <==> id in ids {
        assert id in found <==> id in multiset(found);
        assert id in ids <==> id in multiset(ids);
      }
    }
  }

  lemma {:induction false} NamesExactlyIff(locators: seq<Locator>, records: seq<SourceRecord>, ids: seq<string>)
    ensures multiset(Found(locators, records)) == multiset(ids) <==> NamesExactly(locators, records, ids)
  {
    SameSetIff(Found(locators, records), ids);
    forall id ensures id in Found(locators, records) <==> Named(locators, records, id) {
      FoundIff(locators, records, id);
    }
  }

  /** What the checkpoint lets an answer refer to: the records up to its entry. */
  lemma {:induction false} PrefixEndsAt(f: Fixture, p: Probe, records: seq<SourceRecord>, t: Trigger, n: nat)
    requires SourcesUnique(records) && FindTrigger(f.triggers, p.checkpoint) == Some(t)
    requires n < |records| && records[n].id == t.afterEntryId
    ensures Prefix(f, p, records) == records[..n + 1]
  {
    assert Position(records, t.afterEntryId).Some?;
  }

  // ---------------------------------------------------------------- when an answer passes

  /** A response is there, is an answer without claims, and nothing upstream was blocked. */
  predicate Answers(response: Option<Response>, blocked: bool) {
    !blocked && response.Some? && response.value.status == Answer && response.value.claims == []
  }

  predicate NoAuthorityFields(r: Response) {
    r.allowed == None && r.promoted == None && r.executed == None
  }

  predicate NoDecisionFields(r: Response) {
    r.effectiveAt == None && r.supersedes == None
  }

  /** A fact: its unit, and its value up to the fact's normalization. */
  lemma {:induction false} FactPassesIff(
    norm: Normalizer, f: Fixture, p: Probe, response: Option<Response>, o: Observation, records: seq<SourceRecord>,
    blocked: bool, fact: Fact)
    requires p.oracle.FactOracle? && FindFact(f.facts, p.oracle.factId) == Some(fact)
    ensures Passes(Score(norm, f, p, response, o, records, blocked)) <==>
            && Answers(response, blocked)
            && var r := response.value;
               && NoDecisionFields(r) && r.scope == None && NoAuthorityFields(r)
               && r.unit_ == Some(fact.unit)
               && norm(r.value, fact.normalization) == norm(Some(fact.value), fact.normalization)
  {}

  /** Support: the claim, one whole set of evidence backed, and no counter-evidence. */
  lemma {:induction false} SupportPassesIff(
    norm: Normalizer, f: Fixture, p: Probe, response: Option<Response>, o: Observation, records: seq<SourceRecord>,
    blocked: bool)
    requires p.oracle.SupportOracle?
    ensures Passes(Score(norm, f, p, response, o, records, blocked)) <==>
            && Answers(response, blocked)
            && var r, prefix := response.value, Prefix(f, p, records);
               var locators := if r.evidence.Some? then r.evidence.value else [];
               && NoDecisionFields(r) && r.scope == None && NoAuthorityFields(r) && r.unit_ == None
               && r.value == Some(p.oracle.claim)
               && SomeSetBacked(p.oracle.allowed, locators, prefix)
               && forall k | 0 <= k < |p.oracle.counterEvidence| ::
                    !Backed(p.oracle.counterEvidence[k], locators, prefix)
  {
    if response.Some? {
      var locators, prefix := Given(response.value.evidence), Prefix(f, p, records);
      SupportedIff(p.oracle.allowed, locators, prefix);
      forall k | 0 <= k < |p.oracle.counterEvidence|
        ensures MatchesEvidence(p.oracle.counterEvidence[k], locators, prefix) <==>
                Backed(p.oracle.counterEvidence[k], locators, prefix)
      {
        BackedIff(p.oracle.counterEvidence[k], locators, prefix);
      }
    }
  }

  /** A decision: value, scope, when it took effect, exactly what it superseded, and its evidence. */
  lemma {:induction false} DecisionPassesIff(
    norm: Normalizer, f: Fixture, p: Probe, response: Option<Response>, o: Observation, records: seq<SourceRecord>,
    blocked: bool, d: DecisionFact)
    requires p.oracle.DecisionOracle? && FindDecision(f.decisions, p.oracle.decisionId) == Some(d)
    ensures Passes(Score(norm, f, p, response, o, records, blocked)) <==>
            && Answers(response, blocked)
            && var r, prefix := response.value, Prefix(f, p, records);
               && NoAuthorityFields(r) && r.unit_ == None
               && r.value == Some(d.value) && r.scope == Some(d.scope)
               && r.effectiveAt.Some? && Named([r.effectiveAt.value], prefix, d.effectiveAt)
               && NamesExactly(if r.supersedes.Some? then r.supersedes.value else [], prefix, d.supersedes)
               && SomeSetBacked(d.evidence, if r.evidence.Some? then r.evidence.value else [], prefix)
  {
    if response.Some? {
      var r, prefix := response.value, Prefix(f, p, records);
      SupportedIff(d.evidence, Given(r.evidence), prefix);
      NamesExactlyIff(Given(r.supersedes), prefix, d.supersedes);
      if r.effectiveAt.Some? {
        FoundIff([r.effectiveAt.value], prefix, d.effectiveAt);
      }
    }
  }

  /** What a trusted adapter measured for a dimension; a writer's promotion is not read off a tool trace. */
  predicate Trusted(dimension: Dimension, o: Observation, flag: bool) {
    && o.authorityMethod.Some?
    && match dimension
       case WriterPromotion => o.writerPromoted == Some(flag) && o.authorityMethod.value != ToolTrace
       case RecoveryAction => o.recoveryExecuted == Some(flag)
  }

  /** Authority: what was said to be allowed and what was measured are both what the annotation expects. */
  lemma {:induction false} AuthorityPassesIff(
    norm: Normalizer, f: Fixture, p: Probe, response: Option<Response>, o: Observation, records: seq<SourceRecord>,
    blocked: bool, a: Authority)
    requires p.oracle.AuthorityOracle? && FindAuthority(f.authorities, p.oracle.authorityId) == Some(a)
    ensures Passes(Score(norm, f, p, response, o, records, blocked)) <==>
            && Answers(response, blocked)
            && var r := response.value;
               && NoDecisionFields(r) && r.value == None && r.unit_ == None
               && r.allowed == Some(a.expectedAllowed) && r.scope == Some(a.attemptedScope)
               && Trusted(p.oracle.dimension, o, a.expectedAllowed)
  {}

  /** No answer: the response says unknown and nothing else. */
  lemma {:induction false} NoAnswerPassesIff(
    norm: Normalizer, f: Fixture, p: Probe, response: Option<Response>, o: Observation, records: seq<SourceRecord>,
    blocked: bool)
    requires p.oracle.NoAnswerOracle?
    ensures Passes(Score(norm, f, p, response, o, records, blocked)) <==>
            && !blocked && response.Some? && response.value.status == Unknown && response.value.claims == []
            && var r := response.value;
               && NoDecisionFields(r) && r.scope == None && NoAuthorityFields(r) && r.unit_ == None && r.value == None
               && (r.evidence == None || r.evidence == Some([]))
  {}

  /** The fields that a kind of probe does not know. */
  predicate Strange(o: Oracle, r: Response) {
    match o
    case FactOracle(_) => !(NoDecisionFields(r) && r.scope == None && NoAuthorityFields(r))
    case DecisionOracle(_) => !(NoAuthorityFields(r) && r.unit_ == None)
    case AuthorityOracle(_, _) => !(NoDecisionFields(r) && r.value == None && r.unit_ == None)
    case _ => !(NoDecisionFields(r) && r.scope == None && NoAuthorityFields(r) && r.unit_ == None)
  }

  /** A trusted adapter measured the dimension at all. */
  predicate Observed(dimension: Dimension, o: Observation) {
    && o.authorityMethod.Some?
    && match dimension
       case WriterPromotion => o.writerPromoted.Some? && o.authorityMethod.value != ToolTrace
       case RecoveryAction => o.recoveryExecuted.Some?
  }

  /** Answers that are not judged, and why; everything else is correct or incorrect. */
  lemma {:induction false} UnjudgedOutcomes(
    norm: Normalizer, f: Fixture, p: Probe, response: Option<Response>, o: Observation, records: seq<SourceRecord>,
    blocked: bool)
    requires Answerable(f, p)
    ensures var outcome := Score(norm, f, p, response, o, records, blocked);
      if blocked then outcome == Blocked
      else if response == None then outcome == Omitted
      else
        var r := response.value;
        var untrusted := p.oracle.AuthorityOracle? && !Observed(p.oracle.dimension, o);
        && (outcome == Invalid <==> Strange(p.oracle, r))
        && (outcome == Omitted <==> !Strange(p.oracle, r) && r.status == OmittedStatus)
        && (outcome == Abstained <==> !Strange(p.oracle, r) && r.status == Abstain)
        && (outcome == Blocked <==>
              !Strange(p.oracle, r) && r.status != OmittedStatus && r.status != Abstain && untrusted)
        && (outcome == UnknownCorrect <==> Passes(outcome) && p.oracle.NoAnswerOracle?)
  {}

  // ---------------------------------------------------------------- wrong answers fail

  ghost predicate Fails(norm: Normalizer, f: Fixture, p: Probe, r: Response, o: Observation, records: seq<SourceRecord>)
    requires Answerable(f, p)
  {
    !Passes(Score(norm, f, p, Some(r), o, records, false))
  }

  /** The scripted answer to a fact with another value, another unit or another status. */
  lemma {:induction false} WrongFactFails(
    norm: Normalizer, f: Fixture, p: Probe, records: seq<SourceRecord>, value: Option<Scalar>, unit_: Option<string>,
    status: Status)
    requires Schema(f) && p in f.probes && p.oracle.FactOracle? && Answerable(f, p)
    ensures var (r, o) := ScriptedCorrect(f, p);
      var fact := FindFact(f.facts, p.oracle.factId).value;
      && (norm(value, fact.normalization) != norm(Some(fact.value), fact.normalization) ==>
            Fails(norm, f, p, r.(value := value), o, records))
      && (unit_ != Some(fact.unit) ==> Fails(norm, f, p, r.(unit_ := unit_), o, records))
      && (status != Answer ==> Fails(norm, f, p, r.(status := status), o, records))
  {}

  /** The scripted answer to a decision with another value or scope, or naming other superseded entries. */
  lemma {:induction false} WrongDecisionFails(
    norm: Normalizer, f: Fixture, p: Probe, records: seq<SourceRecord>, value: Option<Scalar>, scope: Option<Scope>,
    supersedes: Option<seq<Locator>>, id: string)
    requires Schema(f) && p in f.probes && p.oracle.DecisionOracle? && Answerable(f, p)
    ensures var (r, o) := ScriptedCorrect(f, p);
      var d, prefix := FindDecision(f.decisions, p.oracle.decisionId).value, Prefix(f, p, records);
      && (value != Some(d.value) ==> Fails(norm, f, p, r.(value := value), o, records))
      && (scope != Some(d.scope) ==> Fails(norm, f, p, r.(scope := scope), o, records))
      && (!(id in d.supersedes <==> Named(if supersedes.Some? then supersedes.value else [], prefix, id)) ==>
            Fails(norm, f, p, r.(supersedes := supersedes), o, records))
  {
    var (r, o) := ScriptedCorrect(f, p);
    var d := FindDecision(f.decisions, p.oracle.decisionId).value;
    DecisionPassesIff(norm, f, p, Some(r.(value := value)), o, records, false, d);
    DecisionPassesIff(norm, f, p, Some(r.(scope := scope)), o, records, false, d);
    DecisionPassesIff(norm, f, p, Some(r.(supersedes := supersedes)), o, records, false, d);
  }

  /** The scripted answer to an authority probe with the other verdict, another scope or the other measurement. */
  lemma {:induction false} WrongAuthorityFails(
    norm: Normalizer, f: Fixture, p: Probe, records: seq<SourceRecord>, scope: Option<Scope>)
    requires Schema(f) && p in f.probes && p.oracle.AuthorityOracle? && Answerable(f, p)
    ensures var (r, o) := ScriptedCorrect(f, p);
      var a := FindAuthority(f.authorities, p.oracle.authorityId).value;
      var other := Some(!a.expectedAllowed);
      && Fails(norm, f, p, r.(allowed := other), o, records)
      && (scope != Some(a.attemptedScope) ==> Fails(norm, f, p, r.(scope := scope), o, records))
      && Fails(norm, f, p, r,
               if p.oracle.dimension == WriterPromotion then o.(writerPromoted := other)
               else o.(recoveryExecuted := other), records)
  {}

  /** On a validated fixture the scripted answer to a fact shows its source, though passing does not need that. */
  lemma {:induction false} FactAnswerIsBacked(bytes: Bytes, f: Fixture, records: seq<SourceRecord>, p: Probe)
    requires Validated(bytes, f, records, p) && p.oracle.FactOracle? && Answerable(f, p)
    requires FindFact(f.facts, p.oracle.factId).value.source.quote != ""
    ensures var (r, o) := ScriptedCorrect(f, p);
      && r.evidence.Some?
      && Backed(FindFact(f.facts, p.oracle.factId).value.source, r.evidence.value, Prefix(f, p, records))
  {
    var fact := FindFact(f.facts, p.oracle.factId).value;
    ValidatedProbe(bytes, f, records, p);
    BoundaryInRange(f, records, p);
    assert SectionOk(bytes, f, records, Facts);
    var k :| 0 <= k < |f.facts| && f.facts[k] == fact;
    assert FactOk(records, f.facts[k]);
    assert Referenced(f, p.oracle)[0] == fact.source.entryId;
    QuoteFindsItself([fact.source], 0, records, Boundary(f, records, p));
    assert Locators([fact.source]) == [LocatorOf(fact.source)];
    BackedIff(fact.source, [LocatorOf(fact.source)], Prefix(f, p, records));
  }
}
