/** Validated fixtures, scripted answers and the scorer agree. */
module FixtureProofs {
  import opened Wrappers
  import opened FixtureOracle
  import opened FixtureValidation

  // ---------------------------------------------------------------- what a validated probe can see

  /** The probe was validated together with its fixture and records. */
  ghost predicate Validated(bytes: Bytes, f: Fixture, records: seq<SourceRecord>, p: Probe) {
    Schema(f) && Valid(bytes, f, records) && p in f.probes
  }

  lemma {:induction false} ValidatedProbe(bytes: Bytes, f: Fixture, records: seq<SourceRecord>, p: Probe)
    requires Validated(bytes, f, records, p)
    ensures ProbeOk(f, records, p) && ProbeSchema(p) && SourcesUnique(records) && Answerable(f, p)
    ensures Prefix(f, p, records) == records[..Boundary(f, records, p) + 1]
  {
    assert SectionOk(bytes, f, records, Sources) && SectionOk(bytes, f, records, Probes);
    var k :| 0 <= k < |f.probes| && f.probes[k] == p;
    assert ProbeOk(f, records, f.probes[k]) && ProbeSchema(f.probes[k]);
  }

  /** An entry at or before the checkpoint is the record of its id in the prefix. */
  lemma {:induction false} Visible(records: seq<SourceRecord>, boundary: int, id: string)
    requires Earlier(records, id, boundary) && -1 <= boundary < |records|
    ensures At(records, id) <= boundary && records[At(records, id)].id == id
    ensures records[..boundary + 1][At(records, id)] == records[At(records, id)]
  {}

  /** A quote finds itself through its own locator. */
  lemma {:induction false} QuoteFindsItself(evidence: seq<Evidence>, k: nat, records: seq<SourceRecord>, boundary: int)
    requires k < |evidence| && evidence[k].quote != "" && -1 <= boundary < |records|
    requires HasEvidence(records, evidence[k]) && Earlier(records, evidence[k].entryId, boundary)
    ensures MatchesEvidence(evidence[k], Locators(evidence), records[..boundary + 1])
  {
    var e, prefix := evidence[k], records[..boundary + 1];
    Visible(records, boundary, e.entryId);
    var j := At(records, e.entryId);
    IncludesItself(e.quote);
    assert Locators(evidence)[k] == LocatorOf(e);
    assert Carries(e, Locators(evidence)[k], prefix[j], j);
  }

  /** Every quote of a set can be seen. */
  predicate Shown(evidence: seq<Evidence>, records: seq<SourceRecord>, boundary: int) {
    forall k | 0 <= k < |evidence| ::
      evidence[k].quote != "" && HasEvidence(records, evidence[k]) && Earlier(records, evidence[k].entryId, boundary)
  }

  lemma {:induction false} FirstSetSupports(sets: seq<seq<Evidence>>, records: seq<SourceRecord>, boundary: int)
    requires |sets| > 0 && Shown(sets[0], records, boundary) && -1 <= boundary < |records|
    ensures Supported(sets, Locators(sets[0]), records[..boundary + 1])
  {
    forall k | 0 <= k < |sets[0]| ensures MatchesEvidence(sets[0][k], Locators(sets[0]), records[..boundary + 1]) {
      QuoteFindsItself(sets[0], k, records, boundary);
    }
    assert AllMatch(sets[0], Locators(sets[0]), records[..boundary + 1]);
  }

  /** The first evidence set is part of what validation looked at. */
  lemma {:induction false} FirstSetIsFlat(sets: seq<seq<Evidence>>, k: nat)
    requires |sets| > 0 && k < |sets[0]|
    ensures k < |Flat(sets)| && Flat(sets)[k] == sets[0][k]
  {}

  lemma {:induction false} BoundaryInRange(f: Fixture, records: seq<SourceRecord>, p: Probe)
    ensures -1 <= Boundary(f, records, p) < |records|
  {}

  // ---------------------------------------------------------------- decisions

  lemma {:induction false} EntryIsFound(records: seq<SourceRecord>, boundary: int, ids: seq<string>, k: nat)
    requires k < |ids| && -1 <= boundary < |records| && Earlier(records, ids[k], boundary)
    ensures ids[k] in Found(EntryLocators(ids), records[..boundary + 1])
  {
    var prefix := records[..boundary + 1];
    Visible(records, boundary, ids[k]);
    var j := At(records, ids[k]);
    assert EntryLocators(ids)[k] == Locator(Some(ids[k]), None, None);
    assert Located(EntryLocators(ids)[k], prefix[j], j) && prefix[j].id == ids[k];
  }

  /** Locating entries by id finds exactly those entries. */
  lemma {:induction false} EntriesAreFound(records: seq<SourceRecord>, boundary: int, ids: seq<string>)
    requires -1 <= boundary < |records| && forall k | 0 <= k < |ids| :: Earlier(records, ids[k], boundary)
    ensures Found(EntryLocators(ids), records[..boundary + 1]) == set id | id in ids
  {
    var found := Found(EntryLocators(ids), records[..boundary + 1]);
    forall id | id in ids ensures id in found {
      var k :| 0 <= k < |ids| && ids[k] == id;
      EntryIsFound(records, boundary, ids, k);
    }
    forall id | id in found ensures id in ids {
      var k, j :| 0 <= k < |ids| && 0 <= j < boundary + 1 &&
                  Located(EntryLocators(ids)[k], records[..boundary + 1][j], j) &&
                  records[..boundary + 1][j].id == id;
      assert EntryLocators(ids)[k].entryId == Some(ids[k]);
      assert id == ids[k];
    }
  }

  lemma {:induction false} UniqueIsSet(ids: seq<string>)
    requires Unique(ids)
    ensures multiset(set id | id in ids) == multiset(ids)
    decreases |ids|
  {
    if |ids| == 0 {
    } else {
      var init, last := ids[..|ids| - 1], ids[|ids| - 1];
      assert Unique(init) by {
        assert forall j, k | 0 <= j < k < |init| :: init[j] == ids[j] && init[k] == ids[k];
      }
      UniqueIsSet(init);
      assert ids == init + [last];
      assert last !in init;
      assert (set id | id in ids) == (set id | id in init) + {last};
    }
  }

  lemma {:induction false} DecisionIsOk(bytes: Bytes, f: Fixture, records: seq<SourceRecord>, d: DecisionFact)
    requires Schema(f) && Valid(bytes, f, records) && d in f.decisions
    ensures DecisionOk(records, d) && DecisionSchema(d)
  {
    assert SectionOk(bytes, f, records, Decisions);
    var k :| 0 <= k < |f.decisions| && f.decisions[k] == d;
    assert DecisionOk(records, f.decisions[k]) && DecisionSchema(f.decisions[k]);
  }

  /** The entries of a decision probe, as validation lists them. */
  lemma {:induction false} DecisionEntries(f: Fixture, records: seq<SourceRecord>, p: Probe, d: DecisionFact)
    requires ProbeOk(f, records, p) && p.oracle.DecisionOracle?
    requires FindDecision(f.decisions, p.oracle.decisionId) == Some(d)
    ensures Earlier(records, d.effectiveAt, Boundary(f, records, p))
    ensures forall k | 0 <= k < |d.supersedes| :: Earlier(records, d.supersedes[k], Boundary(f, records, p))
    ensures forall k | 0 <= k < |Flat(d.evidence)| ::
              Earlier(records, Flat(d.evidence)[k].entryId, Boundary(f, records, p))
  {
    var boundary, all := Boundary(f, records, p), Referenced(f, p.oracle);
    var n, m := |d.supersedes|, |Flat(d.evidence)|;
    assert all == [d.effectiveAt] + d.supersedes + EntryIds(Flat(d.evidence));
    assert all[0] == d.effectiveAt;
    forall k | 0 <= k < n ensures Earlier(records, d.supersedes[k], boundary) {
      assert all[1 + k] == d.supersedes[k];
    }
    forall k | 0 <= k < m ensures Earlier(records, Flat(d.evidence)[k].entryId, boundary) {
      assert all[1 + n + k] == Flat(d.evidence)[k].entryId;
    }
  }

  lemma {:induction false} DecisionShown(f: Fixture, records: seq<SourceRecord>, p: Probe, d: DecisionFact)
    requires ProbeOk(f, records, p) && p.oracle.DecisionOracle?
    requires FindDecision(f.decisions, p.oracle.decisionId) == Some(d)
    requires DecisionOk(records, d) && DecisionSchema(d)
    ensures Shown(d.evidence[0], records, Boundary(f, records, p))
  {
    DecisionEntries(f, records, p, d);
    forall k | 0 <= k < |d.evidence[0]|
      ensures HasEvidence(records, d.evidence[0][k])
      ensures Earlier(records, d.evidence[0][k].entryId, Boundary(f, records, p))
    {
      FirstSetIsFlat(d.evidence, k);
      assert EvidenceOk(records, Flat(d.evidence)[k], At(records, d.effectiveAt));
    }
    assert Quoted(d.evidence[0]);
  }

  lemma {:induction false} DecisionSatisfied(
    bytes: Bytes, norm: Normalizer, f: Fixture, records: seq<SourceRecord>, p: Probe)
    requires Validated(bytes, f, records, p) && p.oracle.DecisionOracle? && Answerable(f, p)
    ensures Satisfies(norm, f, p, ScriptedCorrect(f, p).0, ScriptedCorrect(f, p).1, Prefix(f, p, records))
  {
    ValidatedProbe(bytes, f, records, p);
    BoundaryInRange(f, records, p);
    var d, boundary := FindDecision(f.decisions, p.oracle.decisionId).value, Boundary(f, records, p);
    DecisionIsOk(bytes, f, records, d);
    DecisionEntries(f, records, p, d);
    DecisionShown(f, records, p, d);
    FirstSetSupports(d.evidence, records, boundary);
    EntriesAreFound(records, boundary, d.supersedes);
    UniqueIsSet(d.supersedes);
    EntryIsFound(records, boundary, [d.effectiveAt], 0);
    assert EntryLocators([d.effectiveAt]) == [Locator(Some(d.effectiveAt), None, None)];
  }

  // ---------------------------------------------------------------- support

  /** A quote of the scripted answer that carries counter-evidence. */
  predicate Betrays(c: Evidence, l: Evidence) {
    c.entryId == l.entryId && Includes(l.quote, c.quote)
  }

  predicate Betrayed(evidence: seq<Evidence>, counter: seq<Evidence>) {
    exists j, k | 0 <= j < |counter| && 0 <= k < |evidence| :: Betrays(counter[j], evidence[k])
  }

  lemma {:induction false} CounterMatchesIff(
    evidence: seq<Evidence>, c: Evidence, records: seq<SourceRecord>, boundary: int)
    requires -1 <= boundary < |records| && Shown(evidence, records, boundary)
    requires Earlier(records, c.entryId, boundary)
    ensures MatchesEvidence(c, Locators(evidence), records[..boundary + 1]) <==>
            exists k | 0 <= k < |evidence| :: Betrays(c, evidence[k])
  {
    var prefix := records[..boundary + 1];
    if k :| 0 <= k < |evidence| && Betrays(c, evidence[k]) {
      Visible(records, boundary, c.entryId);
      var j := At(records, c.entryId);
      assert Locators(evidence)[k] == LocatorOf(evidence[k]);
      IncludesTransitive(prefix[j].text, evidence[k].quote, c.quote);
      assert Carries(c, Locators(evidence)[k], prefix[j], j);
    }
    if MatchesEvidence(c, Locators(evidence), prefix) {
      var k, j :| 0 <= k < |evidence| && 0 <= j < |prefix| && Carries(c, Locators(evidence)[k], prefix[j], j);
      assert Locators(evidence)[k] == LocatorOf(evidence[k]);
      assert Betrays(c, evidence[k]);
    }
  }

  lemma {:induction false} SupportEntries(f: Fixture, records: seq<SourceRecord>, p: Probe)
    requires ProbeOk(f, records, p) && p.oracle.SupportOracle? && ProbeSchema(p)
    ensures Shown(p.oracle.allowed[0], records, Boundary(f, records, p))
    ensures forall k | 0 <= k < |p.oracle.counterEvidence| ::
              HasEvidence(records, p.oracle.counterEvidence[k]) &&
              Earlier(records, p.oracle.counterEvidence[k].entryId, Boundary(f, records, p))
  {
    var items, boundary := Flat(p.oracle.allowed) + p.oracle.counterEvidence, Boundary(f, records, p);
    forall k | 0 <= k < |items| ensures HasEvidence(records, items[k]) && Earlier(records, items[k].entryId, boundary) {
      assert Referenced(f, p.oracle)[k] == items[k].entryId;
    }
    forall k | 0 <= k < |p.oracle.allowed[0]| ensures items[k] == p.oracle.allowed[0][k] {
      FirstSetIsFlat(p.oracle.allowed, k);
    }
    assert Quoted(p.oracle.allowed[0]);
    forall k | 0 <= k < |p.oracle.counterEvidence|
      ensures items[|Flat(p.oracle.allowed)| + k] == p.oracle.counterEvidence[k] {}
  }

  lemma {:induction false} SupportSatisfiedIff(
    bytes: Bytes, norm: Normalizer, f: Fixture, records: seq<SourceRecord>, p: Probe)
    requires Validated(bytes, f, records, p) && p.oracle.SupportOracle? && Answerable(f, p)
    ensures Satisfies(norm, f, p, ScriptedCorrect(f, p).0, ScriptedCorrect(f, p).1, Prefix(f, p, records)) <==>
            !Betrayed(p.oracle.allowed[0], p.oracle.counterEvidence)
  {
    ValidatedProbe(bytes, f, records, p);
    BoundaryInRange(f, records, p);
    SupportEntries(f, records, p);
    var boundary, evidence, counter := Boundary(f, records, p), p.oracle.allowed[0], p.oracle.counterEvidence;
    FirstSetSupports(p.oracle.allowed, records, boundary);
    forall j | 0 <= j < |counter|
      ensures MatchesEvidence(counter[j], Locators(evidence), records[..boundary + 1]) <==>
              exists k | 0 <= k < |evidence| :: Betrays(counter[j], evidence[k])
    {
      CounterMatchesIff(evidence, counter[j], records, boundary);
    }
  }

  // ---------------------------------------------------------------- the agreement

  ghost function ScoreScripted(norm: Normalizer, f: Fixture, p: Probe, records: seq<SourceRecord>): Outcome
    requires Schema(f) && p in f.probes && Answerable(f, p)
  {
    Score(norm, f, p, Some(ScriptedCorrect(f, p).0), ScriptedCorrect(f, p).1, records, false)
  }

  /** Scripted answers only have fields of their kind and an observation where one is needed. */
  lemma {:induction false} ScriptedIsScored(norm: Normalizer, f: Fixture, p: Probe, records: seq<SourceRecord>)
    requires Schema(f) && p in f.probes && Answerable(f, p)
    ensures Passes(ScoreScripted(norm, f, p, records)) <==>
            Satisfies(norm, f, p, ScriptedCorrect(f, p).0, ScriptedCorrect(f, p).1, Prefix(f, p, records))
  {}

  /**
   On every fixture that validation accepts, the scripted answer to every fact, decision, authority
   and no-answer probe passes; a support probe's passes exactly when none of its quotes carries
   counter-evidence from the same entry.
   */
  lemma {:induction false} ScriptedAnswersPass(
    bytes: Bytes, norm: Normalizer, f: Fixture, records: seq<SourceRecord>, p: Probe)
    requires Validated(bytes, f, records, p)
    ensures Answerable(f, p)
    ensures Passes(ScoreScripted(norm, f, p, records)) <==>
            (p.oracle.SupportOracle? ==> !Betrayed(p.oracle.allowed[0], p.oracle.counterEvidence))
  {
    ValidatedProbe(bytes, f, records, p);
    ScriptedIsScored(norm, f, p, records);
    if p.oracle.SupportOracle? {
      SupportSatisfiedIff(bytes, norm, f, records, p);
    } else if p.oracle.DecisionOracle? {
      DecisionSatisfied(bytes, norm, f, records, p);
    }
  }

  // ---------------------------------------------------------------- validation alone is not enough

  /** One record whose text supports a claim and contains its counter-evidence. */
  function SelfDefeating(bytes: Bytes): (Fixture, seq<SourceRecord>) {
    var records := [SourceRecord("a", None, "assistant", "xy")];
    var tokens := SourceTokens(bytes, records);
    var oracle := SupportOracle(Text("claim"), [[Evidence("a", "xy")]], [Evidence("a", "x")], false);
    (Fixture(tokens, [Trigger("t", "a", tokens)], [], [], [], [Probe("p", "t", false, oracle, [])]), records)
  }

  lemma {:induction false} ItsSourcesAreOk(bytes: Bytes)
    ensures var (f, records) := SelfDefeating(bytes);
      && Position(records, "a") == Some(0) && HasSource(records, "a")
      && HasEvidence(records, Evidence("a", "xy")) && HasEvidence(records, Evidence("a", "x"))
      && Betrays(Evidence("a", "x"), Evidence("a", "xy"))
      && FindTrigger(f.triggers, "t") == Some(f.triggers[0]) && Boundary(f, records, f.probes[0]) == 0
  {
    IncludesItself("xy");
    assert Occurs("xy", "x", 0);
  }

  lemma {:induction false} ItsProbeIsOk(bytes: Bytes)
    ensures var (f, records) := SelfDefeating(bytes); ProbeOk(f, records, f.probes[0])
  {
    ItsSourcesAreOk(bytes);
    var (f, records) := SelfDefeating(bytes);
    var o := f.probes[0].oracle;
    assert Flat(o.allowed) == [Evidence("a", "xy")] by {
      assert o.allowed[1..] == [];
    }
    assert Flat(o.allowed) + o.counterEvidence == [Evidence("a", "xy"), Evidence("a", "x")];
    assert Referenced(f, o) == ["a", "a"];
  }

  lemma {:induction false} ItIsValid(bytes: Bytes)
    ensures var (f, records) := SelfDefeating(bytes); Schema(f) && Valid(bytes, f, records)
  {
    ItsSourcesAreOk(bytes);
    ItsProbeIsOk(bytes);
    var (f, records) := SelfDefeating(bytes);
    assert records[..1] == records;
    assert AnnotationIds(f) == ["p", "t"] && "p" != "t";
    assert TriggerAt(bytes, records, f.triggers, 0);
    forall s: Section ensures SectionOk(bytes, f, records, s) {
      match s {
        case Sources => case Chain => case Facts => case Decisions => case Authorities =>
        case Size => case Triggers => case Annotations => case Probes =>
      }
    }
  }

  /** Validation accepts a fixture whose own scripted answer to a support probe fails. */
  lemma {:induction false} ValidatedSupportCanFail(bytes: Bytes, norm: Normalizer)
    ensures var (f, records) := SelfDefeating(bytes);
      && Validated(bytes, f, records, f.probes[0])
      && !Passes(ScoreScripted(norm, f, f.probes[0], records))
  {
    ItIsValid(bytes);
    ItsSourcesAreOk(bytes);
    var (f, records) := SelfDefeating(bytes);
    ScriptedAnswersPass(bytes, norm, f, records, f.probes[0]);
    assert Betrays(f.probes[0].oracle.counterEvidence[0], f.probes[0].oracle.allowed[0][0]);
  }
}
