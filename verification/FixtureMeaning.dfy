/** What validation accepts, said of the records of a transcript and their positions. */
module FixtureMeaning {
  import opened Wrappers
  import opened FixtureOracle
  import opened FixtureValidation

  /** Record `i` is the entry of this id, and says something. */
  predicate Says(records: seq<SourceRecord>, id: string, i: nat) {
    i < |records| && records[i].id == id && records[i].text != ""
  }

  predicate Quotes(records: seq<SourceRecord>, e: Evidence, i: nat) {
    Says(records, e.entryId, i) && Includes(records[i].text, e.quote)
  }

  ghost predicate SaysBy(records: seq<SourceRecord>, id: string, limit: int) {
    exists i: nat :: Says(records, id, i) && i <= limit
  }

  ghost predicate QuotesBy(records: seq<SourceRecord>, e: Evidence, limit: int) {
    exists i: nat :: Quotes(records, e, i) && i <= limit
  }

  lemma {:induction false} PositionIs(records: seq<SourceRecord>, id: string, i: nat)
    requires SourcesUnique(records) && i < |records| && records[i].id == id
    ensures Position(records, id) == Some(i) && At(records, id) == i
  {}

  lemma {:induction false} SourceIff(records: seq<SourceRecord>, id: string, limit: int)
    requires SourcesUnique(records)
    ensures Earlier(records, id, limit) <==> SaysBy(records, id, limit)
    ensures HasSource(records, id) <==> exists i: nat :: Says(records, id, i)
    ensures HasSource(records, id) ==> Says(records, id, At(records, id))
  {
    if i: nat :| Says(records, id, i) {
      PositionIs(records, id, i);
    }
    if HasSource(records, id) {
      assert Says(records, id, Position(records, id).value);
    }
    if i: nat :| Says(records, id, i) && i <= limit {
      PositionIs(records, id, i);
    }
  }

  lemma {:induction false} EvidenceIff(records: seq<SourceRecord>, e: Evidence, limit: int)
    requires SourcesUnique(records)
    ensures EvidenceOk(records, e, limit) <==> QuotesBy(records, e, limit)
    ensures HasEvidence(records, e) <==> exists i: nat :: Quotes(records, e, i)
  {
    SourceIff(records, e.entryId, limit);
    if i: nat :| Quotes(records, e, i) {
      PositionIs(records, e.entryId, i);
    }
    if HasEvidence(records, e) {
      assert Quotes(records, e, Position(records, e.entryId).value);
    }
    if i: nat :| Quotes(records, e, i) && i <= limit {
      PositionIs(records, e.entryId, i);
    }
  }

  ghost predicate InTime(records: seq<SourceRecord>, fact: Fact, i: nat, j: nat) {
    Quotes(records, fact.source, i) && Says(records, fact.validAt, j) && i <= j
  }

  /** A fact has its declared type, and its source quotes it no later than it is valid. */
  lemma {:induction false} FactMeans(records: seq<SourceRecord>, fact: Fact)
    requires SourcesUnique(records)
    ensures FactOk(records, fact) <==>
            && (match fact.valueType
                case StringType => fact.value.Text?
                case NumberType => fact.value.Number?
                case BooleanType => fact.value.Boolean?)
            && exists i: nat, j: nat :: InTime(records, fact, i, j)
  {
    SourceIff(records, fact.validAt, 0);
    EvidenceIff(records, fact.source, 0);
    if i: nat, j: nat :| InTime(records, fact, i, j) {
      PositionIs(records, fact.source.entryId, i);
      PositionIs(records, fact.validAt, j);
    }
    if FactOk(records, fact) {
      assert InTime(records, fact, At(records, fact.source.entryId), At(records, fact.validAt));
    }
  }

  lemma {:induction false} FlatHas(sets: seq<seq<Evidence>>, e: Evidence)
    ensures e in Flat(sets) <==> exists k | 0 <= k < |sets| :: e in sets[k]
  {
    if |sets| == 0 {
    } else {
      FlatHas(sets[1..], e);
      if k :| 0 <= k < |sets| && e in sets[k] {
        assert k > 0 ==> sets[1..][k - 1] == sets[k];
      }
      if k :| 0 <= k < |sets[1..]| && e in sets[1..][k] {
        assert sets[k + 1] == sets[1..][k];
      }
    }
  }

  /** The decision takes effect at record `c`, after all it supersedes and no earlier than its evidence. */
  ghost predicate DecidedAt(records: seq<SourceRecord>, d: DecisionFact, c: nat) {
    && Says(records, d.effectiveAt, c)
    && (forall id | id in d.supersedes :: SaysBy(records, id, c - 1))
    && (forall e, k | 0 <= k < |d.evidence| && e in d.evidence[k] :: QuotesBy(records, e, c))
  }

  lemma {:induction false} DecisionMeans(records: seq<SourceRecord>, d: DecisionFact)
    requires SourcesUnique(records)
    ensures DecisionOk(records, d) <==> exists c: nat :: DecidedAt(records, d, c)
  {
    SourceIff(records, d.effectiveAt, 0);
    forall id, limit: int ensures Earlier(records, id, limit) <==> SaysBy(records, id, limit) {
      SourceIff(records, id, limit);
    }
    forall e, limit: int ensures EvidenceOk(records, e, limit) <==> QuotesBy(records, e, limit) {
      EvidenceIff(records, e, limit);
    }
    forall e ensures e in Flat(d.evidence) <==> exists k | 0 <= k < |d.evidence| :: e in d.evidence[k] {
      FlatHas(d.evidence, e);
    }
    if c: nat :| DecidedAt(records, d, c) {
      PositionIs(records, d.effectiveAt, c);
      DecidedOk(records, d, c);
    }
    if DecisionOk(records, d) {
      var c: nat := At(records, d.effectiveAt);
      assert DecidedAt(records, d, c) by {
        forall id | id in d.supersedes ensures SaysBy(records, id, c - 1) {
          var k :| 0 <= k < |d.supersedes| && d.supersedes[k] == id;
          assert Earlier(records, d.supersedes[k], c - 1);
        }
        forall e, k | 0 <= k < |d.evidence| && e in d.evidence[k] ensures QuotesBy(records, e, c) {
          assert e in Flat(d.evidence);
          var j :| 0 <= j < |Flat(d.evidence)| && Flat(d.evidence)[j] == e;
          assert EvidenceOk(records, Flat(d.evidence)[j], c);
        }
      }
    }
  }

  lemma {:induction false} DecidedOk(records: seq<SourceRecord>, d: DecisionFact, c: nat)
    requires SourcesUnique(records) && DecidedAt(records, d, c) && At(records, d.effectiveAt) == c
    ensures DecisionOk(records, d)
  {
    SourceIff(records, d.effectiveAt, 0);
    forall k | 0 <= k < |d.supersedes| ensures Earlier(records, d.supersedes[k], c - 1) {
      assert d.supersedes[k] in d.supersedes;
      SourceIff(records, d.supersedes[k], c - 1);
    }
    forall k | 0 <= k < |Flat(d.evidence)| ensures EvidenceOk(records, Flat(d.evidence)[k], c) {
      var e := Flat(d.evidence)[k];
      assert e in Flat(d.evidence);
      FlatHas(d.evidence, e);
      EvidenceIff(records, e, c);
    }
  }

  ghost predicate AuthorizedAt(records: seq<SourceRecord>, a: Authority, c: nat) {
    Says(records, a.effectiveAt, c) && forall id | id in a.sources :: SaysBy(records, id, c)
  }

  /** An authority takes effect no earlier than its sources, and only an original message is measured live. */
  lemma {:induction false} AuthorityMeans(records: seq<SourceRecord>, a: Authority)
    requires SourcesUnique(records)
    ensures AuthorityOk(records, a) <==>
            (exists c: nat :: AuthorizedAt(records, a, c)) && (!a.originalMessage ==> a.offlineOnly)
  {
    SourceIff(records, a.effectiveAt, 0);
    forall id, limit: int ensures Earlier(records, id, limit) <==> SaysBy(records, id, limit) {
      SourceIff(records, id, limit);
    }
    if c: nat :| AuthorizedAt(records, a, c) {
      PositionIs(records, a.effectiveAt, c);
      assert forall k | 0 <= k < |a.sources| :: a.sources[k] in a.sources;
    }
    if AuthorityOk(records, a) {
      var c: nat := At(records, a.effectiveAt);
      forall id | id in a.sources ensures SaysBy(records, id, c) {
        var k :| 0 <= k < |a.sources| && a.sources[k] == id;
        assert Earlier(records, a.sources[k], c);
      }
      assert AuthorizedAt(records, a, c);
    }
  }

  /** A text counts a third of its bytes, rounded up. */
  lemma {:induction false} TokensAddUp(bytes: Bytes, records: seq<SourceRecord>, r: SourceRecord)
    ensures SourceTokens(bytes, []) == 0
    ensures SourceTokens(bytes, records) <= SourceTokens(bytes, records + [r])
    ensures var tokens := SourceTokens(bytes, records + [r]) - SourceTokens(bytes, records);
      3 * tokens - 3 < bytes(r.text) <= 3 * tokens
  {
    assert (records + [r])[..|records|] == records;
  }

  /** Trigger `k` stands at record `b`, the end of an assistant's message, with the tokens so far. */
  predicate TriggersAt(bytes: Bytes, records: seq<SourceRecord>, t: Trigger, b: nat) {
    && Says(records, t.afterEntryId, b) && records[b].role == "assistant"
    && SourceTokens(bytes, records[..b + 1]) == t.cumulativeSourceTokens
  }

  /** The triggers stand at these records, each after the one before. */
  predicate Placed(bytes: Bytes, records: seq<SourceRecord>, triggers: seq<Trigger>, at: seq<nat>) {
    && |at| == |triggers| && (forall k | 0 <= k < |at| :: TriggersAt(bytes, records, triggers[k], at[k]))
    && (forall k | 0 < k < |at| :: at[k - 1] < at[k])
  }

  lemma {:induction false} TriggersMean(bytes: Bytes, records: seq<SourceRecord>, triggers: seq<Trigger>)
    requires SourcesUnique(records)
    ensures (forall k: nat | k < |triggers| :: TriggerAt(bytes, records, triggers, k)) <==>
            exists at :: Placed(bytes, records, triggers, at)
  {
    if at :| Placed(bytes, records, triggers, at) {
      forall k: nat | k < |triggers| ensures TriggerAt(bytes, records, triggers, k) {
        assert TriggersAt(bytes, records, triggers[k], at[k]);
        PositionIs(records, triggers[k].afterEntryId, at[k]);
        if k > 0 {
          assert TriggersAt(bytes, records, triggers[k - 1], at[k - 1]);
          PositionIs(records, triggers[k - 1].afterEntryId, at[k - 1]);
        }
      }
    }
    if forall k: nat | k < |triggers| :: TriggerAt(bytes, records, triggers, k) {
      forall k: nat | k < |triggers| ensures Position(records, triggers[k].afterEntryId).Some? {
        assert TriggerAt(bytes, records, triggers, k);
      }
      var at := seq(|triggers|, k requires 0 <= k < |triggers| =>
        Position(records, triggers[k].afterEntryId).value);
      forall k: nat | k < |at| ensures TriggersAt(bytes, records, triggers[k], at[k]) && (k > 0 ==> at[k - 1] < at[k]) {
        assert TriggerAt(bytes, records, triggers, k);
        assert Says(records, triggers[k].afterEntryId, at[k]);
      }
      assert Placed(bytes, records, triggers, at);
    }
  }

  // ---------------------------------------------------------------- probes

  /** The entry is the source of one of the probe's early facts. */
  ghost predicate EarlyEntry(f: Fixture, p: Probe, id: string) {
    exists name | name in p.earlyFactIds :: IsSource(f, name, id)
  }

  predicate IsSource(f: Fixture, name: string, id: string) {
    FindFact(f.facts, name).Some? && id == FindFact(f.facts, name).value.source.entryId
  }

  /** The entries that a gold answer rests on. */
  ghost predicate GoldEntry(f: Fixture, o: Oracle, id: string) {
    match o
    case FactOracle(name) =>
      var fact := FindFact(f.facts, name);
      fact.Some? && (id == fact.value.source.entryId || id == fact.value.validAt)
    case SupportOracle(_, allowed, counter, _) => QuotedIn(allowed, id) || QuotedIn([counter], id)
    case DecisionOracle(name) =>
      var d := FindDecision(f.decisions, name);
      d.Some? && (id == d.value.effectiveAt || id in d.value.supersedes || QuotedIn(d.value.evidence, id))
    case AuthorityOracle(name, _) =>
      var a := FindAuthority(f.authorities, name);
      a.Some? && (id == a.value.effectiveAt || id in a.value.sources)
    case NoAnswerOracle => false
  }

  /** Some quote of some set is of this entry. */
  predicate QuotedIn(sets: seq<seq<Evidence>>, id: string) {
    exists k, j | 0 <= k < |sets| && 0 <= j < |sets[k]| :: sets[k][j].entryId == id
  }

  ghost predicate RestsOn(f: Fixture, p: Probe, id: string) {
    EarlyEntry(f, p, id) || GoldEntry(f, p.oracle, id)
  }

  lemma {:induction false} EntryIdsHave(evidence: seq<Evidence>, id: string)
    ensures id in EntryIds(evidence) <==> exists e | e in evidence :: id == e.entryId
  {
    if id in EntryIds(evidence) {
      var k :| 0 <= k < |evidence| && EntryIds(evidence)[k] == id;
      assert evidence[k] in evidence;
    }
    if e :| e in evidence && id == e.entryId {
      var k :| 0 <= k < |evidence| && evidence[k] == e;
      assert EntryIds(evidence)[k] == id;
    }
  }

  lemma {:induction false} FlatEntries(sets: seq<seq<Evidence>>, id: string)
    ensures id in EntryIds(Flat(sets)) <==> QuotedIn(sets, id)
  {
    EntryIdsHave(Flat(sets), id);
    if e: Evidence :| e in Flat(sets) && id == e.entryId {
      FlatHas(sets, e);
      var k :| 0 <= k < |sets| && e in sets[k];
      var j :| 0 <= j < |sets[k]| && sets[k][j] == e;
    }
    if k, j :| 0 <= k < |sets| && 0 <= j < |sets[k]| && sets[k][j].entryId == id {
      FlatHas(sets, sets[k][j]);
      assert sets[k][j] in sets[k];
      assert sets[k][j] in Flat(sets);
    }
  }

  lemma {:induction false} EntryIdsConcat(a: seq<Evidence>, b: seq<Evidence>)
    ensures EntryIds(a + b) == EntryIds(a) + EntryIds(b)
  {}

  lemma {:induction false} FlatOne(counter: seq<Evidence>)
    ensures Flat([counter]) == counter
  {
    assert [counter][1..] == [];
  }

  lemma {:induction false} GoldIff(f: Fixture, o: Oracle, id: string)
    ensures GoldEntry(f, o, id) <==> id in Referenced(f, o)
  {
    match o
    case SupportOracle(_, allowed, counter, _) =>
      EntryIdsConcat(Flat(allowed), counter);
      FlatEntries(allowed, id);
      FlatOne(counter);
      FlatEntries([counter], id);
    case DecisionOracle(name) =>
      if FindDecision(f.decisions, name).Some? {
        FlatEntries(FindDecision(f.decisions, name).value.evidence, id);
      }
    case FactOracle(_) =>
    case AuthorityOracle(_, _) =>
    case NoAnswerOracle =>
  }

  /** An evidence set names two entries at least when it is to be joint, and is a single quote otherwise. */
  predicate Alternative(evidence: seq<Evidence>, joint: bool) {
    if joint then exists i, j :: 0 <= i < j < |evidence| && evidence[i].entryId != evidence[j].entryId
    else |evidence| == 1
  }

  lemma {:induction false} TwoEntries(evidence: seq<Evidence>)
    ensures |EntrySet(evidence)| >= 2 <==>
            exists i, j :: 0 <= i < j < |evidence| && evidence[i].entryId != evidence[j].entryId
  {
    var ids := EntrySet(evidence);
    if i, j :| 0 <= i < j < |evidence| && evidence[i].entryId != evidence[j].entryId {
      assert evidence[i] in evidence && evidence[j] in evidence;
      assert {evidence[i].entryId, evidence[j].entryId} <= ids;
      SubsetSize({evidence[i].entryId, evidence[j].entryId}, ids);
    } else if evidence != [] {
      assert forall e | e in evidence :: e.entryId == evidence[0].entryId by {
        forall e | e in evidence ensures e.entryId == evidence[0].entryId {
          var k :| 0 <= k < |evidence| && evidence[k] == e;
        }
      }
      assert evidence[0] in evidence;
      assert ids == {evidence[0].entryId};
    } else {
      assert ids == {};
    }
  }

  lemma {:induction false} SubsetSize(a: set<string>, b: set<string>)
    requires a <= b
    ensures |a| <= |b|
    decreases |a|
  {
    if a == {} {
    } else {
      var x :| x in a;
      SubsetSize(a - {x}, b - {x});
    }
  }

  lemma {:induction false} JointIff(evidence: seq<Evidence>, joint: bool)
    ensures Joint(evidence, joint) <==> Alternative(evidence, joint)
  {
    TwoEntries(evidence);
  }

  ghost predicate QuotedSomewhere(records: seq<SourceRecord>, e: Evidence) {
    exists i: nat :: Quotes(records, e, i)
  }

  /** What a support probe asks of its own annotations: every quote, for or against, is in its entry. */
  ghost predicate SupportMeant(records: seq<SourceRecord>, o: Oracle) {
    o.SupportOracle? ==>
      && (forall k | 0 <= k < |o.allowed| :: Alternative(o.allowed[k], o.jointRequired))
      && (forall k, j | 0 <= k < |o.allowed| && 0 <= j < |o.allowed[k]| :: QuotedSomewhere(records, o.allowed[k][j]))
      && (forall j | 0 <= j < |o.counterEvidence| :: QuotedSomewhere(records, o.counterEvidence[j]))
  }

  lemma {:induction false} SupportMeans(records: seq<SourceRecord>, o: Oracle)
    requires SourcesUnique(records)
    ensures SupportOk(records, o) <==> SupportMeant(records, o)
  {
    if o.SupportOracle? {
      forall k | 0 <= k < |o.allowed|
        ensures Joint(o.allowed[k], o.jointRequired) <==> Alternative(o.allowed[k], o.jointRequired)
      {
        JointIff(o.allowed[k], o.jointRequired);
      }
      forall e ensures HasEvidence(records, e) <==> QuotedSomewhere(records, e) {
        EvidenceIff(records, e, 0);
      }
      if SupportOk(records, o) {
        OkIsMeant(records, o);
      }
      if SupportMeant(records, o) {
        MeantIsOk(records, o);
      }
    }
  }

  lemma {:induction false} OkIsMeant(records: seq<SourceRecord>, o: Oracle)
    requires o.SupportOracle? && SupportOk(records, o)
    requires forall k | 0 <= k < |o.allowed| :: Alternative(o.allowed[k], o.jointRequired)
    requires forall e :: HasEvidence(records, e) <==> QuotedSomewhere(records, e)
    ensures SupportMeant(records, o)
  {
    var flat := Flat(o.allowed);
    var items := flat + o.counterEvidence;
    forall k, j | 0 <= k < |o.allowed| && 0 <= j < |o.allowed[k]|
      ensures QuotedSomewhere(records, o.allowed[k][j])
    {
      FlatHas(o.allowed, o.allowed[k][j]);
      assert o.allowed[k][j] in o.allowed[k];
      var i :| 0 <= i < |flat| && flat[i] == o.allowed[k][j];
      assert HasEvidence(records, items[i]);
    }
    forall j | 0 <= j < |o.counterEvidence| ensures QuotedSomewhere(records, o.counterEvidence[j]) {
      assert HasEvidence(records, items[|flat| + j]);
    }
  }

  lemma {:induction false} MeantIsOk(records: seq<SourceRecord>, o: Oracle)
    requires o.SupportOracle? && SupportMeant(records, o)
    requires forall k | 0 <= k < |o.allowed| :: Joint(o.allowed[k], o.jointRequired)
    requires forall e :: HasEvidence(records, e) <==> QuotedSomewhere(records, e)
    ensures SupportOk(records, o)
  {
    var flat := Flat(o.allowed);
    var items := flat + o.counterEvidence;
    forall i | 0 <= i < |items| ensures HasEvidence(records, items[i]) {
      if i < |flat| {
        assert flat[i] in flat;
        FlatHas(o.allowed, flat[i]);
        var k :| 0 <= k < |o.allowed| && flat[i] in o.allowed[k];
        var j :| 0 <= j < |o.allowed[k]| && o.allowed[k][j] == flat[i];
        assert QuotedSomewhere(records, o.allowed[k][j]);
      } else {
        assert QuotedSomewhere(records, o.counterEvidence[i - |flat|]);
      }
    }
  }

  /** The probe's checkpoint stands at record `b`, and nothing that its answer rests on is later. */
  ghost predicate AskedAt(f: Fixture, records: seq<SourceRecord>, p: Probe, b: nat) {
    && FindTrigger(f.triggers, p.checkpoint).Some?
    && Says(records, FindTrigger(f.triggers, p.checkpoint).value.afterEntryId, b)
    && forall id | RestsOn(f, p, id) :: SaysBy(records, id, b)
  }

  /**
   A probe is valid when it targets the writer exactly for a promotion, its annotations exist, and its
   checkpoint exists and lies no earlier than anything its gold answer or its early facts rest on.
   */
  lemma {:induction false} ProbeMeans(f: Fixture, records: seq<SourceRecord>, p: Probe)
    requires SourcesUnique(records)
    ensures ProbeOk(f, records, p) <==>
            && (p.writerTarget <==> p.oracle.AuthorityOracle? && p.oracle.dimension == WriterPromotion)
            && Answerable(f, p) && (forall name | name in p.earlyFactIds :: FindFact(f.facts, name).Some?)
            && SupportMeant(records, p.oracle)
            && exists b: nat :: AskedAt(f, records, p, b)
  {
    SupportMeans(records, p.oracle);
    forall id, limit: int ensures Earlier(records, id, limit) <==> SaysBy(records, id, limit) {
      SourceIff(records, id, limit);
    }
    if FindTrigger(f.triggers, p.checkpoint).Some? {
      SourceIff(records, FindTrigger(f.triggers, p.checkpoint).value.afterEntryId, 0);
    }
    if ProbeOk(f, records, p) {
      ProbeIsAsked(f, records, p);
    }
    if b: nat :| AskedAt(f, records, p, b) {
      PositionIs(records, FindTrigger(f.triggers, p.checkpoint).value.afterEntryId, b);
      assert Boundary(f, records, p) == b;
      if Answerable(f, p) && forall name | name in p.earlyFactIds :: FindFact(f.facts, name).Some? {
        AskedIsInTime(f, records, p, b);
      }
    }
  }

  lemma {:induction false} ProbeIsAsked(f: Fixture, records: seq<SourceRecord>, p: Probe)
    requires SourcesUnique(records) && ProbeOk(f, records, p)
    ensures exists b: nat :: AskedAt(f, records, p, b)
    ensures forall name | name in p.earlyFactIds :: FindFact(f.facts, name).Some?
  {
    var t := FindTrigger(f.triggers, p.checkpoint).value;
    SourceIff(records, t.afterEntryId, 0);
    var b: nat := At(records, t.afterEntryId);
    forall name | name in p.earlyFactIds ensures EarlyFactOk(f, records, name, b) {
      var k :| 0 <= k < |p.earlyFactIds| && p.earlyFactIds[k] == name;
      assert EarlyFactOk(f, records, p.earlyFactIds[k], b);
    }
    forall id | RestsOn(f, p, id) ensures SaysBy(records, id, b) {
      GoldIff(f, p.oracle, id);
      SourceIff(records, id, b);
      if id in Referenced(f, p.oracle) {
        var k :| 0 <= k < |Referenced(f, p.oracle)| && Referenced(f, p.oracle)[k] == id;
        assert Earlier(records, Referenced(f, p.oracle)[k], Boundary(f, records, p));
      }
    }
    assert AskedAt(f, records, p, b);
  }

  lemma {:induction false} AskedIsInTime(f: Fixture, records: seq<SourceRecord>, p: Probe, b: nat)
    requires SourcesUnique(records) && AskedAt(f, records, p, b) && Answerable(f, p)
    requires forall name | name in p.earlyFactIds :: FindFact(f.facts, name).Some?
    ensures forall k | 0 <= k < |Referenced(f, p.oracle)| :: Earlier(records, Referenced(f, p.oracle)[k], b)
    ensures forall k | 0 <= k < |p.earlyFactIds| :: EarlyFactOk(f, records, p.earlyFactIds[k], b)
  {
    forall k | 0 <= k < |Referenced(f, p.oracle)| ensures Earlier(records, Referenced(f, p.oracle)[k], b) {
      GoldIff(f, p.oracle, Referenced(f, p.oracle)[k]);
      SourceIff(records, Referenced(f, p.oracle)[k], b);
    }
    forall k | 0 <= k < |p.earlyFactIds| ensures EarlyFactOk(f, records, p.earlyFactIds[k], b) {
      var name := p.earlyFactIds[k];
      assert name in p.earlyFactIds;
      var id := FindFact(f.facts, name).value.source.entryId;
      assert IsSource(f, name, id) && EarlyEntry(f, p, id);
      SourceIff(records, id, b);
    }
  }

  // ---------------------------------------------------------------- the whole fixture

  datatype Annotation = OfFact | OfDecision | OfAuthority | OfProbe | OfTrigger

  /** The ids of the annotations of one kind. */
  function IdsOf(f: Fixture, a: Annotation): seq<string> {
    match a
    case OfFact => seq(|f.facts|, k requires 0 <= k < |f.facts| => f.facts[k].id)
    case OfDecision => seq(|f.decisions|, k requires 0 <= k < |f.decisions| => f.decisions[k].id)
    case OfAuthority => seq(|f.authorities|, k requires 0 <= k < |f.authorities| => f.authorities[k].id)
    case OfProbe => seq(|f.probes|, k requires 0 <= k < |f.probes| => f.probes[k].id)
    case OfTrigger => seq(|f.triggers|, k requires 0 <= k < |f.triggers| => f.triggers[k].id)
  }

  predicate Apart(a: seq<string>, b: seq<string>) {
    forall id | id in a :: id !in b
  }

  lemma {:induction false} UniqueConcat(a: seq<string>, b: seq<string>)
    ensures Unique(a + b) <==> Unique(a) && Unique(b) && Apart(a, b)
  {
    if Unique(a + b) {
      forall j, k | 0 <= j < k < |a| ensures a[j] != a[k] {
        assert (a + b)[j] != (a + b)[k];
      }
      forall j, k | 0 <= j < k < |b| ensures b[j] != b[k] {
        assert (a + b)[|a| + j] != (a + b)[|a| + k];
      }
      forall id | id in a ensures id !in b {
        var j :| 0 <= j < |a| && a[j] == id;
        forall k | 0 <= k < |b| ensures b[k] != id {
          assert (a + b)[j] != (a + b)[|a| + k];
        }
      }
    }
    if Unique(a) && Unique(b) && Apart(a, b) {
      forall j, k | 0 <= j < k < |a + b| ensures (a + b)[j] != (a + b)[k] {
        assert j < |a| ==> (a + b)[j] in a;
        assert k >= |a| ==> (a + b)[k] in b;
      }
    }
  }

  lemma {:induction false} ApartConcat(a: seq<string>, b: seq<string>, c: seq<string>)
    ensures Apart(a + b, c) <==> Apart(a, c) && Apart(b, c)
  {}

  /** No id names two annotations, of one kind or of two. */
  ghost predicate OneEach(f: Fixture) {
    && (forall a :: Unique(IdsOf(f, a)))
    && (forall a, b | a != b :: Apart(IdsOf(f, a), IdsOf(f, b)))
  }

  lemma {:induction false} AnnotationsMean(f: Fixture)
    ensures Unique(AnnotationIds(f)) <==> OneEach(f)
  {
    var x, y, z := IdsOf(f, OfFact), IdsOf(f, OfDecision), IdsOf(f, OfAuthority);
    var u, v := IdsOf(f, OfProbe), IdsOf(f, OfTrigger);
    assert AnnotationIds(f) == x + y + z + u + v;
    UniqueConcat(x + y + z + u, v);
    UniqueConcat(x + y + z, u);
    UniqueConcat(x + y, z);
    UniqueConcat(x, y);
    ApartConcat(x + y + z, u, v);
    ApartConcat(x + y, z, v);
    ApartConcat(x, y, v);
    ApartConcat(x + y, z, u);
    ApartConcat(x, y, u);
    ApartConcat(x, y, z);
    if Unique(AnnotationIds(f)) {
      forall a, b | a != b ensures Apart(IdsOf(f, a), IdsOf(f, b)) {}
    }
  }

  /** Record `k` is the child of the one before, and the first of none. */
  predicate Follows(records: seq<SourceRecord>, k: nat)
    requires k < |records|
  {
    if k == 0 then records[k].parentId == None else records[k].parentId == Some(records[k - 1].id)
  }

  /** The records are one chain of different entries. */
  predicate OneChain(records: seq<SourceRecord>) {
    && (forall j, k | 0 <= j < k < |records| :: records[j].id != records[k].id)
    && (forall k: nat | k < |records| :: Follows(records, k))
  }

  /** A chain of records of the stated size on which every annotation is in order. */
  ghost predicate InOrder(bytes: Bytes, f: Fixture, records: seq<SourceRecord>) {
    && OneChain(records) && SourceTokens(bytes, records) == f.sourceTokens && OneEach(f)
    && (forall k | 0 <= k < |f.facts| :: FactOk(records, f.facts[k]))
    && (forall k | 0 <= k < |f.decisions| :: DecisionOk(records, f.decisions[k]))
    && (forall k | 0 <= k < |f.authorities| :: AuthorityOk(records, f.authorities[k]))
    && (exists at :: Placed(bytes, records, f.triggers, at))
    && (forall k | 0 <= k < |f.probes| :: ProbeOk(f, records, f.probes[k]))
  }

  lemma {:induction false} ChainMeans(records: seq<SourceRecord>)
    ensures OneChain(records) <==> SourcesUnique(records) && Chained(records)
  {
    forall k: nat | k < |records|
      ensures Follows(records, k) <==> records[k].parentId == if k == 0 then None else Some(records[k - 1].id)
    {}
    if OneChain(records) {
      forall k | 0 <= k < |records| ensures records[k].parentId == if k == 0 then None else Some(records[k - 1].id) {
        assert Follows(records, k);
      }
    }
  }

  /** Validation accepts exactly what is in order; the lemmas above say what that is, annotation by annotation. */
  lemma {:induction false} ValidMeans(bytes: Bytes, f: Fixture, records: seq<SourceRecord>)
    ensures Valid(bytes, f, records) <==> InOrder(bytes, f, records)
  {
    AnnotationsMean(f);
    ChainMeans(records);
    if Valid(bytes, f, records) {
      assert SectionOk(bytes, f, records, Sources) && SectionOk(bytes, f, records, Chain);
      assert SectionOk(bytes, f, records, Facts) && SectionOk(bytes, f, records, Decisions);
      assert SectionOk(bytes, f, records, Authorities) && SectionOk(bytes, f, records, Size);
      assert SectionOk(bytes, f, records, Triggers) && SectionOk(bytes, f, records, Annotations);
      assert SectionOk(bytes, f, records, Probes);
      TriggersMean(bytes, records, f.triggers);
    }
    if InOrder(bytes, f, records) {
      TriggersMean(bytes, records, f.triggers);
      forall s: Section ensures SectionOk(bytes, f, records, s) {
        InOrderSection(bytes, f, records, s);
      }
    }
  }

  lemma {:induction false} InOrderSection(bytes: Bytes, f: Fixture, records: seq<SourceRecord>, s: Section)
    requires InOrder(bytes, f, records) && SourcesUnique(records) && Chained(records) && Unique(AnnotationIds(f))
    requires forall k: nat | k < |f.triggers| :: TriggerAt(bytes, records, f.triggers, k)
    ensures SectionOk(bytes, f, records, s)
  {
    match s {
      case Sources =>
      case Chain =>
      case Facts =>
      case Decisions =>
      case Authorities =>
      case Size =>
      case Triggers =>
      case Annotations =>
      case Probes =>
    }
  }
}
