/** Validation of a fixture's annotations against the source transcript. */
module FixtureValidation {
  import opened Wrappers
  import opened FixtureOracle

  // ---------------------------------------------------------------- what is checked

  predicate SourcesUnique(records: seq<SourceRecord>) {
    forall j, k | 0 <= j < k < |records| :: records[j].id != records[k].id
  }

  /** Every record's parent is the record before it. */
  predicate Chained(records: seq<SourceRecord>) {
    forall k | 0 <= k < |records| :: records[k].parentId == if k == 0 then None else Some(records[k - 1].id)
  }

  predicate HasType(value: Scalar, t: ValueType) {
    match t case StringType => value.Text? case NumberType => value.Number? case BooleanType => value.Boolean?
  }

  predicate FactOk(records: seq<SourceRecord>, fact: Fact) {
    && HasType(fact.value, fact.valueType) && HasEvidence(records, fact.source) && HasSource(records, fact.validAt)
    && At(records, fact.source.entryId) <= At(records, fact.validAt)
  }

  predicate Earlier(records: seq<SourceRecord>, id: string, limit: int) {
    HasSource(records, id) && At(records, id) <= limit
  }

  predicate EvidenceOk(records: seq<SourceRecord>, e: Evidence, limit: int) {
    HasEvidence(records, e) && At(records, e.entryId) <= limit
  }

  predicate DecisionOk(records: seq<SourceRecord>, d: DecisionFact) {
    && HasSource(records, d.effectiveAt)
    && (forall k | 0 <= k < |d.supersedes| :: Earlier(records, d.supersedes[k], At(records, d.effectiveAt) - 1))
    && (forall k | 0 <= k < |Flat(d.evidence)| :: EvidenceOk(records, Flat(d.evidence)[k], At(records, d.effectiveAt)))
  }

  predicate AuthorityOk(records: seq<SourceRecord>, a: Authority) {
    && HasSource(records, a.effectiveAt)
    && (forall k | 0 <= k < |a.sources| :: Earlier(records, a.sources[k], At(records, a.effectiveAt)))
    && (a.originalMessage || a.offlineOnly)
  }

  function PreviousBoundary(records: seq<SourceRecord>, triggers: seq<Trigger>, k: nat): int
    requires k <= |triggers|
  {
    if k == 0 then -1 else At(records, triggers[k - 1].afterEntryId)
  }

  predicate TriggerOk(bytes: Bytes, records: seq<SourceRecord>, t: Trigger, previous: int) {
    HasSource(records, t.afterEntryId) &&
    var boundary := Position(records, t.afterEntryId).value;
    && boundary > previous && records[boundary].role == "assistant"
    && SourceTokens(bytes, records[..boundary + 1]) == t.cumulativeSourceTokens
  }

  predicate TriggerAt(bytes: Bytes, records: seq<SourceRecord>, triggers: seq<Trigger>, k: nat)
    requires k < |triggers|
  {
    TriggerOk(bytes, records, triggers[k], PreviousBoundary(records, triggers, k))
  }

  function Flat(sets: seq<seq<Evidence>>): seq<Evidence> {
    if |sets| == 0 then [] else sets[0] + Flat(sets[1..])
  }

  function EntryIds(evidence: seq<Evidence>): seq<string> {
    seq(|evidence|, k requires 0 <= k < |evidence| => evidence[k].entryId)
  }

  function EntrySet(evidence: seq<Evidence>): set<string> {
    set e | e in evidence :: e.entryId
  }

  predicate Joint(evidence: seq<Evidence>, jointRequired: bool) {
    if jointRequired then |EntrySet(evidence)| >= 2 else |evidence| == 1
  }

  function AnnotationIds(f: Fixture): seq<string> {
    seq(|f.facts|, k requires 0 <= k < |f.facts| => f.facts[k].id) +
    seq(|f.decisions|, k requires 0 <= k < |f.decisions| => f.decisions[k].id) +
    seq(|f.authorities|, k requires 0 <= k < |f.authorities| => f.authorities[k].id) +
    seq(|f.probes|, k requires 0 <= k < |f.probes| => f.probes[k].id) +
    seq(|f.triggers|, k requires 0 <= k < |f.triggers| => f.triggers[k].id)
  }

  /** The entries that a probe's gold answer rests on, early facts aside. */
  function Referenced(f: Fixture, o: Oracle): seq<string> {
    match o
    case FactOracle(id) =>
      var fact := FindFact(f.facts, id);
      if fact.None? then [] else [fact.value.source.entryId, fact.value.validAt]
    case SupportOracle(_, allowed, counter, _) => EntryIds(Flat(allowed) + counter)
    case DecisionOracle(id) =>
      var d := FindDecision(f.decisions, id);
      if d.None? then [] else [d.value.effectiveAt] + d.value.supersedes + EntryIds(Flat(d.value.evidence))
    case AuthorityOracle(id, _) =>
      var a := FindAuthority(f.authorities, id);
      if a.None? then [] else [a.value.effectiveAt] + a.value.sources
    case NoAnswerOracle => []
  }

  predicate SupportOk(records: seq<SourceRecord>, o: Oracle) {
    o.SupportOracle? ==>
      && (forall k | 0 <= k < |o.allowed| :: Joint(o.allowed[k], o.jointRequired))
      && (forall k | 0 <= k < |Flat(o.allowed) + o.counterEvidence| ::
          HasEvidence(records, (Flat(o.allowed) + o.counterEvidence)[k]))
  }

  predicate EarlyFactOk(f: Fixture, records: seq<SourceRecord>, id: string, boundary: int) {
    FindFact(f.facts, id).Some? && Earlier(records, FindFact(f.facts, id).value.source.entryId, boundary)
  }

  function Boundary(f: Fixture, records: seq<SourceRecord>, p: Probe): int {
    var t := FindTrigger(f.triggers, p.checkpoint);
    if t.Some? then At(records, t.value.afterEntryId) else -1
  }

  predicate ProbeOk(f: Fixture, records: seq<SourceRecord>, p: Probe) {
    && p.writerTarget == (p.oracle.AuthorityOracle? && p.oracle.dimension.WriterPromotion?)
    && FindTrigger(f.triggers, p.checkpoint).Some?
    && HasSource(records, FindTrigger(f.triggers, p.checkpoint).value.afterEntryId)
    && Answerable(f, p) && SupportOk(records, p.oracle)
    && (forall k | 0 <= k < |Referenced(f, p.oracle)| ::
        Earlier(records, Referenced(f, p.oracle)[k], Boundary(f, records, p)))
    && (forall k | 0 <= k < |p.earlyFactIds| :: EarlyFactOk(f, records, p.earlyFactIds[k], Boundary(f, records, p)))
  }

  /** The checks in the order they are made. */
  datatype Section = Sources | Chain | Facts | Decisions | Authorities | Size | Triggers | Annotations | Probes

  predicate SectionOk(bytes: Bytes, f: Fixture, records: seq<SourceRecord>, s: Section) {
    match s
    case Sources => SourcesUnique(records)
    case Chain => Chained(records)
    case Facts => forall k | 0 <= k < |f.facts| :: FactOk(records, f.facts[k])
    case Decisions => forall k | 0 <= k < |f.decisions| :: DecisionOk(records, f.decisions[k])
    case Authorities => forall k | 0 <= k < |f.authorities| :: AuthorityOk(records, f.authorities[k])
    case Size => SourceTokens(bytes, records) == f.sourceTokens
    case Triggers => forall k: nat | k < |f.triggers| :: TriggerAt(bytes, records, f.triggers, k)
    case Annotations => Unique(AnnotationIds(f))
    case Probes => forall k | 0 <= k < |f.probes| :: ProbeOk(f, records, f.probes[k])
  }

  /** How many sections are checked before one. */
  function Rank(s: Section): nat {
    match s
    case Sources => 0
    case Chain => 1
    case Facts => 2
    case Decisions => 3
    case Authorities => 4
    case Size => 5
    case Triggers => 6
    case Annotations => 7
    case Probes => 8
  }

  predicate Valid(bytes: Bytes, f: Fixture, records: seq<SourceRecord>) {
    forall s: Section :: SectionOk(bytes, f, records, s)
  }

  // ---------------------------------------------------------------- the checks as loops

  method CheckEarlier(records: seq<SourceRecord>, ids: seq<string>, limit: int) returns (ok: bool)
    ensures ok <==> forall k | 0 <= k < |ids| :: Earlier(records, ids[k], limit)
  {
    var k := 0;
    while k < |ids|
      invariant k <= |ids| && forall j | 0 <= j < k :: Earlier(records, ids[j], limit)
    {
      if !Earlier(records, ids[k], limit) {
        return false;
      }
      k := k + 1;
    }
    return true;
  }

  method CheckEvidence(records: seq<SourceRecord>, items: seq<Evidence>, limit: int) returns (ok: bool)
    ensures ok <==> forall k | 0 <= k < |items| :: EvidenceOk(records, items[k], limit)
  {
    var k := 0;
    while k < |items|
      invariant k <= |items| && forall j | 0 <= j < k :: EvidenceOk(records, items[j], limit)
    {
      if !EvidenceOk(records, items[k], limit) {
        return false;
      }
      k := k + 1;
    }
    return true;
  }

  lemma {:induction false} AtMostLast(records: seq<SourceRecord>, items: seq<Evidence>)
    ensures (forall k | 0 <= k < |items| :: EvidenceOk(records, items[k], |records|)) <==>
            forall k | 0 <= k < |items| :: HasEvidence(records, items[k])
  {
    forall k | 0 <= k < |items| ensures EvidenceOk(records, items[k], |records|) <==> HasEvidence(records, items[k]) {}
  }

  method CheckFacts(records: seq<SourceRecord>, facts: seq<Fact>) returns (ok: bool)
    ensures ok <==> forall k | 0 <= k < |facts| :: FactOk(records, facts[k])
  {
    var k := 0;
    while k < |facts|
      invariant k <= |facts| && forall j | 0 <= j < k :: FactOk(records, facts[j])
    {
      if !FactOk(records, facts[k]) {
        return false;
      }
      k := k + 1;
    }
    return true;
  }

  method CheckDecisions(records: seq<SourceRecord>, decisions: seq<DecisionFact>) returns (ok: bool)
    ensures ok <==> forall k | 0 <= k < |decisions| :: DecisionOk(records, decisions[k])
  {
    var k := 0;
    while k < |decisions|
      invariant k <= |decisions| && forall j | 0 <= j < k :: DecisionOk(records, decisions[j])
    {
      var d := decisions[k];
      var current := At(records, d.effectiveAt);
      var before := CheckEarlier(records, d.supersedes, current - 1);
      var quoted := CheckEvidence(records, Flat(d.evidence), current);
      if !HasSource(records, d.effectiveAt) || !before || !quoted {
        return false;
      }
      k := k + 1;
    }
    return true;
  }

  method CheckAuthorities(records: seq<SourceRecord>, authorities: seq<Authority>) returns (ok: bool)
    ensures ok <==> forall k | 0 <= k < |authorities| :: AuthorityOk(records, authorities[k])
  {
    var k := 0;
    while k < |authorities|
      invariant k <= |authorities| && forall j | 0 <= j < k :: AuthorityOk(records, authorities[j])
    {
      var a := authorities[k];
      var before := CheckEarlier(records, a.sources, At(records, a.effectiveAt));
      if !HasSource(records, a.effectiveAt) || !before || !(a.originalMessage || a.offlineOnly) {
        return false;
      }
      k := k + 1;
    }
    return true;
  }

  method CheckTrigger(bytes: Bytes, records: seq<SourceRecord>, triggers: seq<Trigger>, k: nat, previous: int)
    returns (ok: bool, boundary: int)
    requires k < |triggers| && previous == PreviousBoundary(records, triggers, k)
    ensures ok <==> TriggerAt(bytes, records, triggers, k)
    ensures boundary == PreviousBoundary(records, triggers, k + 1)
  {
    boundary := At(records, triggers[k].afterEntryId);
    ok := TriggerOk(bytes, records, triggers[k], previous);
  }

  /** The trigger loop keeps the previous boundary. */
  method CheckTriggers(bytes: Bytes, records: seq<SourceRecord>, triggers: seq<Trigger>) returns (ok: bool)
    ensures ok <==> forall k: nat | k < |triggers| :: TriggerAt(bytes, records, triggers, k)
  {
    var previous := -1;
    var k := 0;
    while k < |triggers|
      invariant k <= |triggers| && previous == PreviousBoundary(records, triggers, k)
      invariant forall j: nat | j < k :: TriggerAt(bytes, records, triggers, j)
    {
      var fine, boundary := CheckTrigger(bytes, records, triggers, k, previous);
      if !fine {
        return false;
      }
      previous := boundary;
      k := k + 1;
    }
    return true;
  }

  method CheckJoint(sets: seq<seq<Evidence>>, jointRequired: bool) returns (ok: bool)
    ensures ok <==> forall k | 0 <= k < |sets| :: Joint(sets[k], jointRequired)
  {
    var k := 0;
    while k < |sets|
      invariant k <= |sets| && forall j | 0 <= j < k :: Joint(sets[j], jointRequired)
    {
      if !Joint(sets[k], jointRequired) {
        return false;
      }
      k := k + 1;
    }
    return true;
  }

  method CheckSupport(records: seq<SourceRecord>, o: Oracle) returns (ok: bool)
    ensures ok <==> SupportOk(records, o)
  {
    if !o.SupportOracle? {
      return true;
    }
    var joint := CheckJoint(o.allowed, o.jointRequired);
    var items := Flat(o.allowed) + o.counterEvidence;
    var quoted := CheckEvidence(records, items, |records|);
    AtMostLast(records, items);
    ok := joint && quoted;
  }

  method CheckProbe(f: Fixture, records: seq<SourceRecord>, p: Probe) returns (ok: bool)
    ensures ok <==> ProbeOk(f, records, p)
  {
    if p.writerTarget != (p.oracle.AuthorityOracle? && p.oracle.dimension.WriterPromotion?) {
      return false;
    }
    var checkpoint := FindTrigger(f.triggers, p.checkpoint);
    if checkpoint.None? || !HasSource(records, checkpoint.value.afterEntryId) || !Answerable(f, p) {
      return false;
    }
    var boundary := At(records, checkpoint.value.afterEntryId);
    var supported := CheckSupport(records, p.oracle);
    var past := CheckEarlier(records, Referenced(f, p.oracle), boundary);
    if !supported || !past {
      return false;
    }
    var k := 0;
    while k < |p.earlyFactIds|
      invariant k <= |p.earlyFactIds| && forall j | 0 <= j < k :: EarlyFactOk(f, records, p.earlyFactIds[j], boundary)
    {
      if !EarlyFactOk(f, records, p.earlyFactIds[k], boundary) {
        return false;
      }
      k := k + 1;
    }
    return true;
  }

  method CheckProbes(f: Fixture, records: seq<SourceRecord>) returns (ok: bool)
    ensures ok <==> forall k | 0 <= k < |f.probes| :: ProbeOk(f, records, f.probes[k])
  {
    var k := 0;
    while k < |f.probes|
      invariant k <= |f.probes| && forall j | 0 <= j < k :: ProbeOk(f, records, f.probes[j])
    {
      var fine := CheckProbe(f, records, f.probes[k]);
      if !fine {
        return false;
      }
      k := k + 1;
    }
    return true;
  }

  /** validateMappings; the error names the first group of checks that fails. */
  method ValidateMappings(bytes: Bytes, f: Fixture, records: seq<SourceRecord>) returns (r: Result<(), Section>)
    ensures r.Success? <==> Valid(bytes, f, records)
    ensures r.Failure? ==>
              && !SectionOk(bytes, f, records, r.error)
              && forall s: Section | Rank(s) < Rank(r.error) :: SectionOk(bytes, f, records, s)
  {
    if !SourcesUnique(records) {
      return Refuse(bytes, f, records, Sources);
    }
    if !Chained(records) {
      return Refuse(bytes, f, records, Chain);
    }
    var facts := CheckFacts(records, f.facts);
    if !facts {
      return Refuse(bytes, f, records, Facts);
    }
    var decisions := CheckDecisions(records, f.decisions);
    if !decisions {
      return Refuse(bytes, f, records, Decisions);
    }
    var authorities := CheckAuthorities(records, f.authorities);
    if !authorities {
      return Refuse(bytes, f, records, Authorities);
    }
    if SourceTokens(bytes, records) != f.sourceTokens {
      return Refuse(bytes, f, records, Size);
    }
    var triggers := CheckTriggers(bytes, records, f.triggers);
    if !triggers {
      return Refuse(bytes, f, records, Triggers);
    }
    if !Unique(AnnotationIds(f)) {
      return Refuse(bytes, f, records, Annotations);
    }
    var probes := CheckProbes(f, records);
    if !probes {
      return Refuse(bytes, f, records, Probes);
    }
    return Success(());
  }

  function Refuse(bytes: Bytes, f: Fixture, records: seq<SourceRecord>, s: Section): (r: Result<(), Section>)
    requires !SectionOk(bytes, f, records, s)
    ensures r == Failure(s) && !Valid(bytes, f, records)
  {
    Failure(s)
  }
}
