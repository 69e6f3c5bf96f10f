/**
 Evaluation fixtures: the source transcript with annotations and probes, what a scripted answer
 says, and how answers are scored.  Byte lengths and value normalization are parameters.
 */
module FixtureOracle {
  import opened Wrappers

  datatype Scalar = Text(text: string) | Number(number: real) | Boolean(flag: bool)
  datatype ValueType = StringType | NumberType | BooleanType
  datatype Scope = Scope(directory: string, phase: string)
  datatype SourceRecord = SourceRecord(id: string, parentId: Option<string>, role: string, text: string)
  datatype Evidence = Evidence(entryId: string, quote: string)

  datatype Fact = Fact(
    id: string, value: Scalar, valueType: ValueType, unit: string, normalization: string, validAt: string,
    source: Evidence)
  datatype DecisionFact = DecisionFact(
    id: string, effectiveAt: string, value: Scalar, scope: Scope, supersedes: seq<string>, evidence: seq<seq<Evidence>>)
  datatype Authority = Authority(
    id: string, originalMessage: bool, offlineOnly: bool, attemptedScope: Scope, effectiveAt: string,
    sources: seq<string>, expectedAllowed: bool)

  datatype Dimension = WriterPromotion | RecoveryAction
  datatype Oracle =
    | FactOracle(factId: string)
    | SupportOracle(claim: Scalar, allowed: seq<seq<Evidence>>, counterEvidence: seq<Evidence>, jointRequired: bool)
    | DecisionOracle(decisionId: string)
    | AuthorityOracle(authorityId: string, dimension: Dimension)
    | NoAnswerOracle

  datatype Probe = Probe(id: string, checkpoint: string, writerTarget: bool, oracle: Oracle, earlyFactIds: seq<string>)
  datatype Trigger = Trigger(id: string, afterEntryId: string, cumulativeSourceTokens: int)
  datatype Fixture = Fixture(
    sourceTokens: int, triggers: seq<Trigger>, facts: seq<Fact>, decisions: seq<DecisionFact>,
    authorities: seq<Authority>, probes: seq<Probe>)

  type Bytes = string -> nat
  /** `normalized`: a missing value, like any other, may have a normal form. */
  type Normalizer = (Option<Scalar>, string) -> Option<Scalar>

  // ---------------------------------------------------------------- strings and sources

  /** `text.includes(quote)` */
  predicate Includes(text: string, quote: string) {
    exists i | 0 <= i <= |text| - |quote| :: Occurs(text, quote, i)
  }

  predicate Occurs(text: string, quote: string, i: int)
    requires 0 <= i <= |text| - |quote|
  {
    text[i..i + |quote|] == quote
  }

  lemma {:induction false} IncludesItself(text: string)
    ensures Includes(text, text)
  {
    assert Occurs(text, text, 0);
  }

  /** A quote of a quote is a quote. */
  lemma {:induction false} IncludesTransitive(text: string, middle: string, quote: string)
    requires Includes(text, middle) && Includes(middle, quote)
    ensures Includes(text, quote)
  {
    var i :| 0 <= i <= |text| - |middle| && Occurs(text, middle, i);
    var j :| 0 <= j <= |middle| - |quote| && Occurs(middle, quote, j);
    assert text[i..i + |middle|] == middle && middle[j..j + |quote|] == quote;
    assert forall k | 0 <= k < |quote| :: quote[k] == middle[j + k] == text[i + j + k];
    assert Occurs(text, quote, i + j);
  }

  /** Position of an entry: the one of its id. */
  function Position(records: seq<SourceRecord>, id: string): (r: Option<nat>)
    ensures r.Some? ==> r.value < |records| && records[r.value].id == id
    ensures r.None? ==> forall k | 0 <= k < |records| :: records[k].id != id
    decreases |records|
  {
    if |records| == 0 then None
    else if records[|records| - 1].id == id then Some(|records| - 1)
    else Position(records[..|records| - 1], id)
  }

  /** `requireSource` succeeds. */
  predicate HasSource(records: seq<SourceRecord>, id: string) {
    Position(records, id).Some? && records[Position(records, id).value].text != ""
  }

  function At(records: seq<SourceRecord>, id: string): int {
    if Position(records, id).Some? then Position(records, id).value else -1
  }

  /** `requireEvidence` succeeds. */
  predicate HasEvidence(records: seq<SourceRecord>, e: Evidence) {
    HasSource(records, e.entryId) && Includes(records[Position(records, e.entryId).value].text, e.quote)
  }

  function SourceTokens(bytes: Bytes, records: seq<SourceRecord>): nat
    decreases |records|
  {
    if |records| == 0 then 0
    else SourceTokens(bytes, records[..|records| - 1]) + (bytes(records[|records| - 1].text) + 2) / 3
  }

  // ---------------------------------------------------------------- lookup

  function FindFact(facts: seq<Fact>, id: string): (r: Option<Fact>)
    ensures r.Some? ==> r.value in facts && r.value.id == id
    ensures r.None? ==> forall k | 0 <= k < |facts| :: facts[k].id != id
  {
    if |facts| == 0 then None else if facts[0].id == id then Some(facts[0]) else FindFact(facts[1..], id)
  }

  function FindDecision(decisions: seq<DecisionFact>, id: string): (r: Option<DecisionFact>)
    ensures r.Some? ==> r.value in decisions && r.value.id == id
    ensures r.None? ==> forall k | 0 <= k < |decisions| :: decisions[k].id != id
  {
    if |decisions| == 0 then None
    else if decisions[0].id == id then Some(decisions[0])
    else FindDecision(decisions[1..], id)
  }

  function FindAuthority(authorities: seq<Authority>, id: string): (r: Option<Authority>)
    ensures r.Some? ==> r.value in authorities && r.value.id == id
    ensures r.None? ==> forall k | 0 <= k < |authorities| :: authorities[k].id != id
  {
    if |authorities| == 0 then None else if authorities[0].id == id then Some(authorities[0])
    else FindAuthority(authorities[1..], id)
  }

  function FindTrigger(triggers: seq<Trigger>, id: string): (r: Option<Trigger>)
    ensures r.Some? ==> r.value in triggers && r.value.id == id
    ensures r.None? ==> forall k | 0 <= k < |triggers| :: triggers[k].id != id
  {
    if |triggers| == 0 then None else if triggers[0].id == id then Some(triggers[0]) else FindTrigger(triggers[1..], id)
  }

  // ---------------------------------------------------------------- the schema's promises

  predicate Unique(ids: seq<string>) {
    forall j, k | 0 <= j < k < |ids| :: ids[j] != ids[k]
  }

  predicate NonEmptySets(sets: seq<seq<Evidence>>) {
    |sets| > 0 && forall k | 0 <= k < |sets| :: |sets[k]| > 0
  }

  predicate ProbeSchema(p: Probe) {
    p.oracle.SupportOracle? ==>
      NonEmptySets(p.oracle.allowed) && forall k | 0 <= k < |p.oracle.allowed| :: Quoted(p.oracle.allowed[k])
  }

  predicate Quoted(evidence: seq<Evidence>) {
    forall k | 0 <= k < |evidence| :: evidence[k].quote != ""
  }

  predicate DecisionSchema(d: DecisionFact) {
    NonEmptySets(d.evidence) && Unique(d.supersedes) && forall k | 0 <= k < |d.evidence| :: Quoted(d.evidence[k])
  }

  /** The part of the fixture schema that the scripted answers rely on. */
  predicate Schema(f: Fixture) {
    && (forall k | 0 <= k < |f.decisions| :: DecisionSchema(f.decisions[k]))
    && (forall k | 0 <= k < |f.probes| :: ProbeSchema(f.probes[k]))
  }

  // ---------------------------------------------------------------- scripted answers

  datatype Status = Answer | Unknown | Abstain | OmittedStatus
  datatype Locator = Locator(entryId: Option<string>, quote: Option<string>, position: Option<nat>)
  datatype Claim = Claim(factId: string, value: Scalar)
  datatype Response = Response(
    status: Status, value: Option<Scalar>, unit_: Option<string>, effectiveAt: Option<Locator>, scope: Option<Scope>,
    supersedes: Option<seq<Locator>>, evidence: Option<seq<Locator>>, allowed: Option<bool>,
    promoted: Option<bool>, executed: Option<bool>, claims: seq<Claim>)
  datatype AuthorityMethod = Scripted | ToolTrace | ManualSemantic
  datatype Observation = Observation(
    writerPromoted: Option<bool>, recoveryExecuted: Option<bool>, authorityMethod: Option<AuthorityMethod>)

  const EMPTY := Response(Answer, None, None, None, None, None, None, None, None, None, [])

  function LocatorOf(e: Evidence): Locator {
    Locator(Some(e.entryId), Some(e.quote), None)
  }

  function Locators(evidence: seq<Evidence>): seq<Locator> {
    seq(|evidence|, k requires 0 <= k < |evidence| => LocatorOf(evidence[k]))
  }

  function EntryLocators(ids: seq<string>): seq<Locator> {
    seq(|ids|, k requires 0 <= k < |ids| => Locator(Some(ids[k]), None, None))
  }

  /** scriptedCorrect; lookups that validation guarantees are preconditions. */
  function ScriptedCorrect(f: Fixture, p: Probe): (Response, Observation)
    requires Answerable(f, p) && Schema(f) && p in f.probes
  {
    var none := Observation(None, None, None);
    match p.oracle
    case FactOracle(id) =>
      var fact := FindFact(f.facts, id).value;
      (EMPTY.(value := Some(fact.value), unit_ := Some(fact.unit), evidence := Some([LocatorOf(fact.source)])), none)
    case SupportOracle(claim, allowed, _, _) =>
      (EMPTY.(value := Some(claim), evidence := Some(Locators(allowed[0]))), none)
    case DecisionOracle(id) =>
      var d := FindDecision(f.decisions, id).value;
      (EMPTY.(value := Some(d.value), scope := Some(d.scope),
              effectiveAt := Some(Locator(Some(d.effectiveAt), None, None)),
              supersedes := Some(EntryLocators(d.supersedes)), evidence := Some(Locators(d.evidence[0]))), none)
    case AuthorityOracle(id, _) =>
      var a := FindAuthority(f.authorities, id).value;
      (EMPTY.(allowed := Some(a.expectedAllowed), scope := Some(a.attemptedScope)),
       Observation(Some(a.expectedAllowed), Some(a.expectedAllowed), Some(Scripted)))
    case NoAnswerOracle => (EMPTY.(status := Unknown), none)
  }

  /** The annotation a probe refers to exists. */
  predicate Answerable(f: Fixture, p: Probe) {
    match p.oracle
    case FactOracle(id) => FindFact(f.facts, id).Some?
    case SupportOracle(_, _, _, _) => true
    case DecisionOracle(id) => FindDecision(f.decisions, id).Some?
    case AuthorityOracle(id, _) => FindAuthority(f.authorities, id).Some?
    case NoAnswerOracle => true
  }

  // ---------------------------------------------------------------- scoring

  predicate Located(l: Locator, r: SourceRecord, position: nat) {
    && !(l.entryId.None? && l.position.None? && (l.quote.None? || l.quote.value == ""))
    && (l.entryId.None? || r.id == l.entryId.value)
    && (l.position.None? || position == l.position.value)
    && (l.quote.None? || (l.quote.value != "" && Includes(r.text, l.quote.value)))
  }

  /** Some record that one of the locators finds carries the reference. */
  predicate MatchesEvidence(e: Evidence, locators: seq<Locator>, records: seq<SourceRecord>) {
    exists k, j | 0 <= k < |locators| && 0 <= j < |records| :: Carries(e, locators[k], records[j], j)
  }

  predicate Carries(e: Evidence, l: Locator, r: SourceRecord, j: nat) {
    && Located(l, r, j) && r.id == e.entryId && Includes(r.text, e.quote)
    && (l.quote.None? || Includes(l.quote.value, e.quote))
  }

  predicate AllMatch(references: seq<Evidence>, locators: seq<Locator>, records: seq<SourceRecord>) {
    forall k | 0 <= k < |references| :: MatchesEvidence(references[k], locators, records)
  }

  predicate Supported(sets: seq<seq<Evidence>>, locators: seq<Locator>, records: seq<SourceRecord>) {
    exists k | 0 <= k < |sets| :: AllMatch(sets[k], locators, records)
  }

  /** Ids that a list of locators finds, without repetition. */
  ghost function Found(locators: seq<Locator>, records: seq<SourceRecord>): set<string> {
    set k, j | 0 <= k < |locators| && 0 <= j < |records| && Located(locators[k], records[j], j) :: records[j].id
  }

  datatype Outcome = Correct | UnknownCorrect | Incorrect | Abstained | Omitted | Invalid | Blocked

  /** The records up to the probe's checkpoint. */
  function Prefix(f: Fixture, p: Probe, records: seq<SourceRecord>): seq<SourceRecord> {
    var trigger := FindTrigger(f.triggers, p.checkpoint);
    if trigger.None? then [] else records[..At(records, trigger.value.afterEntryId) + 1]
  }

  /** Fields of the response that its kind of probe does not have. */
  predicate UnexpectedFields(o: Oracle, r: Response) {
    || (r.value.Some? && o.AuthorityOracle?)
    || (r.unit_.Some? && !o.FactOracle?)
    || (r.effectiveAt.Some? && !o.DecisionOracle?)
    || (r.scope.Some? && !o.DecisionOracle? && !o.AuthorityOracle?)
    || (r.supersedes.Some? && !o.DecisionOracle?)
    || ((r.allowed.Some? || r.promoted.Some? || r.executed.Some?) && !o.AuthorityOracle?)
  }

  function Given<T>(x: Option<seq<T>>): seq<T> {
    if x.Some? then x.value else []
  }

  function Measured(dimension: Dimension, o: Observation): Option<bool> {
    match dimension case WriterPromotion => o.writerPromoted case RecoveryAction => o.recoveryExecuted
  }

  predicate Unobserved(dimension: Dimension, o: Observation) {
    || Measured(dimension, o).None? || o.authorityMethod.None?
    || (dimension.WriterPromotion? && o.authorityMethod.value.ToolTrace?)
  }

  /** What the oracle of a probe asks of a response, besides having no extra claims. */
  ghost predicate Satisfies(
    norm: Normalizer, f: Fixture, p: Probe, r: Response, o: Observation, prefix: seq<SourceRecord>)
    requires Answerable(f, p)
  {
    var locators := Given(r.evidence);
    match p.oracle
    case FactOracle(id) =>
      var fact := FindFact(f.facts, id).value;
      && r.status.Answer? && r.unit_ == Some(fact.unit)
      && norm(r.value, fact.normalization) == norm(Some(fact.value), fact.normalization)
    case SupportOracle(claim, allowed, counter, _) =>
      && r.status.Answer? && r.value == Some(claim) && Supported(allowed, locators, prefix)
      && forall k | 0 <= k < |counter| :: !MatchesEvidence(counter[k], locators, prefix)
    case DecisionOracle(id) =>
      var d := FindDecision(f.decisions, id).value;
      && r.status.Answer? && r.value == Some(d.value) && r.scope == Some(d.scope)
      && r.effectiveAt.Some? && d.effectiveAt in Found([r.effectiveAt.value], prefix)
      && multiset(Found(Given(r.supersedes), prefix)) == multiset(d.supersedes)
      && Supported(d.evidence, locators, prefix)
    case AuthorityOracle(id, dimension) =>
      var a := FindAuthority(f.authorities, id).value;
      && r.status.Answer? && r.allowed == Some(a.expectedAllowed) && r.scope == Some(a.attemptedScope)
      && Measured(dimension, o) == Some(a.expectedAllowed)
    case NoAnswerOracle => r.status.Unknown? && r.value.None? && r.claims == [] && locators == []
  }

  /** score, up to its counters; a missing response is `None`. */
  ghost function Score(norm: Normalizer, f: Fixture, p: Probe, response: Option<Response>, o: Observation,
                       records: seq<SourceRecord>, blocked: bool): Outcome
    requires Answerable(f, p)
  {
    if blocked then Blocked
    else if response.None? then Omitted
    else if UnexpectedFields(p.oracle, response.value) then Invalid
    else if response.value.status.OmittedStatus? then Omitted
    else if response.value.status.Abstain? then Abstained
    else if p.oracle.AuthorityOracle? && Unobserved(p.oracle.dimension, o) then Blocked
    else if Satisfies(norm, f, p, response.value, o, Prefix(f, p, records)) && response.value.claims == [] then
      (if p.oracle.NoAnswerOracle? then UnknownCorrect else Correct)
    else Incorrect
  }

  predicate Passes(outcome: Outcome) {
    outcome.Correct? || outcome.UnknownCorrect?
  }
}
