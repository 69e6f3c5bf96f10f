/**
 The model-catalog refresh protocol of `ModelsImpl`: generation counters, abort
 controllers, one promise chain of publications per provider, and a persistent store.

 Every `await` is a step boundary.  A run is any interleaving of the events below, so
 the environment may call refresh, setProvider, deleteProvider or clearProviders, abort
 a caller, or let a provider publish, between any two steps.
 */
module RefreshProtocol {
  import opened Wrappers

  type ProviderId = string

  /** An operation owns one AbortController, so the operation's index is its identity. */
  type OpId = nat
  type PubId = nat
  type CallerId = nat

  datatype Entry = Entry(models: seq<string>, checkedAt: int)

  /** `persist` of a publication: undefined, null, or an entry. */
  datatype Persist = Keep | Remove | Write(entry: Entry)

  datatype Outcome = Updated | Refused | Failed

  /** A store call that has begun either has or has not taken effect yet. */
  datatype Stage = Queued | Mutating(landed: bool) | Settled(outcome: Outcome)

  /** One provider's refresh: `done` when its async body settled, `finished` after its finally block. */
  datatype Operation = Operation(
    provider: ProviderId, generation: nat, caller: CallerId, aborted: bool, done: bool, finished: bool)

  datatype Publication = Publication(
    provider: ProviderId, op: OpId, persist: Persist, previous: Option<PubId>, stage: Stage)

  /** History: a store call began, a store call took effect, an in-memory `update` ran. */
  datatype Record =
    | Began(pub: PubId, current: nat)
    | Landed(pub: PubId)
    | Ran(pub: PubId, current: nat, aborted: bool, stored: Option<Entry>)

  datatype State = State(
    providers: set<ProviderId>,
    generations: map<ProviderId, nat>,
    controllers: map<ProviderId, OpId>,
    chains: map<ProviderId, PubId>,
    store: map<ProviderId, Entry>,
    ops: seq<Operation>,
    pubs: seq<Publication>,
    abortedCallers: set<CallerId>,
    log: seq<Record>)

  /** A fresh `ModelsImpl` over a store that may already hold entries. */
  function Initial(store: map<ProviderId, Entry>): State {
    State({}, map[], map[], map[], store, [], [], {}, [])
  }

  function Generation(s: State, p: ProviderId): nat {
    if p in s.generations then s.generations[p] else 0
  }

  function Stored(s: State, p: ProviderId): Option<Entry> {
    if p in s.store then Some(s.store[p]) else None
  }

  /** `AbortSignal.any([callerSignal, controller.signal]).aborted` */
  predicate SignalAborted(s: State, o: OpId)
    requires o < |s.ops|
  {
    s.ops[o].aborted || s.ops[o].caller in s.abortedCallers
  }

  /** The test a publication makes before its store call and again before its update. */
  predicate Live(s: State, i: PubId)
    requires i < |s.pubs| && s.pubs[i].op < |s.ops|
  {
    !SignalAborted(s, s.pubs[i].op) &&
    s.pubs[i].provider in s.generations &&
    s.generations[s.pubs[i].provider] == s.ops[s.pubs[i].op].generation
  }

  // ---------------------------------------------------------------- transitions

  predicate Registered(s: State, o: OpId)
    requires o < |s.ops|
  {
    s.ops[o].provider in s.controllers && s.controllers[s.ops[o].provider] == o
  }

  /** supersedeProviderRefresh for every id of a set (clearProviders uses more than one). */
  function Supersede(s: State, ids: set<ProviderId>): State {
    s.(generations := map p | p in s.generations.Keys + ids :: Generation(s, p) + if p in ids then 1 else 0,
       controllers := s.controllers - ids,
       ops := seq(|s.ops|, o requires 0 <= o < |s.ops| =>
         if s.ops[o].provider in ids && Registered(s, o) then s.ops[o].(aborted := true) else s.ops[o]))
  }

  function SetProvider(s: State, p: ProviderId): State {
    var t := Supersede(s, {p});
    t.(providers := t.providers + {p})
  }

  function DeleteProvider(s: State, p: ProviderId): State {
    var t := Supersede(s, {p});
    t.(providers := t.providers - {p})
  }

  function ClearProviders(s: State): State {
    Supersede(s, s.providers + s.controllers.Keys).(providers := {})
  }

  function Begin(s: State, p: ProviderId, caller: CallerId): State {
    var t := Supersede(s, {p});
    t.(ops := t.ops + [Operation(p, Generation(t, p), caller, false, false, false)],
       controllers := t.controllers[p := |t.ops|])
  }

  function AbortCaller(s: State, caller: CallerId): State {
    s.(abortedCallers := s.abortedCallers + {caller})
  }

  function Publish(s: State, o: OpId, persist: Persist): State
    requires o < |s.ops|
  {
    var p := s.ops[o].provider;
    var previous := if p in s.chains then Some(s.chains[p]) else None;
    s.(pubs := s.pubs + [Publication(p, o, persist, previous, Queued)], chains := s.chains[p := |s.pubs|])
  }

  function WithStage(s: State, i: PubId, stage: Stage): State
    requires i < |s.pubs|
  {
    s.(pubs := s.pubs[i := s.pubs[i].(stage := stage)])
  }

  /** The second liveness test and, when it passes, the update. */
  function RunUpdate(s: State, i: PubId): State
    requires i < |s.pubs| && s.pubs[i].op < |s.ops|
  {
    if !Live(s, i) then WithStage(s, i, Settled(Refused)) else
    var p := s.pubs[i].provider;
    WithStage(s, i, Settled(Updated)).(
      log := s.log + [Ran(i, Generation(s, p), SignalAborted(s, s.pubs[i].op), Stored(s, p))])
  }

  /** The publication's turn has come: `await previous` returned. */
  function Resume(s: State, i: PubId): State
    requires i < |s.pubs| && s.pubs[i].op < |s.ops|
  {
    if !Live(s, i) then WithStage(s, i, Settled(Refused))
    else if s.pubs[i].persist.Keep? then RunUpdate(s, i)
    else WithStage(s, i, Mutating(false)).(log := s.log + [Began(i, Generation(s, s.pubs[i].provider))])
  }

  /** The pending store call takes effect. */
  function Land(s: State, i: PubId): State
    requires i < |s.pubs|
  {
    var p := s.pubs[i].provider;
    var t := WithStage(s, i, Mutating(true)).(log := s.log + [Landed(i)]);
    match s.pubs[i].persist
    case Write(entry) => t.(store := s.store[p := entry])
    case _ => t.(store := s.store - {p})
  }

  /** The store's promise settles: a rejection fails the publication, otherwise it goes on to its update. */
  function StoreSettled(s: State, i: PubId, ok: bool): State
    requires i < |s.pubs| && s.pubs[i].op < |s.ops|
  {
    if ok then RunUpdate(s, i) else WithStage(s, i, Settled(Failed))
  }

  /** The tail's own continuation drops the chain entry when it is still the newest. */
  function ReleaseTail(s: State, i: PubId): State
    requires i < |s.pubs|
  {
    var p := s.pubs[i].provider;
    if p in s.chains && s.chains[p] == i then s.(chains := s.chains - {p}) else s
  }

  function BodyDone(s: State, o: OpId): State
    requires o < |s.ops|
  {
    s.(ops := s.ops[o := s.ops[o].(done := true)])
  }

  /** The finally block of one provider's refresh. */
  function Finish(s: State, o: OpId): State
    requires o < |s.ops|
  {
    var t := s.(ops := s.ops[o := s.ops[o].(finished := true)]);
    if Registered(s, o) then t.(controllers := t.controllers - {s.ops[o].provider}) else t
  }

  datatype Event =
    | ESet(p: ProviderId)
    | EDelete(p: ProviderId)
    | EClear
    | EBegin(p: ProviderId, caller: CallerId)
    | EAbort(caller: CallerId)
    | EPublish(o: OpId, persist: Persist)
    | EResume(i: PubId)
    | ELand(i: PubId)
    | EStore(i: PubId, ok: bool)
    | ERelease(i: PubId)
    | EDone(o: OpId)
    | EFinish(o: OpId)

  predicate SettledAt(s: State, i: PubId) {
    i < |s.pubs| && s.pubs[i].stage.Settled?
  }

  predicate Enabled(s: State, e: Event) {
    match e
    case ESet(_) => true
    case EDelete(_) => true
    case EClear => true
    case EBegin(p, caller) => p in s.providers
    case EAbort(_) => true
    case EPublish(o, _) => o < |s.ops|
    case EResume(i) =>
      i < |s.pubs| && s.pubs[i].op < |s.ops| && s.pubs[i].stage.Queued? &&
      (s.pubs[i].previous.Some? ==> SettledAt(s, s.pubs[i].previous.value))
    case ELand(i) => i < |s.pubs| && s.pubs[i].stage == Mutating(false)
    case EStore(i, ok) =>
      i < |s.pubs| && s.pubs[i].op < |s.ops| && s.pubs[i].stage.Mutating? && (ok ==> s.pubs[i].stage.landed)
    case ERelease(i) => SettledAt(s, i)
    case EDone(o) => o < |s.ops|
    case EFinish(o) => o < |s.ops| && !s.ops[o].finished && (s.ops[o].done || SignalAborted(s, o))
  }

  function Step(s: State, e: Event): State
    requires Enabled(s, e)
  {
    match e
    case ESet(p) => SetProvider(s, p)
    case EDelete(p) => DeleteProvider(s, p)
    case EClear => ClearProviders(s)
    case EBegin(p, caller) => Begin(s, p, caller)
    case EAbort(caller) => AbortCaller(s, caller)
    case EPublish(o, persist) => Publish(s, o, persist)
    case EResume(i) => Resume(s, i)
    case ELand(i) => Land(s, i)
    case EStore(i, ok) => StoreSettled(s, i, ok)
    case ERelease(i) => ReleaseTail(s, i)
    case EDone(o) => BodyDone(s, o)
    case EFinish(o) => Finish(s, o)
  }

  predicate CanRun(s: State, es: seq<Event>)
    decreases |es|
  {
    |es| == 0 || (Enabled(s, es[0]) && CanRun(Step(s, es[0]), es[1..]))
  }

  function Run(s: State, es: seq<Event>): State
    requires CanRun(s, es)
    decreases |es|
  {
    if |es| == 0 then s else Run(Step(s, es[0]), es[1..])
  }

  // ---------------------------------------------------------------- invariants

  ghost predicate OpOk(s: State, o: OpId)
    requires o < |s.ops|
  {
    var op := s.ops[o];
    && op.provider in s.generations
    && op.generation <= s.generations[op.provider]
    && (op.generation == s.generations[op.provider] ==> op.provider in s.providers)
    && (!op.finished && !op.aborted ==> Registered(s, o))
    && (op.finished && !op.done ==> SignalAborted(s, o))
  }

  /** The registered controller belongs to the current generation and is not aborted. */
  ghost predicate ControllerOk(s: State, p: ProviderId)
    requires p in s.controllers
  {
    var c := s.controllers[p];
    && c < |s.ops|
    && s.ops[c].provider == p
    && p in s.generations
    && s.ops[c].generation == s.generations[p]
    && !s.ops[c].aborted
    && !s.ops[c].finished
  }

  ghost predicate OpsOk(s: State) {
    && (forall o | 0 <= o < |s.ops| :: OpOk(s, o))
    && (forall p | p in s.controllers :: ControllerOk(s, p))
  }

  ghost predicate EarlierSettled(s: State, i: PubId)
    requires i < |s.pubs|
  {
    forall j | 0 <= j < i && s.pubs[j].provider == s.pubs[i].provider :: s.pubs[j].stage.Settled?
  }

  /** The store holds exactly what a publication persists. */
  ghost predicate Holds(stored: Option<Entry>, persist: Persist) {
    match persist
    case Keep => true
    case Remove => stored == None
    case Write(entry) => stored == Some(entry)
  }

  ghost predicate PubOk(s: State, i: PubId)
    requires i < |s.pubs|
  {
    var pub := s.pubs[i];
    && pub.op < |s.ops|
    && s.ops[pub.op].provider == pub.provider
    && (pub.previous.Some? ==>
          && pub.previous.value < i
          && s.pubs[pub.previous.value].provider == pub.provider
          && (forall j | pub.previous.value < j < i :: s.pubs[j].provider != pub.provider))
    && (pub.previous.None? || !pub.stage.Queued? ==> EarlierSettled(s, i))
    && (pub.stage.Mutating? ==> !pub.persist.Keep?)
    && (pub.stage == Mutating(true) ==> Holds(Stored(s, pub.provider), pub.persist))
  }

  ghost predicate ChainOk(s: State, p: ProviderId)
    requires p in s.chains
  {
    var c := s.chains[p];
    && c < |s.pubs|
    && s.pubs[c].provider == p
    && (forall j | c < j < |s.pubs| :: s.pubs[j].provider != p)
  }

  ghost predicate PubsOk(s: State) {
    && (forall i | 0 <= i < |s.pubs| :: PubOk(s, i))
    && (forall p | p in s.chains :: ChainOk(s, p))
    && (forall i | 0 <= i < |s.pubs| && s.pubs[i].provider !in s.chains :: s.pubs[i].stage.Settled?)
  }

  ghost predicate InRange(s: State, i: PubId) {
    i < |s.pubs| && s.pubs[i].op < |s.ops|
  }

  ghost function GenerationOf(s: State, i: PubId): nat
    requires InRange(s, i)
  {
    s.ops[s.pubs[i].op].generation
  }

  /**
   What every history entry says.  In particular an update ran while its generation was
   current, with its signal not aborted and with the store holding what it persisted.
   */
  ghost predicate RecordOk(s: State, r: Record) {
    && InRange(s, r.pub)
    && !s.pubs[r.pub].stage.Queued?
    && match r
       case Landed(_) => true
       case Began(i, current) => current == GenerationOf(s, i)
       case Ran(i, current, aborted, stored) =>
         current == GenerationOf(s, i) && !aborted && Holds(stored, s.pubs[i].persist)
  }

  /** Entries of one provider appear in call order, with generations that never go back. */
  ghost predicate InOrder(s: State, earlier: Record, later: Record) {
    InRange(s, earlier.pub) && InRange(s, later.pub) && s.pubs[earlier.pub].provider == s.pubs[later.pub].provider ==>
      earlier.pub <= later.pub && GenerationOf(s, earlier.pub) <= GenerationOf(s, later.pub)
  }

  /** No entry of a provider is newer than a store call the provider still has in flight. */
  ghost predicate Behind(s: State, r: Record, i: PubId) {
    InRange(s, r.pub) && InRange(s, i) && s.pubs[i].stage.Mutating? && s.pubs[r.pub].provider == s.pubs[i].provider ==>
      GenerationOf(s, r.pub) <= GenerationOf(s, i)
  }

  ghost predicate LogOk(s: State) {
    && (forall k | 0 <= k < |s.log| :: RecordOk(s, s.log[k]))
    && (forall j, k | 0 <= j < k < |s.log| :: InOrder(s, s.log[j], s.log[k]))
    && (forall k, i | 0 <= k < |s.log| && 0 <= i < |s.pubs| :: Behind(s, s.log[k], i))
  }

  ghost predicate Inv(s: State) {
    OpsOk(s) && PubsOk(s) && LogOk(s)
  }
}
