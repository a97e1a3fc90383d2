/** The model-catalogue refresh protocol of `ModelsImpl`.

  Every refresh of a provider gets a generation; publishing a catalogue is an asynchronous
  task that waits for the previous publication of the same provider, checks that its
  generation is still the newest, runs one store operation, checks again and only then runs
  its synchronous in-memory update.  `State` and the step functions below describe the atomic
  pieces between two `await`s; a run is any interleaving of them.  `ModelsImpl` is the class
  that performs the same steps on its maps.
 */
module CatalogueRefresh {
  import opened Wrappers

  type ProviderId = string
  type Catalogue = seq<string>

  /** A provider object: two objects may carry the same id (one replaces the other). */
  datatype Provider = Provider(id: ProviderId, serial: nat)

  /** What `publication.persist` asks of the store: undefined, null, or an entry. */
  datatype Persist = Keep | Remove | Write(entry: Catalogue)

  datatype Outcome = Published | Stale | Failed

  /** Where the `queued` task of a publication stands. */
  datatype Phase = Waiting | Storing(landed: bool) | Settled(outcome: Outcome)

  datatype Refresh = Refresh(provider: Provider, generation: nat, caller: nat, finished: bool)

  datatype Publication = Publication(
    refresh: nat, provider: ProviderId, persist: Persist, update: Option<Catalogue>,
    previous: Option<nat>, phase: Phase, tailSettled: bool)

  /** An observable effect together with what was true at the instant it began. */
  datatype Effect =
    | StoreOpBegan(publication: nat, provider: ProviderId, generation: nat, newest: nat, aborted: bool)
    | MemoryUpdated(publication: nat, provider: ProviderId, generation: nat, newest: nat, aborted: bool,
                    target: Provider, installed: Option<Provider>, stored: Option<Catalogue>)

  datatype State = State(
    providers: map<ProviderId, Provider>,
    generations: map<ProviderId, nat>,
    controllers: map<ProviderId, nat>,       // the refresh whose controller is registered
    chains: map<ProviderId, nat>,            // the publication whose tail is registered
    abortedControllers: set<nat>,            // refreshes whose controller was aborted
    abortedCallers: set<nat>,                // caller signals that were aborted
    refreshes: seq<Refresh>,
    publications: seq<Publication>,
    store: map<ProviderId, Catalogue>,
    memory: map<Provider, Catalogue>,        // `dynamicModels` of each provider object
    log: seq<Effect>)

  const INITIAL := State(map[], map[], map[], map[], {}, {}, [], [], map[], map[], [])

  /** What the asynchronous task of one publication may do next. */
  datatype TaskStep = Resume | LandStoreOp | CompleteStoreOp | FailStoreOp | SettleTail | DropTail

  datatype Action =
    | SetProvider(provider: Provider)
    | DeleteProvider(id: ProviderId)
    | ClearProviders
    | BeginRefresh(id: ProviderId, caller: nat)
    | FinishRefresh(refresh: nat)
    | AbortCaller(caller: nat)
    | Publish(refresh: nat, persist: Persist, update: Option<Catalogue>)
    | Task(publication: nat, step: TaskStep)

  // ---------- Reading the state ----------

  function GenerationOf(s: State, id: ProviderId): nat {
    if id in s.generations then s.generations[id] else 0
  }

  predicate SignalAborted(s: State, refresh: nat)
    requires refresh < |s.refreshes|
  {
    refresh in s.abortedControllers || s.refreshes[refresh].caller in s.abortedCallers
  }

  /** The check made before and after the store operation. */
  predicate Current(s: State, refresh: nat)
    requires refresh < |s.refreshes|
  {
    !SignalAborted(s, refresh)
    && Lookup(s.generations, s.refreshes[refresh].provider.id) == Some(s.refreshes[refresh].generation)
  }

  /** What a store operation leaves under the provider's key. */
  function StoredAfter(persist: Persist): Option<Catalogue>
    requires !persist.Keep?
  {
    if persist.Write? then Some(persist.entry) else None
  }

  /** The store after the operation selected by `persist` has taken effect. */
  function Apply(persist: Persist, store: map<ProviderId, Catalogue>, id: ProviderId): map<ProviderId, Catalogue> {
    match persist
    case Keep => store
    case Remove => store - {id}
    case Write(entry) => store[id := entry]
  }

  predicate Refers(s: State, i: nat) {
    i < |s.publications| && s.publications[i].refresh < |s.refreshes|
  }

  // ---------- The atomic steps ----------

  /** Start a new generation for every id and abort the controllers registered for them. */
  function Supersede(s: State, ids: set<ProviderId>): State {
    s.(generations := map id | id in s.generations.Keys + ids ::
                        if id in ids then GenerationOf(s, id) + 1 else GenerationOf(s, id),
       controllers := s.controllers - ids,
       abortedControllers := s.abortedControllers + (set id | id in ids && id in s.controllers :: s.controllers[id]))
  }

  /** The part of the state that only provider and refresh actions change. */
  predicate SameRefreshes(s: State, t: State) {
    t.refreshes == s.refreshes && t.providers == s.providers && t.generations == s.generations
    && t.controllers == s.controllers && t.abortedControllers == s.abortedControllers
  }

  predicate SameCapture(x: Publication, y: Publication) {
    y.refresh == x.refresh && y.provider == x.provider && y.persist == x.persist && y.update == x.update
    && y.previous == x.previous
  }

  /** Only the phase of task `i` moves; what it captured and every other task stay. */
  ghost predicate MovesTask(s: State, t: State, i: nat)
    requires i < |s.publications|
  {
    && |t.publications| == |s.publications|
    && SameCapture(s.publications[i], t.publications[i])
    && forall k | 0 <= k < |s.publications| && k != i :: t.publications[k] == s.publications[k]
  }

  function SetPhase(s: State, i: nat, phase: Phase): (t: State)
    requires i < |s.publications|
    ensures MovesTask(s, t, i) && SameRefreshes(s, t) && t.chains == s.chains && t.log == s.log
    ensures t.store == s.store && t.memory == s.memory
    ensures t.publications[i].phase == phase && t.publications[i].tailSettled == s.publications[i].tailSettled
  {
    s.(publications := s.publications[i := s.publications[i].(phase := phase)])
  }

  function RunUpdate(s: State, i: nat): (t: State)
    requires Refers(s, i)
    ensures MovesTask(s, t, i) && SameRefreshes(s, t) && t.chains == s.chains
    ensures t.publications[i].phase == Settled(Published) && t.publications[i].tailSettled == s.publications[i].tailSettled
    ensures t.store == s.store
    ensures var x := s.publications[i];
            t.memory == if x.update.Some? then s.memory[s.refreshes[x.refresh].provider := x.update.value] else s.memory
  {
    var pub := s.publications[i];
    var r := s.refreshes[pub.refresh];
    SetPhase(s, i, Settled(Published)).(
      memory := if pub.update.Some? then s.memory[r.provider := pub.update.value] else s.memory,
      log := s.log + [MemoryUpdated(i, pub.provider, r.generation, GenerationOf(s, pub.provider),
                                    SignalAborted(s, pub.refresh), r.provider,
                                    Lookup(s.providers, pub.provider), Lookup(s.store, pub.provider))])
  }

  function BeginStoreOp(s: State, i: nat): (t: State)
    requires Refers(s, i)
    ensures MovesTask(s, t, i) && SameRefreshes(s, t) && t.chains == s.chains
    ensures t.publications[i].phase == Storing(false) && t.publications[i].tailSettled == s.publications[i].tailSettled
    ensures t.store == s.store && t.memory == s.memory
  {
    var pub := s.publications[i];
    SetPhase(s, i, Storing(false)).(
      log := s.log + [StoreOpBegan(i, pub.provider, s.refreshes[pub.refresh].generation,
                                   GenerationOf(s, pub.provider), SignalAborted(s, pub.refresh))])
  }

  function Enqueue(s: State, refresh: nat, persist: Persist, update: Option<Catalogue>): State
    requires refresh < |s.refreshes|
  {
    var id := s.refreshes[refresh].provider.id;
    s.(publications := s.publications
         + [Publication(refresh, id, persist, update, Lookup(s.chains, id), Waiting, false)],
       chains := s.chains[id := |s.publications|])
  }

  function StartRefresh(s: State, id: ProviderId, caller: nat): State
    requires id in s.providers
  {
    var s1 := Supersede(s, {id});
    s1.(refreshes := s1.refreshes + [Refresh(s.providers[id], GenerationOf(s1, id), caller, false)],
        controllers := s1.controllers[id := |s1.refreshes|])
  }

  function Finish(s: State, r: nat): State
    requires r < |s.refreshes|
  {
    var id := s.refreshes[r].provider.id;
    s.(refreshes := s.refreshes[r := s.refreshes[r].(finished := true)],
       controllers := if Lookup(s.controllers, id) == Some(r) then s.controllers - {id} else s.controllers)
  }

  predicate PreviousSettled(s: State, i: nat)
    requires i < |s.publications|
  {
    match s.publications[i].previous
    case None => true
    case Some(j) => j < |s.publications| && s.publications[j].tailSettled
  }

  predicate TaskEnabled(s: State, i: nat, step: TaskStep) {
    && Refers(s, i)
    && match step
       case Resume => s.publications[i].phase.Waiting? && PreviousSettled(s, i)
       case LandStoreOp => s.publications[i].phase == Storing(false)
       case CompleteStoreOp => s.publications[i].phase == Storing(true)
       case FailStoreOp => s.publications[i].phase.Storing?
       case SettleTail => s.publications[i].phase.Settled? && !s.publications[i].tailSettled
       case DropTail => s.publications[i].tailSettled
  }

  function NextTask(s: State, i: nat, step: TaskStep): State
    requires TaskEnabled(s, i, step)
  {
    var pub := s.publications[i];
    match step
    case Resume =>
      if !Current(s, pub.refresh) then SetPhase(s, i, Settled(Stale))
      else if pub.persist.Keep? then RunUpdate(s, i)
      else BeginStoreOp(s, i)
    case LandStoreOp =>
      SetPhase(s, i, Storing(true)).(store := Apply(pub.persist, s.store, pub.provider))
    case CompleteStoreOp =>
      if !Current(s, pub.refresh) then SetPhase(s, i, Settled(Stale)) else RunUpdate(s, i)
    case FailStoreOp =>
      SetPhase(s, i, Settled(Failed))
    case SettleTail =>
      s.(publications := s.publications[i := pub.(tailSettled := true)])
    case DropTail =>
      if Lookup(s.chains, pub.provider) == Some(i) then s.(chains := s.chains - {pub.provider}) else s
  }

  predicate Enabled(s: State, a: Action) {
    match a
    case BeginRefresh(id, _) => id in s.providers
    case FinishRefresh(r) => r < |s.refreshes| && !s.refreshes[r].finished
    case Publish(r, _, _) => r < |s.refreshes|
    case Task(i, step) => TaskEnabled(s, i, step)
    case _ => true
  }

  function Next(s: State, a: Action): State
    requires Enabled(s, a)
  {
    match a
    case SetProvider(provider) =>
      Supersede(s, {provider.id}).(providers := s.providers[provider.id := provider])
    case DeleteProvider(id) => Supersede(s, {id}).(providers := s.providers - {id})
    case ClearProviders => Supersede(s, s.providers.Keys + s.controllers.Keys).(providers := map[])
    case BeginRefresh(id, caller) => StartRefresh(s, id, caller)
    case FinishRefresh(r) => Finish(s, r)
    case AbortCaller(caller) => s.(abortedCallers := s.abortedCallers + {caller})
    case Publish(r, persist, update) => Enqueue(s, r, persist, update)
    case Task(i, step) => NextTask(s, i, step)
  }

  ghost predicate StepAt(states: seq<State>, i: nat)
    requires i + 1 < |states|
  {
    exists a :: Enabled(states[i], a) && states[i + 1] == Next(states[i], a)
  }

  /** Any interleaving of the actions, as the states it passes through. */
  ghost predicate Execution(states: seq<State>) {
    && |states| > 0 && states[0] == INITIAL
    && forall i: nat {:trigger StepAt(states, i)} | i + 1 < |states| :: StepAt(states, i)
  }

  function Now(states: seq<State>): State
    requires |states| > 0
  {
    states[|states| - 1]
  }

  // ---------- The invariant ----------

  /** Newest generation means installed provider, and an unfinished refresh is either registered or aborted. */
  ghost predicate RefreshOk(s: State, r: nat)
    requires r < |s.refreshes|
  {
    var x := s.refreshes[r];
    && x.provider.id in s.generations
    && x.generation <= s.generations[x.provider.id]
    && (x.generation == s.generations[x.provider.id] ==>
          && Lookup(s.providers, x.provider.id) == Some(x.provider)
          && (x.finished || Lookup(s.controllers, x.provider.id) == Some(r)))
    && (x.generation < s.generations[x.provider.id] ==> x.finished || r in s.abortedControllers)
  }

  ghost predicate RefreshesOk(s: State) {
    && (forall id | id in s.providers :: s.providers[id].id == id)
    && (forall r | 0 <= r < |s.refreshes| :: RefreshOk(s, r))
    && (forall id | id in s.controllers ::
          && s.controllers[id] < |s.refreshes|
          && s.refreshes[s.controllers[id]].provider.id == id
          && s.refreshes[s.controllers[id]].generation == GenerationOf(s, id))
  }

  ghost predicate PublicationOk(s: State, i: nat)
    requires i < |s.publications|
  {
    var x := s.publications[i];
    && x.refresh < |s.refreshes|
    && x.provider == s.refreshes[x.refresh].provider.id
    && (x.tailSettled ==> x.phase.Settled?)
    && (x.previous.Some? ==> x.previous.value < i && s.publications[x.previous.value].provider == x.provider)
    && (if x.provider in s.chains then i <= s.chains[x.provider] else x.tailSettled)
  }

  /** `k` was published before `i` for the same provider. */
  ghost predicate Ordered(s: State, k: nat, i: nat)
    requires k < i < |s.publications|
  {
    var x, y := s.publications[k], s.publications[i];
    x.provider == y.provider ==>
      && (!y.phase.Waiting? ==> x.tailSettled)
      && (y.previous.None? ==> x.tailSettled)
      && (y.previous.Some? ==> k <= y.previous.value)
  }

  /** The chain of publications of one provider, with entries deleted from the map as tails settle. */
  ghost predicate ChainsOk(s: State) {
    && (forall i | 0 <= i < |s.publications| :: PublicationOk(s, i))
    && (forall k, i | 0 <= k < i < |s.publications| :: Ordered(s, k, i))
    && (forall id | id in s.chains ::
          s.chains[id] < |s.publications| && s.publications[s.chains[id]].provider == id)
  }

  /** The most recent effect on a provider. */
  function LastEffect(log: seq<Effect>, id: ProviderId): Option<Effect> {
    if log == [] then None
    else if log[|log| - 1].provider == id then Some(log[|log| - 1])
    else LastEffect(log[..|log| - 1], id)
  }

  /** An effect began under the newest generation, unaborted, and on the installed provider object. */
  ghost predicate EffectOk(s: State, e: Effect) {
    && Refers(s, e.publication)
    && var x := s.publications[e.publication];
    && x.provider == e.provider
    && e.generation == e.newest <= GenerationOf(s, e.provider)
    && !e.aborted
    && (e.MemoryUpdated? ==>
          && e.installed == Some(e.target)
          && s.refreshes[x.refresh].provider == e.target
          && (!x.persist.Keep? ==> e.stored == StoredAfter(x.persist)))
  }

  ghost predicate LogOk(s: State) {
    && (forall e | e in s.log :: EffectOk(s, e))
    && (forall a, b | 0 <= a < b < |s.log| && s.log[a].provider == s.log[b].provider ::
          s.log[a].generation <= s.log[b].generation)
  }

  /** A task inside its store operation is the last effect of its provider, so nobody else touched the store. */
  ghost predicate StoringOk(s: State, i: nat)
    requires i < |s.publications|
  {
    var x := s.publications[i];
    x.phase.Storing? ==>
      && !x.persist.Keep?
      && var e := LastEffect(s.log, x.provider);
      && e.Some? && e.value.StoreOpBegan?
      && (x.phase.landed ==> Lookup(s.store, x.provider) == StoredAfter(x.persist))
  }

  /** After the in-memory update of a publication, store and memory are both what that publication chose. */
  ghost predicate LastUpdateHolds(s: State, id: ProviderId) {
    var e := LastEffect(s.log, id);
    e.Some? && e.value.MemoryUpdated? ==>
      && e.value.target.id == id
      && e.value.publication < |s.publications|
      && var x := s.publications[e.value.publication];
      && (!x.persist.Keep? ==> Lookup(s.store, id) == StoredAfter(x.persist))
      && (x.update.Some? ==> Lookup(s.memory, e.value.target) == x.update)
  }

  ghost predicate CataloguesOk(s: State) {
    && (forall i | 0 <= i < |s.publications| :: StoringOk(s, i))
    && (forall id :: LastUpdateHolds(s, id))
  }

  ghost predicate Inv(s: State) {
    RefreshesOk(s) && ChainsOk(s) && LogOk(s) && CataloguesOk(s)
  }

  // ---------- Every step keeps it ----------

  /** Replacing or removing providers under superseded ids leaves no newest refresh behind. */
  lemma SupersedeKeepsRefreshes(s: State, ids: set<ProviderId>, providers: map<ProviderId, Provider>)
    requires RefreshesOk(s)
    requires forall id | id in providers :: providers[id].id == id
    requires forall id :: id !in ids ==> Lookup(providers, id) == Lookup(s.providers, id)
    ensures RefreshesOk(Supersede(s, ids).(providers := providers))
  {
    var t := Supersede(s, ids).(providers := providers);
    forall r | 0 <= r < |t.refreshes| ensures RefreshOk(t, r) {
      assert RefreshOk(s, r);
    }
  }

  lemma StartRefreshKeepsRefreshes(s: State, id: ProviderId, caller: nat)
    requires RefreshesOk(s) && id in s.providers
    ensures RefreshesOk(StartRefresh(s, id, caller))
  {
    var s1 := Supersede(s, {id});
    SupersedeKeepsRefreshes(s, {id}, s.providers);
    assert s1 == s1.(providers := s.providers);
    var t := StartRefresh(s, id, caller);
    forall r | 0 <= r < |t.refreshes| ensures RefreshOk(t, r) {
      if r < |s.refreshes| {
        assert RefreshOk(s, r) && RefreshOk(s1, r);
      }
    }
  }

  lemma FinishRefreshKeepsRefreshes(s: State, r: nat)
    requires RefreshesOk(s) && r < |s.refreshes|
    ensures RefreshesOk(Finish(s, r))
  {
    var t := Finish(s, r);
    forall q | 0 <= q < |t.refreshes| ensures RefreshOk(t, q) {
      assert RefreshOk(s, q);
    }
  }

  lemma TasksMoveOneTask(s: State, i: nat, step: TaskStep)
    requires TaskEnabled(s, i, step)
    ensures SameRefreshes(s, NextTask(s, i, step)) && MovesTask(s, NextTask(s, i, step), i)
  {
  }

  lemma FramedRefreshesOk(s: State, t: State)
    requires RefreshesOk(s) && SameRefreshes(s, t)
    ensures RefreshesOk(t)
  {
    forall r | 0 <= r < |t.refreshes| ensures RefreshOk(t, r) {
      assert RefreshOk(s, r);
    }
  }

  lemma NextKeepsRefreshes(s: State, a: Action)
    requires Enabled(s, a) && RefreshesOk(s)
    ensures RefreshesOk(Next(s, a))
  {
    match a
    case SetProvider(provider) =>
      SupersedeKeepsRefreshes(s, {provider.id}, s.providers[provider.id := provider]);
    case DeleteProvider(id) =>
      SupersedeKeepsRefreshes(s, {id}, s.providers - {id});
    case ClearProviders =>
      SupersedeKeepsRefreshes(s, s.providers.Keys + s.controllers.Keys, map[]);
    case BeginRefresh(id, caller) =>
      StartRefreshKeepsRefreshes(s, id, caller);
    case FinishRefresh(r) =>
      FinishRefreshKeepsRefreshes(s, r);
    case AbortCaller(_) =>
      FramedRefreshesOk(s, Next(s, a));
    case Publish(_, _, _) =>
      FramedRefreshesOk(s, Next(s, a));
    case Task(i, step) =>
      TasksMoveOneTask(s, i, step);
      FramedRefreshesOk(s, Next(s, a));
  }

  /** Refresh actions only add refreshes or mark them finished. */
  predicate SameChains(s: State, t: State) {
    && t.publications == s.publications && t.chains == s.chains
    && |s.refreshes| <= |t.refreshes|
    && forall r | 0 <= r < |s.refreshes| :: t.refreshes[r].provider == s.refreshes[r].provider
  }

  lemma FramedChainsOk(s: State, t: State)
    requires ChainsOk(s) && SameChains(s, t)
    ensures ChainsOk(t)
  {
    forall i | 0 <= i < |t.publications| ensures PublicationOk(t, i) {
      assert PublicationOk(s, i);
    }
    forall k, i | 0 <= k < i < |t.publications| ensures Ordered(t, k, i) {
      assert Ordered(s, k, i);
    }
  }

  lemma EnqueueKeepsChains(s: State, refresh: nat, persist: Persist, update: Option<Catalogue>)
    requires ChainsOk(s) && refresh < |s.refreshes|
    ensures ChainsOk(Enqueue(s, refresh, persist, update))
  {
    var t := Enqueue(s, refresh, persist, update);
    var n := |s.publications|;
    forall i | 0 <= i < |t.publications| ensures PublicationOk(t, i) {
      if i < n { assert PublicationOk(s, i); }
    }
    forall k, i | 0 <= k < i < |t.publications| ensures Ordered(t, k, i) {
      assert PublicationOk(s, k);
      if i < n { assert Ordered(s, k, i); }
    }
  }

  /** A task leaves `Waiting` only after its predecessor, and its tail settles only after itself. */
  ghost predicate LegalMove(s: State, t: State, i: nat)
    requires Refers(s, i) && |t.publications| == |s.publications|
  {
    var x, y := s.publications[i], t.publications[i];
    && (x.tailSettled ==> y.tailSettled)
    && (y.tailSettled ==> y.phase.Settled?)
    && (x.phase.Waiting? && !y.phase.Waiting? ==> PreviousSettled(s, i))
  }

  lemma TasksMoveLegally(s: State, i: nat, step: TaskStep)
    requires TaskEnabled(s, i, step) && !step.DropTail? && |NextTask(s, i, step).publications| == |s.publications|
    requires s.publications[i].tailSettled ==> s.publications[i].phase.Settled?
    ensures NextTask(s, i, step).chains == s.chains && LegalMove(s, NextTask(s, i, step), i)
  {
    match step
    case Resume =>
    case LandStoreOp =>
    case CompleteStoreOp =>
    case FailStoreOp =>
    case SettleTail =>
  }

  lemma MovedTaskKeepsChains(s: State, t: State, i: nat)
    requires ChainsOk(s) && Refers(s, i) && MovesTask(s, t, i) && LegalMove(s, t, i)
    requires t.refreshes == s.refreshes && t.chains == s.chains
    ensures ChainsOk(t)
  {
    forall k | 0 <= k < |t.publications| ensures PublicationOk(t, k) {
      assert PublicationOk(s, k);
    }
    forall k, j | 0 <= k < j < |t.publications| ensures Ordered(t, k, j) {
      assert Ordered(s, k, j);
      if j == i && s.publications[i].previous.Some? && k < s.publications[i].previous.value {
        var prev := s.publications[i].previous.value;
        assert PublicationOk(s, i) && PublicationOk(s, prev);
        assert Ordered(s, k, prev);
      }
    }
  }

  lemma DropTailKeepsChains(s: State, i: nat)
    requires ChainsOk(s) && TaskEnabled(s, i, DropTail)
    ensures ChainsOk(NextTask(s, i, DropTail))
  {
    var t := NextTask(s, i, DropTail);
    var id := s.publications[i].provider;
    forall k | 0 <= k < |t.publications| ensures PublicationOk(t, k) {
      assert PublicationOk(s, k);
      if s.publications[k].provider == id && Lookup(s.chains, id) == Some(i) && k < i {
        assert PublicationOk(s, i) && Ordered(s, k, i);
      }
    }
    forall k, j | 0 <= k < j < |t.publications| ensures Ordered(t, k, j) {
      assert Ordered(s, k, j);
    }
  }

  lemma TasksKeepChains(s: State, i: nat, step: TaskStep)
    requires ChainsOk(s) && TaskEnabled(s, i, step)
    ensures ChainsOk(NextTask(s, i, step))
  {
    assert PublicationOk(s, i);
    if step.DropTail? {
      DropTailKeepsChains(s, i);
    } else {
      TasksMoveOneTask(s, i, step);
      TasksMoveLegally(s, i, step);
      MovedTaskKeepsChains(s, NextTask(s, i, step), i);
    }
  }

  lemma NextKeepsChains(s: State, a: Action)
    requires Enabled(s, a) && ChainsOk(s)
    ensures ChainsOk(Next(s, a))
  {
    match a
    case Publish(r, persist, update) => EnqueueKeepsChains(s, r, persist, update);
    case Task(i, step) => TasksKeepChains(s, i, step);
    case _ => FramedChainsOk(s, Next(s, a));
  }

  /** Publications and refreshes keep what they captured, and generations only grow. */
  ghost predicate Grows(s: State, t: State) {
    && |s.publications| <= |t.publications| && |s.refreshes| <= |t.refreshes|
    && (forall i | 0 <= i < |s.publications| :: SameCapture(s.publications[i], t.publications[i]))
    && (forall r | 0 <= r < |s.refreshes| :: t.refreshes[r].provider == s.refreshes[r].provider)
    && (forall id :: GenerationOf(s, id) <= GenerationOf(t, id))
  }

  lemma TasksGrow(s: State, i: nat, step: TaskStep)
    requires TaskEnabled(s, i, step)
    ensures Grows(s, NextTask(s, i, step))
  {
    TasksMoveOneTask(s, i, step);
  }

  lemma NextGrows(s: State, a: Action)
    requires Enabled(s, a)
    ensures Grows(s, Next(s, a))
  {
    match a
    case Task(i, step) => TasksGrow(s, i, step);
    case BeginRefresh(id, caller) => assert Grows(s, StartRefresh(s, id, caller));
    case Publish(r, persist, update) => assert Grows(s, Enqueue(s, r, persist, update));
    case _ =>
  }

  predicate NewEffect(s: State, a: Action) {
    a.Task? && TaskEnabled(s, a.publication, a.step) && (a.step.Resume? || a.step.CompleteStoreOp?)
    && Current(s, s.publications[a.publication].refresh)
  }

  lemma QuietTasksKeepLog(s: State, i: nat, step: TaskStep)
    requires TaskEnabled(s, i, step) && !NewEffect(s, Task(i, step))
    ensures NextTask(s, i, step).log == s.log
  {
  }

  lemma QuietStepsKeepLog(s: State, a: Action)
    requires Enabled(s, a) && !NewEffect(s, a)
    ensures Next(s, a).log == s.log
  {
    if a.Task? { QuietTasksKeepLog(s, a.publication, a.step); }
  }

  lemma NewEffectOk(s: State, a: Action)
    requires Enabled(s, a) && Inv(s) && NewEffect(s, a)
    ensures var t := Next(s, a);
            |t.log| == |s.log| + 1 && s.log <= t.log && EffectOk(s, t.log[|s.log|])
            && t.log[|s.log|].generation == GenerationOf(s, t.log[|s.log|].provider)
  {
    var i := a.publication;
    assert PublicationOk(s, i) && StoringOk(s, i);
    assert RefreshOk(s, s.publications[i].refresh);
  }

  lemma GrownLogOk(s: State, t: State)
    requires LogOk(s) && Grows(s, t)
    requires s.log <= t.log
    requires forall a | |s.log| <= a < |t.log| ::
               a == |s.log| && EffectOk(s, t.log[a]) && t.log[a].generation == GenerationOf(s, t.log[a].provider)
    ensures LogOk(t)
  {
    forall e | e in t.log ensures EffectOk(t, e) {
      assert EffectOk(s, e);
    }
    forall a, b | 0 <= a < b < |t.log| && t.log[a].provider == t.log[b].provider
      ensures t.log[a].generation <= t.log[b].generation
    {
      assert t.log[a] == s.log[a] && s.log[a] in s.log && EffectOk(s, s.log[a]);
    }
  }

  lemma NextKeepsLog(s: State, a: Action)
    requires Enabled(s, a) && Inv(s)
    ensures LogOk(Next(s, a))
  {
    NextGrows(s, a);
    if NewEffect(s, a) {
      NewEffectOk(s, a);
    } else {
      QuietStepsKeepLog(s, a);
    }
    GrownLogOk(s, Next(s, a));
  }

  /** Two publications of one provider are never inside their store operations together. */
  lemma OneStoreOpAtATime(s: State, i: nat, j: nat)
    requires ChainsOk(s) && i < |s.publications| && j < |s.publications|
    requires s.publications[i].provider == s.publications[j].provider
    requires s.publications[i].phase.Storing? && s.publications[j].phase.Storing?
    ensures i == j
  {
    assert PublicationOk(s, i) && PublicationOk(s, j);
    assert i < j ==> Ordered(s, i, j);
    assert j < i ==> Ordered(s, j, i);
  }

  /** A publication that leaves `Waiting` finds no other task of its provider inside a store operation. */
  lemma NobodyElseStoring(s: State, i: nat, j: nat)
    requires ChainsOk(s) && TaskEnabled(s, i, Resume) && j < |s.publications|
    requires s.publications[i].provider == s.publications[j].provider
    ensures !s.publications[j].phase.Storing?
  {
    assert PublicationOk(s, i) && PublicationOk(s, j);
    if j < i {
      assert Ordered(s, j, i);
      if s.publications[i].previous.Some? && j < s.publications[i].previous.value {
        var prev := s.publications[i].previous.value;
        assert PublicationOk(s, prev) && Ordered(s, j, prev);
      }
    } else if i < j {
      assert Ordered(s, i, j);
    }
  }

  lemma UpdateKeepsCatalogues(s: State, i: nat)
    requires CataloguesOk(s) && Refers(s, i)
    requires s.publications[i].provider == s.refreshes[s.publications[i].refresh].provider.id
    requires forall j | 0 <= j < |s.publications| && j != i && s.publications[j].phase.Storing? ::
               s.publications[j].provider != s.publications[i].provider
    requires !s.publications[i].persist.Keep? ==>
               Lookup(s.store, s.publications[i].provider) == StoredAfter(s.publications[i].persist)
    ensures CataloguesOk(RunUpdate(s, i))
  {
    var t := RunUpdate(s, i);
    assert t.log[..|s.log|] == s.log;
    forall j | 0 <= j < |t.publications| ensures StoringOk(t, j) {
      assert StoringOk(s, j);
    }
    forall other ensures LastUpdateHolds(t, other) {
      assert LastUpdateHolds(s, other);
    }
  }

  lemma BeginKeepsCatalogues(s: State, i: nat)
    requires CataloguesOk(s) && Refers(s, i) && !s.publications[i].persist.Keep?
    requires forall j | 0 <= j < |s.publications| && s.publications[j].phase.Storing? ::
               s.publications[j].provider != s.publications[i].provider
    ensures CataloguesOk(BeginStoreOp(s, i))
  {
    var t := BeginStoreOp(s, i);
    assert t.log[..|s.log|] == s.log;
    forall j | 0 <= j < |t.publications| ensures StoringOk(t, j) {
      assert StoringOk(s, j);
    }
    forall other ensures LastUpdateHolds(t, other) {
      assert LastUpdateHolds(s, other);
    }
  }

  lemma EffectStepKeepsCatalogues(s: State, i: nat, step: TaskStep)
    requires Inv(s) && TaskEnabled(s, i, step) && NewEffect(s, Task(i, step))
    ensures CataloguesOk(NextTask(s, i, step))
  {
    assert PublicationOk(s, i) && StoringOk(s, i);
    forall j | 0 <= j < |s.publications| && j != i && s.publications[j].phase.Storing?
      ensures s.publications[j].provider != s.publications[i].provider
    {
      if s.publications[j].provider == s.publications[i].provider {
        if step.Resume? { NobodyElseStoring(s, i, j); } else { OneStoreOpAtATime(s, i, j); }
      }
    }
    if step.Resume? && !s.publications[i].persist.Keep? {
      BeginKeepsCatalogues(s, i);
    } else {
      UpdateKeepsCatalogues(s, i);
    }
  }

  lemma QuietTasksKeepCatalogues(s: State, i: nat, step: TaskStep)
    requires Inv(s) && TaskEnabled(s, i, step) && !NewEffect(s, Task(i, step))
    ensures CataloguesOk(NextTask(s, i, step))
  {
    var t := NextTask(s, i, step);
    QuietStepsKeepLog(s, Task(i, step));
    assert StoringOk(s, i);
    forall j | 0 <= j < |t.publications| ensures StoringOk(t, j) {
      assert StoringOk(s, j);
      if step.LandStoreOp? && j != i && s.publications[j].provider == s.publications[i].provider
         && s.publications[j].phase.Storing? {
        OneStoreOpAtATime(s, i, j);
      }
    }
    forall id ensures LastUpdateHolds(t, id) {
      assert LastUpdateHolds(s, id);
    }
  }

  lemma NextKeepsCatalogues(s: State, a: Action)
    requires Enabled(s, a) && Inv(s)
    ensures CataloguesOk(Next(s, a))
  {
    var t := Next(s, a);
    if a.Task? {
      if NewEffect(s, a) {
        EffectStepKeepsCatalogues(s, a.publication, a.step);
      } else {
        QuietTasksKeepCatalogues(s, a.publication, a.step);
      }
    } else {
      QuietStepsKeepLog(s, a);
      NextGrows(s, a);
      forall j | 0 <= j < |t.publications| ensures StoringOk(t, j) {
        assert j < |s.publications| ==> StoringOk(s, j);
      }
      forall id ensures LastUpdateHolds(t, id) {
        assert LastUpdateHolds(s, id);
      }
    }
  }

  // ---------- What holds in every execution ----------

  lemma NextKeepsInv(s: State, a: Action)
    requires Enabled(s, a) && Inv(s)
    ensures Inv(Next(s, a))
  {
    NextKeepsRefreshes(s, a);
    NextKeepsChains(s, a);
    NextKeepsLog(s, a);
    NextKeepsCatalogues(s, a);
  }

  lemma {:induction false} ExecutionKeepsInv(states: seq<State>)
    requires Execution(states)
    ensures Inv(Now(states))
  {
    hide Inv, Next, Enabled;
    var n := |states| - 1;
    if n == 0 {
      InitialInv();
    } else {
      var before := states[..n];
      forall i: nat | i + 1 < |before| ensures StepAt(before, i) {
        assert StepAt(states, i);
      }
      ExecutionKeepsInv(before);
      assert StepAt(states, n - 1);
      var a :| Enabled(states[n - 1], a) && states[n] == Next(states[n - 1], a);
      NextKeepsInv(states[n - 1], a);
    }
  }

  lemma InitialInv()
    ensures Inv(INITIAL)
  {
  }

  /** Publications of one provider never overlap: one store operation at a time, in publication order. */
  lemma PublicationsNeverOverlap(states: seq<State>, k: nat, i: nat)
    requires Execution(states) && k < i < |Now(states).publications|
    requires Now(states).publications[k].provider == Now(states).publications[i].provider
    ensures !Now(states).publications[i].phase.Waiting? ==> Now(states).publications[k].phase.Settled?
  {
    ExecutionKeepsInv(states);
    var s := Now(states);
    assert Ordered(s, k, i) && PublicationOk(s, k);
  }

  /** Effects on one provider, store writes among them, begin in non-decreasing generation order. */
  lemma EffectsInGenerationOrder(states: seq<State>, a: nat, b: nat)
    requires Execution(states) && a < b < |Now(states).log|
    requires Now(states).log[a].provider == Now(states).log[b].provider
    ensures Now(states).log[a].generation <= Now(states).log[b].generation
  {
    ExecutionKeepsInv(states);
  }

  /** No store operation or in-memory update begins once a newer generation exists or the refresh was
      aborted, and an update only ever reaches the provider object that is installed at that instant. */
  lemma NoStaleEffect(states: seq<State>, e: Effect)
    requires Execution(states) && e in Now(states).log
    ensures e.generation == e.newest && !e.aborted
    ensures e.MemoryUpdated? ==> e.installed == Some(e.target)
  {
    ExecutionKeepsInv(states);
    assert EffectOk(Now(states), e);
  }

  // ---------- What one step can do ----------

  /** The refresh of a publication has the newest generation of its provider, and nobody has aborted it. */
  ghost predicate Live(s: State, i: nat)
    requires Refers(s, i)
  {
    var r := s.publications[i].refresh;
    && r !in s.abortedControllers && s.refreshes[r].caller !in s.abortedCallers
    && s.refreshes[r].provider.id in s.generations
    && s.generations[s.refreshes[r].provider.id] == s.refreshes[r].generation
  }

  /** The catalogue of a provider object changes only while it is installed, through a publication of its own
      that is live, and to what this one gives. */
  lemma MemoryChangesOnlyWhenLive(s: State, a: Action, provider: Provider)
    requires Inv(s) && Enabled(s, a) && Lookup(Next(s, a).memory, provider) != Lookup(s.memory, provider)
    ensures Lookup(s.providers, provider.id) == Some(provider)
    ensures a.Task? && Refers(s, a.publication) && Live(s, a.publication)
    ensures s.refreshes[s.publications[a.publication].refresh].provider == provider
    ensures Lookup(Next(s, a).memory, provider) == s.publications[a.publication].update
  {
    if !a.Task? {
      OnlyTasksTouchCatalogues(s, a);
    } else {
      TasksTouchMemory(s, a.publication, a.step);
      assert PublicationOk(s, a.publication) && RefreshOk(s, s.publications[a.publication].refresh);
      assert Next(s, a) == NextTask(s, a.publication, a.step);
    }
    hide Next, NextTask, Inv, PublicationOk, RefreshOk;
  }

  lemma OnlyTasksTouchCatalogues(s: State, a: Action)
    requires Enabled(s, a) && !a.Task?
    ensures Next(s, a).store == s.store && Next(s, a).memory == s.memory
  {
  }

  lemma TasksTouchMemory(s: State, i: nat, step: TaskStep)
    requires TaskEnabled(s, i, step)
    ensures var x, t := s.publications[i], NextTask(s, i, step);
            t.memory == s.memory ||
            (&& Current(s, x.refresh) && x.update.Some?
             && t.memory == s.memory[s.refreshes[x.refresh].provider := x.update.value])
  {
    hide SetPhase, RunUpdate, BeginStoreOp, Current;
  }

  lemma TasksTouchStore(s: State, i: nat, step: TaskStep)
    requires TaskEnabled(s, i, step)
    ensures var x, t := s.publications[i], NextTask(s, i, step);
            t.store == s.store || (x.phase == Storing(false) && t.store == Apply(x.persist, s.store, x.provider))
  {
    hide SetPhase, RunUpdate, BeginStoreOp, Current, Apply;
  }

  /** A persisted catalogue changes only through a publication that is at its store operation, and becomes
      exactly what this one persists. */
  lemma StoreChangesOnlyWhileStoring(s: State, a: Action, id: ProviderId)
    requires Inv(s) && Enabled(s, a) && Lookup(Next(s, a).store, id) != Lookup(s.store, id)
    ensures a.Task? && Refers(s, a.publication)
    ensures var pub := s.publications[a.publication];
            && pub.provider == id && pub.phase == Storing(false)
            && (pub.persist.Write? ==> Lookup(Next(s, a).store, id) == Some(pub.persist.entry))
            && (pub.persist.Remove? ==> id !in Next(s, a).store)
            && !pub.persist.Keep?
  {
    if !a.Task? {
      OnlyTasksTouchCatalogues(s, a);
    } else {
      TasksTouchStore(s, a.publication, a.step);
      assert StoringOk(s, a.publication);
      assert Next(s, a) == NextTask(s, a.publication, a.step);
    }
    hide Next, NextTask, Inv, StoringOk;
  }

  /** A publication enters its store operation or publishes only while it is live, and is dropped as stale only
      while it is not, and has then changed nothing. */
  ghost predicate Moves(s: State, t: State, i: nat)
    requires Refers(s, i) && i < |t.publications|
  {
    var x, y := s.publications[i], t.publications[i];
    && (y.phase == Storing(false) ==> x.phase.Waiting? && Live(s, i) && !x.persist.Keep?)
    && (y.phase == Storing(true) ==> x.phase == Storing(false))
    && (y.phase == Settled(Published) ==>
          && Live(s, i) && x.phase == (if x.persist.Keep? then Waiting else Storing(true))
          && t.memory == if x.update.Some? then s.memory[s.refreshes[x.refresh].provider := x.update.value] else s.memory)
    && (y.phase == Settled(Stale) ==> !Live(s, i) && t.memory == s.memory && t.store == s.store)
    && (y.phase == Settled(Failed) ==> x.phase.Storing? && t.memory == s.memory && t.store == s.store)
    && !y.phase.Waiting?
  }

  lemma PublicationsMove(s: State, a: Action, i: nat)
    requires Inv(s) && Enabled(s, a) && i < |s.publications|
    ensures i < |Next(s, a).publications| && Refers(s, i)
    ensures Next(s, a).publications[i].phase == s.publications[i].phase || Moves(s, Next(s, a), i)
  {
    assert PublicationOk(s, i) && StoringOk(s, i);
    if a.Task? && a.publication == i {
      TaskMoves(s, i, a.step);
      assert Next(s, a) == NextTask(s, i, a.step);
    } else {
      OthersStay(s, a, i);
    }
    hide Inv, PublicationOk, StoringOk, Next, NextTask, Moves;
  }

  lemma OthersStay(s: State, a: Action, i: nat)
    requires Enabled(s, a) && i < |s.publications| && !(a.Task? && a.publication == i)
    ensures i < |Next(s, a).publications| && Next(s, a).publications[i] == s.publications[i]
  {
    if a.Task? {
      TasksMoveOneTask(s, a.publication, a.step);
    }
    hide NextTask, Supersede;
  }

  lemma TaskMoves(s: State, i: nat, step: TaskStep)
    requires TaskEnabled(s, i, step) && (s.publications[i].phase.Storing? ==> !s.publications[i].persist.Keep?)
    ensures i < |NextTask(s, i, step).publications|
    ensures NextTask(s, i, step).publications[i].phase == s.publications[i].phase || Moves(s, NextTask(s, i, step), i)
  {
    hide SetPhase, RunUpdate, BeginStoreOp, Apply;
  }

  /** How many steps a publication is from the end of its tail. */
  function StepsLeft(x: Publication): nat {
    match x.phase
    case Waiting => 4
    case Storing(landed) => if landed then 2 else 3
    case Settled(_) => if x.tailSettled then 0 else 1
  }

  /** Every step of a task but the last, which only cleans up, brings its tail nearer to its end. */
  lemma TasksEnd(s: State, i: nat, step: TaskStep)
    requires TaskEnabled(s, i, step) && !step.DropTail?
    ensures i < |NextTask(s, i, step).publications|
    ensures StepsLeft(NextTask(s, i, step).publications[i]) < StepsLeft(s.publications[i])
    ensures step.SettleTail? ==> NextTask(s, i, step).publications[i].tailSettled
  {
  }

  /** A chain never gets stuck: once the tails before it have settled, a publication whose own has not has a
      step to take. */
  lemma ChainsGoOn(s: State, i: nat)
    requires Inv(s) && i < |s.publications| && !s.publications[i].tailSettled
    requires forall k | 0 <= k < i && s.publications[k].provider == s.publications[i].provider :: s.publications[k].tailSettled
    ensures exists step: TaskStep :: !step.DropTail? && TaskEnabled(s, i, step)
  {
    assert PublicationOk(s, i);
    var step := match s.publications[i].phase
      case Waiting => Resume
      case Storing(landed) => if landed then CompleteStoreOp else LandStoreOp
      case Settled(_) => SettleTail;
    assert TaskEnabled(s, i, step);
  }

  /** The last step of a task leaves no chain entry of its own, and one of a later publication in place. */
  lemma TailsAreDropped(s: State, i: nat)
    requires TaskEnabled(s, i, DropTail)
    ensures var t, id := NextTask(s, i, DropTail), s.publications[i].provider;
            && Lookup(t.chains, id) == (if Lookup(s.chains, id) == Some(i) then None else Lookup(s.chains, id))
            && (forall other: ProviderId | other != id :: Lookup(t.chains, other) == Lookup(s.chains, other))
            && t.publications == s.publications && t.memory == s.memory && t.store == s.store
  {
  }

  /** Replacing, removing and clearing: what is installed afterwards, and that every refresh of the ids concerned
      is superseded, its controller aborted and forgotten, and no other touched. */
  lemma ProvidersChange(s: State, a: Action)
    requires a.SetProvider? || a.DeleteProvider? || a.ClearProviders?
    ensures var t := Next(s, a);
            && t.providers == (match a
                               case SetProvider(provider) => s.providers[provider.id := provider]
                               case DeleteProvider(id) => s.providers - {id}
                               case _ => map[])
            && (forall id: ProviderId ::
                  var concerned := match a
                                   case SetProvider(provider) => id == provider.id
                                   case DeleteProvider(d) => id == d
                                   case _ => id in s.providers || id in s.controllers;
                  && (concerned ==>
                        && id in t.generations && id !in t.controllers
                        && t.generations[id] == (if id in s.generations then s.generations[id] else 0) + 1
                        && (id in s.controllers ==> s.controllers[id] in t.abortedControllers))
                  && (!concerned ==> Lookup(t.generations, id) == Lookup(s.generations, id)
                                     && Lookup(t.controllers, id) == Lookup(s.controllers, id)))
            && (forall r | r in t.abortedControllers && r !in s.abortedControllers :: r in s.controllers.Values)
            && t.refreshes == s.refreshes && t.publications == s.publications && t.store == s.store && t.memory == s.memory
  {
  }

  /** A refresh begins for the installed object with a generation of its own and the registered controller,
      and ends by forgetting the controller if it is still its own. */
  lemma RefreshesBeginAndEnd(s: State, id: ProviderId, caller: nat, r: nat)
    ensures id in s.providers ==>
              var t, n := Next(s, BeginRefresh(id, caller)), |s.refreshes|;
              && t.refreshes == s.refreshes + [Refresh(s.providers[id], GenerationOf(s, id) + 1, caller, false)]
              && Lookup(t.generations, id) == Some(GenerationOf(s, id) + 1) && Lookup(t.controllers, id) == Some(n)
              && (id in s.controllers ==> s.controllers[id] in t.abortedControllers)
              && t.providers == s.providers
    ensures r < |s.refreshes| && !s.refreshes[r].finished ==>
              var t, id := Next(s, FinishRefresh(r)), s.refreshes[r].provider.id;
              && |t.refreshes| == |s.refreshes| && t.refreshes[r] == s.refreshes[r].(finished := true)
              && Lookup(t.controllers, id) == (if Lookup(s.controllers, id) == Some(r) then None else Lookup(s.controllers, id))
              && t.abortedControllers == s.abortedControllers
    ensures var t := Next(s, AbortCaller(caller));
            forall k | 0 <= k < |s.refreshes| && s.refreshes[k].caller == caller :: SignalAborted(t, k)
  {
  }

  // ---------- An abort listener that re-enters `setProvider` ----------

  /** The second half of `setProvider` (and, with `None`, of `deleteProvider`), once superseding has
      aborted the refresh whose listeners may run in between. */
  function Install(s: State, id: ProviderId, provider: Option<Provider>): State {
    s.(providers := if provider.Some? then s.providers[id := provider.value] else s.providers - {id})
  }

  lemma ReplacingInTwoHalves(s: State, provider: Provider)
    ensures Next(s, SetProvider(provider)) == Install(Supersede(s, {provider.id}), provider.id, Some(provider))
    ensures Next(s, DeleteProvider(provider.id)) == Install(Supersede(s, {provider.id}), provider.id, None)
  {
  }

  /** A refresh with the newest generation of `id`, begun for some other object than `provider`. */
  ghost predicate BegunInBetween(s: State, id: ProviderId, provider: Option<Provider>, r: int) {
    && 0 <= r < |s.refreshes| && s.refreshes[r].provider.id == id && s.refreshes[r].generation == GenerationOf(s, id)
    && provider != Some(s.refreshes[r].provider)
  }

  /** Whatever listeners do between the halves, the second keeps the invariant exactly when no refresh of
      this id has begun for an object that it replaces. */
  lemma InstallKeepsExactly(s: State, id: ProviderId, provider: Option<Provider>)
    requires RefreshesOk(s) && (provider.Some? ==> provider.value.id == id)
    ensures RefreshesOk(Install(s, id, provider)) <==> forall r :: !BegunInBetween(s, id, provider, r)
  {
    var t := Install(s, id, provider);
    forall r: nat | r < |s.refreshes| ensures RefreshOk(t, r) <==> !BegunInBetween(s, id, provider, r) {
      assert RefreshOk(s, r);
    }
    if forall r :: !BegunInBetween(s, id, provider, r) {
      assert forall r: nat | r < |t.refreshes| :: RefreshOk(t, r);
    }
    if RefreshesOk(t) {
      forall r ensures !BegunInBetween(s, id, provider, r) {
        assert 0 <= r < |t.refreshes| ==> RefreshOk(t, r);
      }
    }
  }

  const REPLACED := Provider("p", 1)
  const REPLACEMENT := Provider("p", 2)

  /** The old provider is being refreshed. */
  const REFRESHING: State := State(
    map["p" := REPLACED], map["p" := 2], map["p" := 0], map[], {}, {}, [Refresh(REPLACED, 2, 0, false)], [], map[], map[], [])

  /** It is about to be replaced, and its refresh has been aborted. */
  const SUPERSEDED: State := REFRESHING.(generations := map["p" := 3], controllers := map[], abortedControllers := {0})

  /** An abort listener has refreshed it once more. */
  const REFRESHED_AGAIN: State := SUPERSEDED.(
    generations := map["p" := 4], controllers := map["p" := 1],
    refreshes := [Refresh(REPLACED, 2, 0, false), Refresh(REPLACED, 4, 1, false)])

  /** The replacement is installed, and the new refresh publishes. */
  const PUBLISHING: State := REFRESHED_AGAIN.(
    providers := map["p" := REPLACEMENT],
    publications := [Publication(1, "p", Keep, Some(["model"]), None, Waiting, false)], chains := map["p" := 0])

  lemma RefreshingIsReached()
    ensures Next(Next(INITIAL, SetProvider(REPLACED)), BeginRefresh("p", 0)) == REFRESHING
  {
    var installed := Next(INITIAL, SetProvider(REPLACED));
    assert installed == State(map["p" := REPLACED], map["p" := 1], map[], map[], {}, {}, [], [], map[], map[], []);
    assert Supersede(installed, {"p"}) == installed.(generations := map["p" := 2]);
  }

  lemma SupersededIsReached()
    ensures Supersede(REFRESHING, {"p"}) == SUPERSEDED
  {
    assert Supersede(REFRESHING, {"p"}).abortedControllers == {0};
  }

  lemma RefreshedAgainIsReached()
    ensures StartRefresh(SUPERSEDED, "p", 1) == REFRESHED_AGAIN
  {
    assert Supersede(SUPERSEDED, {"p"}) == SUPERSEDED.(generations := map["p" := 4]);
  }

  lemma PublishingIsReached()
    ensures Enqueue(Install(REFRESHED_AGAIN, "p", Some(REPLACEMENT)), 1, Keep, Some(["model"])) == PUBLISHING
  {
    assert REFRESHED_AGAIN.providers["p" := REPLACEMENT] == map["p" := REPLACEMENT];
  }

  /** The publication of the refresh that began in between updates an object that is no longer installed. */
  lemma ReentrantAbortMissesInstalled()
    ensures Next(Next(INITIAL, SetProvider(REPLACED)), BeginRefresh("p", 0)) == REFRESHING
    ensures Enqueue(Install(StartRefresh(Supersede(REFRESHING, {"p"}), "p", 1), "p", Some(REPLACEMENT)), 1, Keep,
                    Some(["model"])) == PUBLISHING
    ensures Current(PUBLISHING, 1)
    ensures NextTask(PUBLISHING, 0, Resume).log ==
            [MemoryUpdated(0, "p", 4, 4, false, REPLACED, Some(REPLACEMENT), None)]
  {
    RefreshingIsReached();
    SupersededIsReached();
    RefreshedAgainIsReached();
    PublishingIsReached();
    hide Supersede, StartRefresh, Enqueue;
  }

  /** An in-memory update finds in the store exactly what its own publication persisted. */
  lemma UpdateFollowsOwnStoreOp(states: seq<State>, e: Effect)
    requires Execution(states) && e in Now(states).log && e.MemoryUpdated?
    ensures e.publication < |Now(states).publications|
    ensures var persist := Now(states).publications[e.publication].persist;
            !persist.Keep? ==> e.stored == StoredAfter(persist)
  {
    ExecutionKeepsInv(states);
    assert EffectOk(Now(states), e);
  }

  /** A superseded refresh that has not returned yet sees its signal aborted. */
  lemma SupersededRefreshIsAborted(states: seq<State>, r: nat)
    requires Execution(states) && r < |Now(states).refreshes| && !Now(states).refreshes[r].finished
    requires Now(states).refreshes[r].generation != GenerationOf(Now(states), Now(states).refreshes[r].provider.id)
    ensures SignalAborted(Now(states), r)
  {
    ExecutionKeepsInv(states);
    assert RefreshOk(Now(states), r);
  }

  /** Whenever the last effect on a provider is the update of a fetched overlay, the persisted
      catalogue and the provider's in-memory catalogue are the same one. */
  lemma StoreAgreesWithMemory(states: seq<State>, id: ProviderId, e: Effect)
    requires Execution(states) && LastEffect(Now(states).log, id) == Some(e) && e.MemoryUpdated?
    requires e.publication < |Now(states).publications|
    requires var x := Now(states).publications[e.publication]; x.update.Some? && x.persist == Write(x.update.value)
    ensures Lookup(Now(states).store, id).Some?
    ensures Lookup(Now(states).store, id) == Lookup(Now(states).memory, e.target)
  {
    ExecutionKeepsInv(states);
    assert LastUpdateHolds(Now(states), id);
  }

  // ---------- The class ----------

  /** `ModelsImpl`: the four maps, and beside them what its asynchronous tasks and its store hold. */
  class ModelsImpl {
    var providers: map<ProviderId, Provider>
    var refreshGenerations: map<ProviderId, nat>
    var refreshControllers: map<ProviderId, nat>
    var publicationChains: map<ProviderId, nat>

    var abortedControllers: set<nat>
    var abortedCallers: set<nat>
    var refreshes: seq<Refresh>
    var publications: seq<Publication>
    var modelsStore: map<ProviderId, Catalogue>
    var dynamicModels: map<Provider, Catalogue>
    ghost var log: seq<Effect>

    ghost function View(): State
      reads this
    {
      State(providers, refreshGenerations, refreshControllers, publicationChains, abortedControllers,
            abortedCallers, refreshes, publications, modelsStore, dynamicModels, log)
    }

    constructor ()
      ensures View() == INITIAL
    {
      providers, refreshGenerations, refreshControllers, publicationChains := map[], map[], map[], map[];
      abortedControllers, abortedCallers, refreshes, publications := {}, {}, [], [];
      modelsStore, dynamicModels, log := map[], map[], [];
    }

    method SupersedeProviderRefresh(id: ProviderId) returns (generation: nat)
      modifies this`refreshGenerations, this`refreshControllers, this`abortedControllers
      ensures View() == Supersede(old(View()), {id})
      ensures generation == GenerationOf(View(), id)
    {
      generation := (if id in refreshGenerations then refreshGenerations[id] else 0) + 1;
      refreshGenerations := refreshGenerations[id := generation];
      if id in refreshControllers {
        var previous := refreshControllers[id];
        refreshControllers := refreshControllers - {id};
        abortedControllers := abortedControllers + {previous};
      }
      SupersedeOne(old(View()), id);
    }

    method SetProvider(provider: Provider)
      modifies this
      ensures View() == Next(old(View()), Action.SetProvider(provider))
    {
      var _ := SupersedeProviderRefresh(provider.id);
      providers := providers[provider.id := provider];
    }

    method DeleteProvider(id: ProviderId)
      modifies this
      ensures View() == Next(old(View()), Action.DeleteProvider(id))
    {
      var _ := SupersedeProviderRefresh(id);
      providers := providers - {id};
    }

    method SupersedeEach(ids: set<ProviderId>)
      modifies this`refreshGenerations, this`refreshControllers, this`abortedControllers
      ensures View() == Supersede(old(View()), ids)
    {
      var done: set<ProviderId> := {};
      SupersedeNone(View());
      while ids - done != {}
        invariant done <= ids
        invariant View() == Supersede(old(View()), done)
        decreases ids - done
      {
        var id :| id in ids - done;
        SupersedeOneMore(old(View()), done, id);
        var _ := SupersedeProviderRefresh(id);
        done := done + {id};
      }
      assert done == ids;
    }

    method ClearProviders()
      modifies this
      ensures View() == Next(old(View()), Action.ClearProviders)
      ensures providers == map[] && refreshControllers == map[]
      ensures forall id | id in old(providers) :: id in refreshGenerations && refreshGenerations[id] == GenerationOf(old(View()), id) + 1
    {
      SupersedeEach(providers.Keys + refreshControllers.Keys);
      providers := map[];
    }

    method BeginProviderRefresh(id: ProviderId, caller: nat) returns (refresh: nat)
      requires id in providers
      modifies this
      ensures View() == Next(old(View()), BeginRefresh(id, caller))
      ensures refresh == old(|refreshes|)
    {
      var generation := SupersedeProviderRefresh(id);
      refresh := |refreshes|;
      refreshes := refreshes + [Refresh(providers[id], generation, caller, false)];
      refreshControllers := refreshControllers[id := refresh];
    }

    /** The `finally` block of a refresh. */
    method FinishProviderRefresh(refresh: nat)
      requires refresh < |refreshes| && !refreshes[refresh].finished
      modifies this
      ensures View() == Next(old(View()), FinishRefresh(refresh))
    {
      var id := refreshes[refresh].provider.id;
      if id in refreshControllers && refreshControllers[id] == refresh {
        refreshControllers := refreshControllers - {id};
      }
      refreshes := refreshes[refresh := refreshes[refresh].(finished := true)];
    }

    method AbortCallerSignal(caller: nat)
      modifies this
      ensures View() == Next(old(View()), AbortCaller(caller))
    {
      abortedCallers := abortedCallers + {caller};
    }

    /** The synchronous part of `publishProviderModels`: queue the task behind the registered tail. */
    method PublishProviderModels(refresh: nat, persist: Persist, update: Option<Catalogue>) returns (publication: nat)
      requires refresh < |refreshes|
      modifies this
      ensures View() == Next(old(View()), Publish(refresh, persist, update))
      ensures publication == old(|publications|)
    {
      var id := refreshes[refresh].provider.id;
      var previous := if id in publicationChains then Some(publicationChains[id]) else None;
      publication := |publications|;
      publications := publications + [Publication(refresh, id, persist, update, previous, Waiting, false)];
      publicationChains := publicationChains[id := publication];
    }

    method IsCurrent(refresh: nat) returns (current: bool)
      requires refresh < |refreshes|
      ensures current == Current(View(), refresh)
    {
      var r := refreshes[refresh];
      var aborted := refresh in abortedControllers || r.caller in abortedCallers;
      current := !aborted && r.provider.id in refreshGenerations && refreshGenerations[r.provider.id] == r.generation;
    }

    method UpdateMemory(i: nat)
      requires Refers(View(), i)
      modifies this
      ensures View() == RunUpdate(old(View()), i)
    {
      var pub := publications[i];
      var target := refreshes[pub.refresh].provider;
      log := RunUpdate(View(), i).log;
      if pub.update.Some? {
        dynamicModels := dynamicModels[target := pub.update.value];
      }
      publications := publications[i := pub.(phase := Settled(Published))];
    }

    /** The task continues once the previous tail has settled. */
    method ResumePublication(i: nat)
      requires TaskEnabled(View(), i, Resume)
      modifies this
      ensures View() == Next(old(View()), Task(i, Resume))
    {
      var pub := publications[i];
      var current := IsCurrent(pub.refresh);
      if !current {
        publications := publications[i := pub.(phase := Settled(Stale))];
      } else if pub.persist.Keep? {
        UpdateMemory(i);
      } else {
        log := BeginStoreOp(View(), i).log;
        publications := publications[i := pub.(phase := Storing(false))];
      }
    }

    /** The store performs the write or delete it was asked for. */
    method PerformStoreOp(i: nat)
      requires TaskEnabled(View(), i, LandStoreOp)
      modifies this
      ensures View() == Next(old(View()), Task(i, LandStoreOp))
    {
      var pub := publications[i];
      match pub.persist {
        case Keep =>
        case Remove => modelsStore := modelsStore - {pub.provider};
        case Write(entry) => modelsStore := modelsStore[pub.provider := entry];
      }
      publications := publications[i := pub.(phase := Storing(true))];
    }

    /** The store operation's promise settles and the task runs its second check. */
    method StoreOpSettled(i: nat, ok: bool)
      requires TaskEnabled(View(), i, if ok then CompleteStoreOp else FailStoreOp)
      modifies this
      ensures View() == Next(old(View()), Task(i, if ok then CompleteStoreOp else FailStoreOp))
    {
      var pub := publications[i];
      var current := IsCurrent(pub.refresh);
      if !ok {
        publications := publications[i := pub.(phase := Settled(Failed))];
      } else if !current {
        publications := publications[i := pub.(phase := Settled(Stale))];
      } else {
        UpdateMemory(i);
      }
    }

    method SettleTailOf(i: nat)
      requires TaskEnabled(View(), i, SettleTail)
      modifies this
      ensures View() == Next(old(View()), Task(i, SettleTail))
    {
      publications := publications[i := publications[i].(tailSettled := true)];
    }

    /** The clean-up attached to a tail: delete the entry only while it is still this tail. */
    method DropTailOf(i: nat)
      requires TaskEnabled(View(), i, DropTail)
      modifies this
      ensures View() == Next(old(View()), Task(i, DropTail))
    {
      var id := publications[i].provider;
      if id in publicationChains && publicationChains[id] == i {
        publicationChains := publicationChains - {id};
      }
    }
  }

  lemma SupersedeOne(s: State, id: ProviderId)
    ensures Supersede(s, {id}) == s.(
              generations := s.generations[id := GenerationOf(s, id) + 1],
              controllers := s.controllers - {id},
              abortedControllers := if id in s.controllers then s.abortedControllers + {s.controllers[id]}
                                    else s.abortedControllers)
  {
    var t := Supersede(s, {id});
    assert t.generations == s.generations[id := GenerationOf(s, id) + 1];
    assert id !in s.controllers ==> t.abortedControllers == s.abortedControllers;
    assert id in s.controllers ==> t.abortedControllers == s.abortedControllers + {s.controllers[id]};
  }

  lemma SupersedeNone(s: State)
    ensures Supersede(s, {}) == s
  {
    var t := Supersede(s, {});
    assert t.generations == s.generations && t.controllers == s.controllers;
    assert t.abortedControllers == s.abortedControllers;
  }

  /** Superseding one id after a set of others is superseding all of them at once. */
  lemma SupersedeOneMore(s: State, ids: set<ProviderId>, id: ProviderId)
    requires id !in ids
    ensures Supersede(Supersede(s, ids), {id}) == Supersede(s, ids + {id})
  {
    var a, b := Supersede(Supersede(s, ids), {id}), Supersede(s, ids + {id});
    assert a.generations == b.generations;
    assert a.controllers == b.controllers;
    assert a.abortedControllers == b.abortedControllers;
  }
}
