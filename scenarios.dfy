/** Callers of the registry, each showing from the contracts alone one promise the
    registry makes to the code that creates observations and manages scopes. */
module Scenarios {
  import opened Collaborators
  import opened Registry

  /** Handlers registered one after another, through the returned configuration, are
      read back in registration order, with repeats kept and nothing dropped. */
  method HandlersInRegistrationOrder(h1: Handler, h2: Handler, h3: Handler) returns (hs: seq<Handler>)
    ensures hs == [h1, h2, h3]
  {
    var config := new ObservationConfig();
    var chained := config.ObservationHandler(h1);
    chained := chained.ObservationHandler(h2);
    chained := chained.ObservationHandler(h3);
    hs := config.GetObservationHandlers();
  }

  /** Registrations of the three kinds do not disturb each other's lists: the handler
      and the tags providers read back in order, and the one predicate alone decides. */
  method MixedRegistration(h: Handler, p: Predicate, t: GlobalTagsProvider, t2: GlobalTagsProvider,
                           name: string, context: Option<Context>)
    returns (hs: seq<Handler>, ts: seq<GlobalTagsProvider>, enabled: bool)
    ensures hs == [h] && ts == [t, t2]
    ensures enabled == p.test(name, context)
  {
    var config := new ObservationConfig();
    var chained := config.TagsProvider(t);
    chained := chained.ObservationHandler(h);
    chained := chained.ObservationPredicate(p);
    chained := chained.TagsProvider(t2);
    hs, ts := config.GetObservationHandlers(), config.GetTagsProviders();
    enabled := config.IsObservationEnabled(name, context);
  }

  /** An iteration begun before a registration works on a snapshot of the list: the
      registration does not show in it, and a read afterwards does show it. */
  method SnapshotBeforeRegistration(h1: Handler, h4: Handler) returns (before: seq<Handler>, after: seq<Handler>)
    ensures before == [h1] && after == [h1, h4]
  {
    var config := new ObservationConfig();
    var chained := config.ObservationHandler(h1);
    before := config.GetObservationHandlers();
    chained := config.ObservationHandler(h4);
    after := config.GetObservationHandlers();
  }

  /** With no predicate registered every observation is enabled. */
  method NothingRegisteredEnables(name: string, context: Option<Context>) returns (enabled: bool)
    ensures enabled
  {
    var registry := new ObservationRegistry();
    var config := registry.ObservationConfigOf();
    enabled := config.IsObservationEnabled(name, context);
  }

  /** A predicate that rejects the name "x" disables "x" and nothing else. */
  method RejectByName(context: Option<Context>) returns (forX: bool, forY: bool)
    ensures !forX && forY
  {
    var config := new ObservationConfig();
    var chained := config.ObservationPredicate(Predicate((name: string, c: Option<Context>) => name != "x"));
    forX := config.IsObservationEnabled("x", context);
    forY := config.IsObservationEnabled("y", context);
  }

  /** Predicates combine by conjunction: one that always accepts does not outvote one
      that always rejects. */
  method ConjunctionOfPredicates(name: string, context: Option<Context>) returns (enabled: bool)
    ensures !enabled
  {
    var config := new ObservationConfig();
    var chained := config.ObservationPredicate(Predicate((n: string, c: Option<Context>) => true));
    chained := chained.ObservationPredicate(Predicate((n: string, c: Option<Context>) => false));
    enabled := config.IsObservationEnabled(name, context);
  }

  /** The NOOP configuration accepts registrations of every kind, keeps none of them,
      and reports every observation disabled, even with an accepting predicate. */
  method NoopStoresNothing(h: Handler, t: GlobalTagsProvider, name: string, context: Option<Context>)
    returns (hs: seq<Handler>, ts: seq<GlobalTagsProvider>, enabled: bool)
    ensures hs == [] && ts == [] && !enabled
  {
    var registry := new ObservationRegistry.Noop();
    var config := registry.ObservationConfigOf();
    var chained := config.ObservationHandler(h);
    chained := chained.ObservationPredicate(Predicate((n: string, c: Option<Context>) => true));
    chained := chained.TagsProvider(t);
    config := registry.ObservationConfigOf();
    hs, ts := config.GetObservationHandlers(), config.GetTagsProviders();
    enabled := config.IsObservationEnabled(name, context);
  }

  /** NOOP's current observation is the shared no-op observation before and after any
      attempt to set it. */
  method NoopCurrentObservationIsFixed(obs: Option<Observation>) returns (before: Option<Observation>, after: Option<Observation>)
    ensures before == Some(NoopObservation) && after == Some(NoopObservation)
  {
    var registry := new ObservationRegistry.Noop();
    before := registry.GetCurrentObservation();
    registry.SetCurrentObservation(obs);
    after := registry.GetCurrentObservation();
  }

  /** On an ordinary registry a get returns what the last set stored, absence included. */
  method CurrentObservationRoundTrip(obs: Option<Observation>) returns (afterSet: Option<Observation>, afterClear: Option<Observation>)
    ensures afterSet == obs && afterClear == None
  {
    var registry := new ObservationRegistry();
    registry.SetCurrentObservation(obs);
    afterSet := registry.GetCurrentObservation();
    registry.SetCurrentObservation(None);
    afterClear := registry.GetCurrentObservation();
  }

  /** `isNoOp` is identity with the NOOP singleton: NOOP answers true and behaves as the
      no-op registry; two ordinary registries configured alike, and even a second
      registry of the NOOP variant, answer false. */
  method NoOpIsIdentity(NOOP: ObservationRegistry, h: Handler, name: string, context: Option<Context>)
    returns (noopItself: bool, current: Option<Observation>, enabled: bool,
             first: bool, second: bool, lookalike: bool)
    requires NOOP.Valid() && NOOP.noop
    ensures noopItself && current == Some(NoopObservation) && !enabled
    ensures !first && !second && !lookalike
  {
    noopItself := NOOP.IsNoOp(NOOP);
    current := NOOP.GetCurrentObservation();
    var noopConfig := NOOP.ObservationConfigOf();
    enabled := noopConfig.IsObservationEnabled(name, context);
    var r1 := new ObservationRegistry();
    var r2 := new ObservationRegistry();
    var c1 := r1.ObservationConfigOf();
    var c2 := r2.ObservationConfigOf();
    var chained := c1.ObservationHandler(h);
    chained := c2.ObservationHandler(h);
    var other := new ObservationRegistry.Noop();
    first, second, lookalike := r1.IsNoOp(NOOP), r2.IsNoOp(NOOP), other.IsNoOp(NOOP);
  }
}
