/** The observation registry and its configuration object. The Java interface has two
    implementations that matter here: the configuration of an ordinary registry, which
    stores what is registered, and the anonymous configuration of the NOOP registry,
    which accepts every registration and stores nothing. Without subclassing, the two
    are one class with a fixed tag, `inert` on the configuration and `noop` on the
    registry, set at construction and never changed. */
module Registry {
  import opened Collaborators
  import opened Enablement

  /** The configuration object: three append-only, insertion-ordered lists. */
  class ObservationConfig {
    /** True for the NOOP registry's configuration. */
    const inert: bool
    var handlers: seq<Handler>
    var predicates: seq<Predicate>
    var tagsProviders: seq<GlobalTagsProvider>

    /** The NOOP configuration never stores anything. */
    ghost predicate Valid()
      reads this
    {
      inert ==> handlers == [] && predicates == [] && tagsProviders == []
    }

    /** The configuration of an ordinary registry, with nothing registered yet. */
    constructor ()
      ensures Valid() && !inert
      ensures handlers == [] && predicates == [] && tagsProviders == []
    {
      inert := false;
      handlers, predicates, tagsProviders := [], [], [];
    }

    /** The configuration owned by the NOOP registry. */
    constructor Inert()
      ensures Valid() && inert
      ensures handlers == [] && predicates == [] && tagsProviders == []
    {
      inert := true;
      handlers, predicates, tagsProviders := [], [], [];
    }

    /** Registers a handler at the end of the handler list (duplicates are kept) and
        returns this configuration for chaining; the NOOP configuration ignores it. */
    method ObservationHandler(handler: Handler) returns (self: ObservationConfig)
      requires Valid()
      modifies this
      ensures Valid() && self == this
      ensures !inert ==> handlers == old(handlers) + [handler]
      ensures inert ==> unchanged(this) && handlers == []
      ensures predicates == old(predicates) && tagsProviders == old(tagsProviders)
    {
      if !inert {
        handlers := handlers + [handler];
      }
      self := this;
    }

    /** Registers a predicate at the end of the predicate list and returns this
        configuration; the NOOP configuration ignores it. A new predicate can only
        disable observations that were enabled, never enable one that was not. */
    method ObservationPredicate(p: Predicate) returns (self: ObservationConfig)
      requires Valid()
      modifies this
      ensures Valid() && self == this
      ensures !inert ==> predicates == old(predicates) + [p]
      ensures inert ==> unchanged(this) && predicates == []
      ensures handlers == old(handlers) && tagsProviders == old(tagsProviders)
      ensures forall name, context ::
        IsObservationEnabled(name, context) ==
          (!inert && AllMatch(old(predicates), name, context) && p.test(name, context))
    {
      if !inert {
        forall name, context
          ensures AllMatch(predicates + [p], name, context) ==
                  (AllMatch(predicates, name, context) && p.test(name, context))
        {
          AllMatchAppend(predicates, p, name, context);
        }
        predicates := predicates + [p];
      }
      self := this;
    }

    /** Registers a global tags provider at the end of the provider list and returns
        this configuration; the NOOP configuration ignores it. */
    method TagsProvider(tagsProvider: GlobalTagsProvider) returns (self: ObservationConfig)
      requires Valid()
      modifies this
      ensures Valid() && self == this
      ensures !inert ==> tagsProviders == old(tagsProviders) + [tagsProvider]
      ensures inert ==> unchanged(this) && tagsProviders == []
      ensures handlers == old(handlers) && predicates == old(predicates)
    {
      if !inert {
        tagsProviders := tagsProviders + [tagsProvider];
      }
      self := this;
    }

    /** Whether an observation with this name and context is to be created rather than
        replaced by the no-op observation: on an ordinary configuration exactly when
        every registered predicate accepts (so always when none is registered); on the
        NOOP configuration never. */
    function IsObservationEnabled(name: string, context: Option<Context>): (r: bool)
      reads this
      ensures r <==> !inert && forall i :: 0 <= i < |predicates| ==> predicates[i].test(name, context)
    {
      if inert then false else AllMatch(predicates, name, context)
    }

    /** The registered handlers in registration order; always empty for NOOP. */
    function GetObservationHandlers(): (r: seq<Handler>)
      reads this
      requires Valid()
      ensures r == handlers
      ensures inert ==> r == []
    {
      if inert then [] else handlers
    }

    /** The registered tags providers in registration order; always empty for NOOP. */
    function GetTagsProviders(): (r: seq<GlobalTagsProvider>)
      reads this
      requires Valid()
      ensures r == tagsProviders
      ensures inert ==> r == []
    {
      if inert then [] else tagsProviders
    }
  }

  /** A registry: one configuration owned for its whole life, and the slot holding the
      current observation. */
  class ObservationRegistry {
    /** True for the NOOP variant. */
    const noop: bool
    const config: ObservationConfig
    /** The current-observation slot; the NOOP variant never reads it after construction. */
    var current: Option<Observation>

    /** The NOOP variant owns the inert configuration and no other registry does. */
    ghost predicate Valid()
      reads this, config
    {
      config.Valid() && config.inert == noop
    }

    /** An ordinary registry with an empty configuration and no current observation. */
    constructor ()
      ensures Valid() && !noop && fresh(config) && current == None
      ensures config.handlers == [] && config.predicates == [] && config.tagsProviders == []
    {
      noop := false;
      config := new ObservationConfig();
      current := None;
    }

    /** The NOOP variant with its inert configuration. */
    constructor Noop()
      ensures Valid() && noop && fresh(config)
      ensures config.handlers == [] && config.predicates == [] && config.tagsProviders == []
    {
      noop := true;
      config := new ObservationConfig.Inert();
      current := None;
    }

    /** The current observation: the stored one (possibly absent) on an ordinary
        registry, always the shared no-op observation on NOOP. */
    function GetCurrentObservation(): (o: Option<Observation>)
      reads this
      ensures noop ==> o == Some(NoopObservation)
      ensures !noop ==> o == current
    {
      if noop then Some(NoopObservation) else current
    }

    /** Makes `obs` (possibly absent) the current observation; on NOOP nothing
        changes. A get after a set returns what was set, except on NOOP. */
    method SetCurrentObservation(obs: Option<Observation>)
      modifies this
      ensures noop ==> unchanged(this)
      ensures !noop ==> current == obs
      ensures GetCurrentObservation() == if noop then Some(NoopObservation) else obs
    {
      if !noop {
        current := obs;
      }
    }

    /** The configuration of this registry: the same object on every call, the inert
        one exactly for NOOP. */
    function ObservationConfigOf(): (c: ObservationConfig)
      reads this, config
      requires Valid()
      ensures c == config && c.Valid()
      ensures c.inert <==> noop
    {
      config
    }

    /** Whether this registry is the NOOP singleton, by identity. Dafny has no global
        objects, so the singleton is passed in. A registry reported as NOOP is of
        NOOP's variant and shares NOOP's configuration object. */
    predicate IsNoOp(NOOP: ObservationRegistry): (r: bool)
      ensures r ==> noop == NOOP.noop && config == NOOP.config
    {
      this == NOOP
    }
  }
}
