# Observation registry — a Dafny model

This project models the observation registry of Micrometer's observation API
(`ObservationRegistry` and its nested `ObservationConfig`). The registry decides, each
time an observation is about to be created, whether a real observation is created or the
shared no-op observation is used instead. It holds the handlers and global tags providers
that every real observation is wired to, and a slot for the current observation.

- `collaborators.dfy` (module `Collaborators`): the opaque collaborators. Handlers,
  tags providers, contexts and observations are values known only by an identity.
  An observation predicate wraps a pure function of the name and the optional context.
  `Option` stands for Java's nullable references.
- `enablement.dfy` (module `Enablement`): `AllMatch`, the stream `allMatch` over
  the predicate list. It evaluates in registration order and stops at the first
  rejection. Its contract says it is true exactly when every predicate accepts. The
  lemmas relate it to appending and concatenating predicate lists.
- `registry.dfy` (module `Registry`): the classes `ObservationConfig` and
  `ObservationRegistry`. The configuration keeps its three lists as `seq` fields. The
  registration methods append and return `this`. The Java NOOP registry is an anonymous
  implementation with an anonymous configuration subclass; here it is a fixed tag
  (`noop` on the registry, `inert` on its configuration) that is set by the
  constructor and never changes. `Valid()` states that an inert configuration holds
  nothing.
- `scenarios.dfy` (module `Scenarios`): caller methods that derive the documented
  behaviour from the contracts alone: insertion order, AND semantics, NOOP inertness,
  the current-observation round trip, and the identity-based NOOP check.

The static field `NOOP` has no Dafny counterpart, because Dafny has no global objects.
`IsNoOp` therefore takes the singleton as a parameter and compares identities, as
`this == NOOP` does.

## Model

| member | source | states |
|---|---|---|
| Enablement.AllMatch | micrometer-core/src/main/java/io/micrometer/core/instrument/observation/ObservationRegistry.java:176-178 | The predicate stream's allMatch: true exactly when every registered predicate accepts (name, context), hence true for no predicates |
| Enablement.AllMatchAppend | micrometer-core/src/main/java/io/micrometer/core/instrument/observation/ObservationRegistry.java:153-156 | After one more predicate is appended, the decision is the old decision AND the new predicate's verdict |
| Enablement.AddingPredicateOnlyDisables | micrometer-core/src/main/java/io/micrometer/core/instrument/observation/ObservationRegistry.java:153-156 | Appending a predicate never turns a disabled observation into an enabled one |
| Enablement.AllMatchConcat | micrometer-core/src/main/java/io/micrometer/core/instrument/observation/ObservationRegistry.java:176-178 | The decision over two groups of predicates is the conjunction of the two, whatever order they were registered in |
| Registry.ObservationConfig.constructor | micrometer-core/src/main/java/io/micrometer/core/instrument/observation/ObservationRegistry.java:127-133 | An ordinary configuration starts with three empty lists and is not inert |
| Registry.ObservationConfig.Inert | micrometer-core/src/main/java/io/micrometer/core/instrument/observation/ObservationRegistry.java:41 | The NOOP configuration starts empty and is inert |
| Registry.ObservationConfig.ObservationHandler | micrometer-core/src/main/java/io/micrometer/core/instrument/observation/ObservationRegistry.java:141-144 | Appends the handler at the end of the handler list and returns the same configuration; the other two lists are unchanged; on NOOP (lines 42-45) nothing changes |
| Registry.ObservationConfig.ObservationPredicate | micrometer-core/src/main/java/io/micrometer/core/instrument/observation/ObservationRegistry.java:153-156 | Appends the predicate at the end of the predicate list and returns the same configuration; the other lists are unchanged; enablement afterwards is the old decision AND the new predicate's; on NOOP (lines 47-50) nothing changes |
| Registry.ObservationConfig.TagsProvider | micrometer-core/src/main/java/io/micrometer/core/instrument/observation/ObservationRegistry.java:164-167 | Appends the tags provider at the end of its list and returns the same configuration; the other lists are unchanged; on NOOP (lines 52-55) nothing changes |
| Registry.ObservationConfig.IsObservationEnabled | micrometer-core/src/main/java/io/micrometer/core/instrument/observation/ObservationRegistry.java:176-178 | On an ordinary configuration, true exactly when every registered predicate accepts; on NOOP (lines 57-60) always false |
| Registry.ObservationConfig.GetObservationHandlers | micrometer-core/src/main/java/io/micrometer/core/instrument/observation/ObservationRegistry.java:181-183 | Returns the registered handlers in registration order; on NOOP (lines 62-65) always empty |
| Registry.ObservationConfig.GetTagsProviders | micrometer-core/src/main/java/io/micrometer/core/instrument/observation/ObservationRegistry.java:185-187 | Returns the registered tags providers in registration order; on NOOP (lines 67-70) always empty |
| Registry.ObservationRegistry.constructor | micrometer-core/src/main/java/io/micrometer/core/instrument/observation/ObservationRegistry.java:107-112 | An ordinary registry owns a fresh ordinary configuration and has no current observation |
| Registry.ObservationRegistry.Noop | micrometer-core/src/main/java/io/micrometer/core/instrument/observation/ObservationRegistry.java:39-41 | The NOOP registry owns a fresh inert configuration |
| Registry.ObservationRegistry.GetCurrentObservation | micrometer-core/src/main/java/io/micrometer/core/instrument/observation/ObservationRegistry.java:73-76 | On NOOP always the shared no-op observation, never absent; otherwise the stored, possibly absent, observation (lines 89-98) |
| Registry.ObservationRegistry.SetCurrentObservation | micrometer-core/src/main/java/io/micrometer/core/instrument/observation/ObservationRegistry.java:78-81 | A get after a set returns what was set on an ordinary registry (lines 100-105); on NOOP nothing changes and the get still returns the no-op observation |
| Registry.ObservationRegistry.ObservationConfigOf | micrometer-core/src/main/java/io/micrometer/core/instrument/observation/ObservationRegistry.java:83-86 | Returns the registry's one configuration, the same object on every call, inert exactly for NOOP |
| Registry.ObservationRegistry.IsNoOp | micrometer-core/src/main/java/io/micrometer/core/instrument/observation/ObservationRegistry.java:115-122 | Identity with the NOOP singleton; a registry reported as NOOP is of NOOP's variant and shares its configuration |
| Scenarios.HandlersInRegistrationOrder | micrometer-core/src/main/java/io/micrometer/core/instrument/observation/ObservationRegistry.java:141-144 | Three handlers registered through the chained return value read back as exactly [h1, h2, h3] |
| Scenarios.MixedRegistration | micrometer-core/src/main/java/io/micrometer/core/instrument/observation/ObservationRegistry.java:141-167 | Interleaved registrations of handlers, predicates and tags providers each land only in their own list: the handler and tags providers read back in order, and the predicate alone decides enablement |
| Scenarios.SnapshotBeforeRegistration | micrometer-core/src/main/java/io/micrometer/core/instrument/observation/ObservationRegistry.java:181-183 | An iteration of the handler list begun before a registration does not see the new handler; a read after it does |
| Scenarios.NothingRegisteredEnables | micrometer-core/src/main/java/io/micrometer/core/instrument/observation/ObservationRegistry.java:176-178 | A fresh ordinary registry enables every observation |
| Scenarios.RejectByName | micrometer-core/src/main/java/io/micrometer/core/instrument/observation/ObservationRegistry.java:176-178 | A predicate rejecting the name "x" disables "x" and enables "y" |
| Scenarios.ConjunctionOfPredicates | micrometer-core/src/main/java/io/micrometer/core/instrument/observation/ObservationRegistry.java:176-178 | An always-accepting and an always-rejecting predicate together disable |
| Scenarios.NoopStoresNothing | micrometer-core/src/main/java/io/micrometer/core/instrument/observation/ObservationRegistry.java:41-71 | After registrations of every kind, NOOP's configuration still has no handlers or tags providers and still disables everything |
| Scenarios.NoopCurrentObservationIsFixed | micrometer-core/src/main/java/io/micrometer/core/instrument/observation/ObservationRegistry.java:73-81 | NOOP's current observation is the no-op observation before and after a set |
| Scenarios.CurrentObservationRoundTrip | micrometer-core/src/main/java/io/micrometer/core/instrument/observation/ObservationRegistry.java:97-105 | On an ordinary registry, set then get returns the observation; setting absence clears it |
| Scenarios.NoOpIsIdentity | micrometer-core/src/main/java/io/micrometer/core/instrument/observation/ObservationRegistry.java:120-122 | isNoOp is an identity check: the NOOP singleton answers true and returns the no-op observation and disables everything; two alike ordinary registries and a second NOOP-shaped registry answer false |

## Left out

- Concurrency: the lists are `CopyOnWriteArrayList`s (lines 129-133). The model
  updates them sequentially. A getter returns a `seq` value, which is the snapshot a
  copy-on-write iterator sees. The live view that Java returns is not modelled, so later
  registrations never show through an earlier result.
- The NOOP singleton is a parameter of `IsNoOp`, because Dafny has no global objects;
  nothing forces a program to construct only one registry of the NOOP variant.
- The ordinary registry implementation is not in this file. Only its
  current-observation slot is modelled, as a plain field. Thread or scope confinement of
  that slot is not modelled either.
- Handlers, predicates and tags providers are user code. Predicates are pure total
  functions. Exceptions thrown by a predicate during the enablement check are not
  modelled.
- The structure of `Observation`, `Observation.Context` and `NoopObservation` is
  defined in files that are not part of this model. They are identities only.
- Generic wildcard types (`ObservationHandler<?>`) and the Stream API are not modelled.
  The stream becomes a recursive function.
