/** The collaborators of the observation registry. Their behaviour is defined elsewhere:
    the registry only stores them, keeps them in registration order and consults the
    predicates, so every one of them is an opaque value here. */
module Collaborators {

  /** An absent reference (Java's null) or a present one. */
  datatype Option<+T> = None | Some(value: T)

  /** An observation context, known only by its identity. */
  datatype Context = Context(id: nat)

  /** An observation as the registry sees it: the one shared no-op observation, or any
      other observation, known only by its identity. */
  datatype Observation = NoopObservation | RealObservation(id: nat)

  /** A handler notified about the lifecycle of the observations (opaque). */
  datatype Handler = Handler(id: nat)

  /** A global tags provider contributing tags to every observation (opaque). */
  datatype GlobalTagsProvider = GlobalTagsProvider(id: nat)

  /** An observation predicate: a side-effect-free decision on an observation's
      technical name and its (possibly absent) context. */
  datatype Predicate = Predicate(test: (string, Option<Context>) -> bool)
}
