/** How an application handler ends (consumer.HandlerFunc): Go lets it return a result
    next to an error. */
module Handlers {
  import opened Wrappers
  import opened GoErrors

  datatype HandlerEnd<+V> = Returned(result: V, err: Option<GoError>) | Panicked

  predicate Erred<V>(e: HandlerEnd<V>) {
    e.Returned? && e.err.Some?
  }
}
