/**
 * Value generators: zero-argument producers of default property values,
 * and the shared NOT_COVERED null object that a cache lookup returns when no
 * generator is registered.
 */
module Generators {
  import opened Types

  /** A registered generator is a `Supplier`, identified by `id`; what it
      produces is decided by code outside the model (`produce` below).
      `NotCovered` is the single shared sentinel. */
  datatype Generator = NotCovered | Supplier(id: nat)

  const NotCoveredMessage: string := "This generator does not generate values"

  /** `generate()`: a supplier yields whatever its producer makes; the
      sentinel never yields a value and fails with an unsupported-operation
      error carrying its fixed message. */
  function Generate(g: Generator, produce: nat -> Value): (r: Result<Value>)
    ensures r.Failure? <==> g == NotCovered
    ensures r.Failure? ==> r.error == UnsupportedOperation(NotCoveredMessage)
    ensures g.Supplier? ==> r == Success(produce(g.id))
  {
    match g
    case NotCovered => Failure(UnsupportedOperation(NotCoveredMessage))
    case Supplier(id) => Success(produce(id))
  }
}
