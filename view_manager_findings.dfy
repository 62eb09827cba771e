/**
 * View IDs are `IComparable` objects: an `int` or enum ID is boxed anew
 * each time it is passed as one. The registry (a `Dictionary`) finds a
 * view by `Equals`, that is by value, but `UpdateView` compares the view's
 * ID with its argument using `==`, which on two `IComparable` operands is
 * reference equality. The view holds the box stored at registration, so
 * an update, and the `initData` that `AddView` hands on, reaches it only
 * when the caller passes that very box.
 */
module ViewManagerBoxedIds {
  import opened ViewData

  /** An ID as the runtime holds it: an object identity and the value inside. */
  datatype BoxedId = BoxedId(identity: nat, value: Id)

  /** `Equals`, as the registry's lookups use it. */
  predicate SameValue(a: BoxedId, b: BoxedId) {
    a.value == b.value
  }

  /** `==` between two `IComparable` operands. */
  predicate SameObject(a: BoxedId, b: BoxedId) {
    a.identity == b.identity
  }

  /**
   * The test `UpdateView` applies, as written, to the ID `held` by the view
   * on the layer and the caller's `argument`: whether the data is delivered.
   */
  function UpdateReachesViewAsWritten(held: BoxedId, argument: BoxedId): (delivered: bool)
    ensures delivered ==> held.identity == argument.identity
  {
    SameObject(held, argument)
  }

  /** The test as intended: the view found through the registry is the one asked for. */
  function UpdateReachesView(held: BoxedId, argument: BoxedId): (delivered: bool)
    ensures delivered <==> held.value == argument.value
  {
    SameValue(held, argument)
  }

  /**
   * `RegisterView(5, …)` stores one box, a later `AddView(5, data)` passes
   * another: the registry lookup succeeds, the view is shown, and the data
   * is dropped.
   */
  lemma FreshBoxLosesUpdate()
    ensures
      var registered := BoxedId(0, 5);
      var argument := BoxedId(1, 5);
      && SameValue(registered, argument)
      && !UpdateReachesViewAsWritten(registered, argument)
      && UpdateReachesView(registered, argument)
  {
  }
}
