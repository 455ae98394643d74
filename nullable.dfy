/** Java references that may be null, as an explicit option type. */
module Nullable {

  /** `None` stands for a Java `null`; `Some(v)` for a non-null value `v`. */
  datatype Option<T> = None | Some(value: T)

  /**
   * The field-level rule of a partial update: a non-null patch value
   * overwrites the current one, a null patch value leaves it untouched.
   */
  function Fusionar<T>(actual: Option<T>, parche: Option<T>): (r: Option<T>)
    ensures parche.Some? ==> r == parche
    ensures parche.None? ==> r == actual
  {
    match parche
    case Some(_) => parche
    case None => actual
  }

  /** Patching a field a second time with the same patch value changes nothing. */
  lemma FusionarIdempotente<T>(actual: Option<T>, parche: Option<T>)
    ensures Fusionar(Fusionar(actual, parche), parche) == Fusionar(actual, parche)
  {
  }
}
