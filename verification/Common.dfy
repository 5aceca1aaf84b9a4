/** Types that several models share. */
module Common {
  datatype Option<T> = None | Some(value: T)

  type Byte = x: int | 0 <= x < 256

  /**
   * True of everything. An invariant of the form `forall k {:trigger Asked(k)} :: Asked(k) ==> P` is P, but says
   * so only to a proof that mentions Asked. Code that merely passes such an invariant on is then cheap to verify.
   */
  predicate Asked(k: int) { true }

  /** The same for what a loop maintains on top of such an invariant: opening the one does not open the other. */
  predicate Sought(k: int) { true }
}
