/** What several parts of the model share: optional values, the special 32-bit numbers, and maps that only grow. */
module Common {

  datatype Option<+T> = None | Some(value: T)

  const TWO_TO_32: nat := 0x1_0000_0000

  /** The invalid table version or group key. */
  const INVALID: nat := 0xFFFF_FFFF

  /** The one table version that may be overwritten. */
  const SCRATCH: nat := 0x7FFF_FFFF

  /** Nothing that is in the map changes. */
  ghost predicate Extends<K(!new), V(!new)>(before: map<K, V>, after: map<K, V>) {
    forall k :: k in before ==> k in after && after[k] == before[k]
  }
}
