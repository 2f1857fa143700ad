/** Small shared vocabulary: an optional value (for Java's nullable references)
    and opaque byte strings (for key material the model never looks inside). */
module Base {

  /** `None` stands for a Java `null` reference. */
  datatype Option<+T> = None | Some(value: T)

  newtype byte = x: int | 0 <= x < 256

  type Bytes = seq<byte>
}
