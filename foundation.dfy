/** The few Foundation value types the library passes around, kept abstract. */
module FoundationTypes {

  /** One octet of a `Data` buffer. */
  newtype byte = x: int | 0 <= x < 256

  /** A `Data` value: the bytes of a request or response body. */
  type Bytes = seq<byte>

  /** A `URL` value; the library never inspects it, so its text stands for it. */
  type Url = string
}
