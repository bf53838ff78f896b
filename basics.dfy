/** Shared vocabulary: optional values, results, bytes, multipart form entries. */
module Basics {

  /** JavaScript's `null`/`undefined` (None) versus a present value. */
  datatype Option<+T> = None | Some(value: T)

  /** The outcome of a check that can refuse its input with a message. */
  datatype Result<+T> = Success(value: T) | Failure(error: string)

  /** One octet of a file's contents. */
  newtype byte = x: int | 0 <= x < 256

  /** One entry of a multipart form as `FormData.get` returns it: a text value or a file (a Blob with a name). */
  datatype FormValue = Text(text: string) | Blob(name: string, data: seq<byte>)

  function Min(a: int, b: int): (m: int)
    ensures m <= a && m <= b
    ensures m == a || m == b
  {
    if a <= b then a else b
  }

  /** Concatenation of a sequence of sequences, in order. */
  function Concat<T>(ss: seq<seq<T>>): seq<T>
    decreases |ss|
  {
    if ss == [] then [] else Concat(ss[..|ss| - 1]) + ss[|ss| - 1]
  }
}
