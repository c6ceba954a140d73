/** Small shared vocabulary: options, bytes, and concatenation of chunk lists. */
module Common {

  datatype Option<+T> = None | Some(value: T)

  type Byte = b: int | 0 <= b < 256

  type Bytes = seq<Byte>

  /** The one model that is served, verified and compared. */
  const MODEL_ID := "nvidia/Qwen3.8-Flash-Next-NVFP4"

  /** The bytes of a stream that arrived as a list of chunks. */
  function Flatten<T>(chunks: seq<seq<T>>): (r: seq<T>) {
    if chunks == [] then [] else chunks[0] + Flatten(chunks[1..])
  }

  lemma Assoc<T>(a: seq<T>, b: seq<T>, c: seq<T>)
    ensures a + b + c == a + (b + c)
  {
  }
}
