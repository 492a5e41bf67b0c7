/** Small vocabulary shared by every module: step results, bytes, optional values. */
module Types {

  /** DPN_Result. */
  datatype Result = Success | Fail | Repeat

  datatype Option<+T> = None | Some(value: T)

  type byte = x: int | 0 <= x < 256

  type Bytes = seq<byte>

  /** The user-visible content items of a processor, one byte string per registered unit. */
  type Units = seq<Bytes>

  /** The value a 32-bit int takes: what does not fit wraps around. */
  function ToInt32(x: int): (r: int)
    ensures -0x8000_0000 <= r < 0x8000_0000
  {
    var m := x % 0x1_0000_0000;
    if m < 0x8000_0000 then m else m - 0x1_0000_0000
  }

  /** The value a 64-bit size_t takes. */
  function ToSizeT(x: int): (r: nat) {
    x % 0x1_0000_0000_0000_0000
  }

  lemma Assoc<T>(a: seq<T>, b: seq<T>, c: seq<T>)
    ensures a + b + c == a + (b + c)
  {
  }
}
