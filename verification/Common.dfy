// Vocabulary shared by every part of the gateway model.

module Common {

  datatype Option<+T> = None | Some(value: T)

  // The ranges of the Go integer types the gateway stores its numbers in.
  const MAX_INT32: int := 0x7fff_ffff
  const MAX_INT64: int := 0x7fff_ffff_ffff_ffff

  type Uint64 = n: int | 0 <= n < 0x1_0000_0000_0000_0000

  // The result of a 64-bit signed addition whose exact value is x, with |x| < 2^64.
  function Wrap64(x: int): int
  {
    if x > MAX_INT64 then x - 0x1_0000_0000_0000_0000
    else if x < -MAX_INT64 - 1 then x + 0x1_0000_0000_0000_0000
    else x
  }

  // atomic.Int32.Add(1).
  function Inc32(x: int): int
  {
    if x == MAX_INT32 then -MAX_INT32 - 1 else x + 1
  }

  lemma SizeWithout<K, V>(m: map<K, V>, k: K)
    ensures |m - {k}| == |m| - (if k in m then 1 else 0)
  {
    if k in m {
      assert m.Keys == (m - {k}).Keys + {k};
    } else {
      assert m - {k} == m;
    }
  }
}
