/** Copying bytes within and into arrays. */
module Memory {
  import opened Wire

  /** memmove of the n bytes at `from` to the front; the ranges may overlap, so as if through a copy. */
  method Memmove(a: array<Byte>, from: nat, n: nat)
    requires from + n <= a.Length
    modifies a
    ensures forall i | 0 <= i < n :: a[i] == old(a[from + i])
    ensures forall i | n <= i < a.Length :: a[i] == old(a[i])
  {
    forall i | 0 <= i < n {
      a[i] := a[from + i];
    }
  }

  method CopyIn(a: array<Byte>, at: nat, data: Bytes)
    requires at + |data| <= a.Length
    modifies a
    ensures forall i | 0 <= i < at :: a[i] == old(a[i])
    ensures forall i | 0 <= i < |data| :: a[at + i] == data[i]
  {
    forall i | 0 <= i < |data| {
      a[at + i] := data[i];
    }
  }
}
