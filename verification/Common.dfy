/** Small vocabulary shared by every module: bytes, 32-bit words and a few sequence edits. */
module Common {

  datatype Option<+T> = None | Some(value: T)

  newtype byte = x: int | 0 <= x < 0x100

  type word = x: int | 0 <= x < 0x1_0000_0000

  const WORD_MODULUS := 0x1_0000_0000

  /** The `len` elements of `s` that start at `from`, or nothing when they are not all there. */
  function Slice<T>(s: seq<T>, from: nat, len: nat): seq<T> {
    if from + len <= |s| then s[from..from + len] else []
  }

  /** `s` with the elements from `at` on overwritten by `d`. */
  function Splice<T>(s: seq<T>, at: nat, d: seq<T>): (r: seq<T>)
    requires at + |d| <= |s|
    ensures |r| == |s|
    ensures forall i :: 0 <= i < |s| ==> r[i] == if at <= i < at + |d| then d[i - at] else s[i]
  {
    seq(|s|, i requires 0 <= i < |s| => if at <= i < at + |d| then d[i - at] else s[i])
  }

  /** `s` without its element number `i`. */
  function RemoveAt<T>(s: seq<T>, i: nat): (r: seq<T>)
    requires i < |s|
    ensures |r| == |s| - 1
    ensures forall j :: 0 <= j < |r| ==> r[j] == if j < i then s[j] else s[j + 1]
  {
    s[..i] + s[i + 1..]
  }

  ghost predicate NoDup<T>(s: seq<T>) {
    forall i, j :: 0 <= i < j < |s| ==> s[i] != s[j]
  }

  function Min(a: int, b: int): int {
    if a < b then a else b
  }
}
