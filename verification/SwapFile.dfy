/** The swap module: a file of fixed-size blocks (swap/src/swap.c). */
module SwapFiles {
  import opened Common

  lemma BlocksApart(k: nat, n: nat, size: nat)
    requires k < n
    ensures k * size + size <= n * size
  {
    assert (k + 1) * size <= n * size;
  }

  lemma MulLess(a: nat, b: nat, size: nat)
    requires a * size < b * size
    ensures a < b
  {
    if b < a { BlocksApart(b, a, size); }
  }

  /** A block number is within the file exactly when the whole block is. */
  lemma BlockInside(b: nat, total: nat, size: nat)
    requires size > 0
    ensures b < total / size <==> b * size + size <= total
  {
    var q := total / size;
    assert total == q * size + total % size;
    assert (q + 1) * size == q * size + size && (b + 1) * size == b * size + size;
    if b < q { BlocksApart(b, q, size); }
    if b * size + size <= total { MulLess(b + 1, q + 1, size); }
  }

  function Zeros(n: nat): (r: seq<byte>)
    ensures |r| == n
  {
    seq(n, _ => 0)
  }

  /** What `pwrite` leaves in a file: bytes past the end make it longer. */
  function Pwrite(file: seq<byte>, offset: nat, data: seq<byte>): seq<byte> {
    if offset + |data| <= |file| then Splice(file, offset, data)
    else if offset <= |file| then file[..offset] + data
    else file + Zeros(offset - |file|) + data
  }

  function BlockAt(file: seq<byte>, size: nat, b: nat): seq<byte> {
    Slice(file, b * size, size)
  }

  /** The file as the list of its whole blocks. */
  function BlocksIn(file: seq<byte>, size: nat): (r: seq<seq<byte>>)
    requires size > 0
  {
    seq(|file| / size, b requires 0 <= b < |file| / size => BlockAt(file, size, b))
  }

  /** Writing one block changes that block and no other. */
  lemma PwriteBlock(file: seq<byte>, size: nat, b: nat, data: seq<byte>)
    requires size > 0 && b < |file| / size && |data| == size
    ensures BlocksIn(Pwrite(file, b * size, data), size) == BlocksIn(file, size)[b := data]
  {
    BlockInside(b, |file|, size);
    var new_ := Pwrite(file, b * size, data);
    forall k | 0 <= k < |file| / size
      ensures BlockAt(new_, size, k) == if k == b then data else BlockAt(file, size, k)
    {
      BlockInside(k, |file|, size);
      if k < b { BlocksApart(k, b, size); }
      if b < k { BlocksApart(b, k, size); }
    }
  }

  class SwapFile {
    const blockSize: nat
    var contents: seq<byte>

    constructor (fileSize: nat, blockSize: nat)
      requires blockSize > 0
      ensures this.blockSize == blockSize && |contents| == fileSize
    {
      this.blockSize := blockSize;
      contents := Zeros(fileSize);
    }

    ghost function Blocks(): seq<seq<byte>>
      requires blockSize > 0
      reads this
    {
      BlocksIn(contents, blockSize)
    }

    lemma BlockSizes()
      requires blockSize > 0
      ensures forall b :: 0 <= b < |Blocks()| ==> |Blocks()[b]| == blockSize
    {
      forall b | 0 <= b < |Blocks()| ensures |Blocks()[b]| == blockSize { BlockInside(b, |contents|, blockSize); }
    }

    /** `swap_file_leer_bloque`: a short read is an error. */
    method ReadBlock(b: nat) returns (r: Option<seq<byte>>)
      requires blockSize > 0
      ensures r == if b < |Blocks()| then Some(Blocks()[b]) else None
    {
      BlockInside(b, |contents|, blockSize);
      var offset := b * blockSize;
      if offset + blockSize > |contents| { return None; }
      r := Some(contents[offset..offset + blockSize]);
    }

    /** `swap_file_escribir_bloque`. */
    method WriteBlock(b: nat, data: seq<byte>) returns (ok: bool)
      requires blockSize > 0 && |data| == blockSize
      modifies this
      ensures ok && contents == Pwrite(old(contents), b * blockSize, data)
      ensures b < |old(Blocks())| ==> Blocks() == old(Blocks())[b := data]
    {
      assert |Blocks()| == |contents| / blockSize;
      hide BlocksIn, Pwrite;
      if b < |contents| / blockSize { PwriteBlock(contents, blockSize, b, data); }
      contents := Pwrite(contents, b * blockSize, data);
      ok := true;
    }
  }
}
