/** Memory sticks, and the chain of them that kernel memory addresses as one flat memory. */
module Sticks {
  import opened Common

  /** What a write over `flat` leaves when it stops at the end of memory. */
  function Overwrite(flat: seq<byte>, at: nat, data: seq<byte>): (r: seq<byte>)
    ensures |r| == |flat|
  {
    seq(|flat|, i requires 0 <= i < |flat| => if at <= i < at + |data| then data[i - at] else flat[i])
  }

  /** `after` is `before` with the first `n` bytes of `data` stored from `at` on. */
  ghost predicate Stored(before: seq<byte>, at: nat, data: seq<byte>, n: nat, after: seq<byte>) {
    && n <= |data| && |after| == |before|
    && forall i :: 0 <= i < |after| ==> after[i] == if at <= i < at + n then data[i - at] else before[i]
  }

  lemma StoredMore(before: seq<byte>, at: nat, data: seq<byte>, n: nat, between: seq<byte>, m: nat, after: seq<byte>)
    requires n + m <= |data| && Stored(before, at, data, n, between)
    requires Stored(between, at + n, data[n..], m, after)
    ensures Stored(before, at, data, n + m, after)
  {
  }

  lemma StoredAll(before: seq<byte>, at: nat, data: seq<byte>, n: nat, after: seq<byte>)
    requires Stored(before, at, data, n, after) && (n == |data| || |before| <= at + n)
    ensures after == Overwrite(before, at, data)
  {
  }

  /** The remote end of one connection: memory_stick/src/memory_stick.c. */
  class MemoryStick {
    const memory: array<byte>

    constructor (size: nat)
      ensures memory.Length == size && fresh(memory)
    {
      memory := new byte[size];
    }

    /** `leer_memoria`. */
    method Read(offset: nat, length: nat) returns (r: Option<seq<byte>>)
      requires offset + length < WORD_MODULUS
      ensures r == if offset + length <= memory.Length then Some(memory[offset..offset + length]) else None
    {
      if offset + length > memory.Length { return None; }
      r := Some(memory[offset..offset + length]);
    }

    /** `escribir_memoria`. */
    method Write(offset: nat, data: seq<byte>) returns (ok: bool)
      requires offset + |data| < WORD_MODULUS
      modifies memory
      ensures ok <==> offset + |data| <= memory.Length
      ensures memory[..] == if ok then Splice(old(memory[..]), offset, data) else old(memory[..])
    {
      if offset + |data| > memory.Length { return false; }
      forall i | 0 <= i < |data| { memory[offset + i] := data[i]; }
      ok := true;
    }
  }

  /** A `t_memory_stick`: the connection, its size and where it starts in the flat memory. */
  datatype Entry = Entry(stick: MemoryStick, base: nat, size: nat) {
    predicate Has(a: int) {
      base <= a < base + size
    }

    function End(): nat {
      base + size
    }
  }

  function EndOf(es: seq<Entry>): nat {
    if es == [] then 0 else es[|es| - 1].End()
  }

  /** Each stick starts where the one before it ended, the first one at 0. */
  ghost predicate Chained(es: seq<Entry>) {
    && (es != [] ==> es[0].base == 0)
    && (forall k :: 0 <= k < |es| ==> es[k].size > 0 && es[k].End() <= EndOf(es))
    && (forall i, j :: 0 <= i && j == i + 1 < |es| ==> es[i].End() == es[j].base)
    && (forall i, j :: 0 <= i < j < |es| ==> es[i].End() <= es[j].base)
    && (forall i, j :: 0 <= i < j < |es| ==> es[i].stick.memory != es[j].stick.memory)
  }

  lemma AppendChained(es: seq<Entry>, e: Entry)
    requires Chained(es) && e.base == EndOf(es) && e.size > 0
    requires forall x :: x in es ==> x.stick.memory != e.stick.memory
    ensures Chained(es + [e])
  {
    var fs := es + [e];
    forall i, j | 0 <= i < j < |fs| ensures fs[i].End() <= fs[j].base {
      if j == |es| { assert es[i].End() <= EndOf(es); }
    }
    forall i, j | 0 <= i < j < |fs| ensures fs[i].stick.memory != fs[j].stick.memory {
      if j == |es| { assert es[i] in es; }
    }
  }

  /** The global list `g_memory_sticks`. `flat` is the one memory the sticks stand for. */
  class StickBank {
    var entries: seq<Entry>
    ghost var flat: seq<byte>

    ghost function Arrays(): set<array<byte>>
      reads this
    {
      set e | e in entries :: e.stick.memory
    }

    /** The stick behind `e` holds its part of the flat memory. */
    ghost predicate Mirrors(e: Entry)
      reads this, e.stick.memory
    {
      && e.stick.memory.Length == e.size && e.base + e.size <= |flat|
      && forall i :: 0 <= i < e.size ==> e.stick.memory[i] == flat[e.base + i]
    }

    ghost predicate Valid()
      reads this, Arrays()
    {
      && Chained(entries)
      && |flat| == EndOf(entries) < 0x8000_0000
      && forall e :: e in entries ==> Mirrors(e)
    }

    constructor ()
      ensures Valid() && entries == [] && flat == []
    {
      entries := [];
      flat := [];
    }

    /** The sum of the sizes of all sticks. */
    method Total() returns (total: nat)
      requires Valid()
      ensures total == |flat|
    {
      total := 0;
      var i: nat := 0;
      while i < |entries|
        invariant i <= |entries| && total == EndOf(entries[..i])
      {
        total := total + entries[i].size;
        i := i + 1;
      }
      assert entries[..i] == entries;
    }

    /** Registration of a stick in `atender_cliente`: it starts where memory ended. */
    method Connect(stick: MemoryStick) returns (base: nat)
      requires Valid() && stick.memory !in Arrays()
      requires stick.memory.Length > 0 && |flat| + stick.memory.Length < 0x8000_0000
      modifies this
      ensures Valid() && Arrays() == old(Arrays()) + {stick.memory}
      ensures base == |old(flat)| && flat == old(flat) + stick.memory[..]
    {
      base := Total();
      var e := Entry(stick, base, stick.memory.Length);
      forall x | x in entries ensures x.stick.memory != e.stick.memory { assert x.stick.memory in Arrays(); }
      AppendChained(entries, e);
      entries := entries + [e];
      flat := flat + stick.memory[..];
      GrownMirrors(e);
    }

    twostate lemma GrownMirrors(e: Entry)
      requires old(Valid()) && entries == old(entries) + [e]
      requires forall x :: x in old(entries) ==> x.stick.memory[..] == old(x.stick.memory[..])
      requires e.base == |old(flat)| && e.size == e.stick.memory.Length
      requires flat == old(flat) + e.stick.memory[..]
      ensures forall x :: x in entries ==> Mirrors(x)
      ensures Arrays() == old(Arrays()) + {e.stick.memory}
    {
      forall x | x in entries ensures Mirrors(x) {
        if x in old(entries) { assert old(Mirrors(x)); }
      }
      assert e in entries;
    }

    /** The search both loops start with: the first stick whose range has `a`. */
    method Locate(a: nat) returns (r: Option<nat>)
      requires Valid()
      ensures r.Some? <==> a < |flat|
      ensures r.Some? ==> r.value < |entries| && entries[r.value].Has(a)
    {
      var i: nat := 0;
      while i < |entries|
        invariant i <= |entries| && a >= EndOf(entries[..i])
      {
        if entries[i].Has(a) { return Some(i); }
        i := i + 1;
      }
      assert entries[..i] == entries;
      r := None;
    }

    /** One request to one stick; it lies inside the stick, so the stick never refuses it. */
    method ReadChunk(k: nat, a: nat, chunk: nat) returns (piece: seq<byte>)
      requires Valid() && k < |entries| && entries[k].Has(a)
      requires a + chunk <= entries[k].End()
      ensures a + chunk <= |flat| && piece == flat[a..a + chunk]
    {
      var e := entries[k];
      assert Mirrors(e);
      var r := e.stick.Read(a - e.base, chunk);
      piece := r.value;
    }

    /** `leer_de_sticks`. */
    method Read(at: nat, length: nat) returns (r: Option<seq<byte>>)
      requires Valid()
      ensures r == if length == 0 || at + length <= |flat| then Some(Slice(flat, at, length)) else None
    {
      var result: seq<byte> := [];
      var done: nat := 0;
      while done < length
        invariant done <= length && |result| == done
        invariant done > 0 ==> at + done <= |flat|
        invariant forall i :: 0 <= i < done ==> result[i] == flat[at + i]
      {
        var found := Locate(at + done);
        if found.None? { return None; }
        var e := entries[found.value];
        var offset := at + done - e.base;
        var chunk := Min(length - done, e.size - offset);
        var piece := ReadChunk(found.value, at + done, chunk);
        result := result + piece;
        done := done + chunk;
      }
      assert result == Slice(flat, at, length);
      r := Some(result);
    }

    /** One stick takes `piece` at `a`; the flat memory changes in just those bytes. */
    method WriteChunk(k: nat, a: nat, piece: seq<byte>)
      requires Valid() && k < |entries| && entries[k].Has(a)
      requires a + |piece| <= entries[k].End()
      modifies entries[k].stick.memory, this`flat
      ensures Valid() && entries == old(entries)
      ensures Stored(old(flat), a, piece, |piece|, flat)
    {
      hide Chained;
      var e := entries[k];
      assert Mirrors(e);
      ghost var before := e.stick.memory[..];
      ghost var was := flat;
      var ok := e.stick.Write(a - e.base, piece);
      ghost var now := e.stick.memory[..];
      flat := Overwrite(flat, a, piece);
      assert now == Splice(before, a - e.base, piece);
      assert Mirrors(e) by {
        forall i | 0 <= i < e.size ensures now[i] == flat[e.base + i] { assert before[i] == was[e.base + i]; }
      }
      forall x | x in entries && x != e ensures Mirrors(x) {
        assert old(Mirrors(x));
        Elsewhere(entries, x, e);
      }
    }

    lemma Elsewhere(es: seq<Entry>, x: Entry, e: Entry)
      requires Chained(es) && x in es && e in es && x != e
      ensures x.stick.memory != e.stick.memory
      ensures x.End() <= e.base || e.End() <= x.base
    {
    }

    /** One turn of the writing loop: store what fits in the stick that has `a`. */
    method WriteNext(a: nat, data: seq<byte>) returns (chunk: nat)
      requires Valid() && |data| > 0
      modifies Arrays(), this`flat
      ensures Valid() && entries == old(entries)
      ensures (chunk == 0 <==> a >= |flat|) && (chunk > 0 ==> a + chunk <= |flat|)
      ensures Stored(old(flat), a, data, chunk, flat)
    {
      hide Chained;
      var found := Locate(a);
      if found.None? { return 0; }
      var e := entries[found.value];
      chunk := Min(|data|, e.End() - a);
      assert e.stick.memory in Arrays();
      WriteChunk(found.value, a, data[..chunk]);
    }

    /** `escribir_en_sticks`: chunk by chunk, so a failing write keeps what was already stored. */
    method Write(at: nat, data: seq<byte>) returns (ok: bool)
      requires Valid()
      modifies Arrays(), this`flat
      ensures Valid() && entries == old(entries)
      ensures ok <==> |data| == 0 || at + |data| <= |flat|
      ensures flat == Overwrite(old(flat), at, data)
    {
      hide Valid;
      var done: nat := 0;
      ok := true;
      while ok && done < |data|
        invariant Valid() && entries == old(entries)
        invariant Stored(old(flat), at, data, done, flat)
        invariant done > 0 ==> at + done <= |flat|
        invariant !ok ==> at + done >= |flat| && done < |data|
        decreases ok, |data| - done
      {
        ghost var before := flat;
        var chunk := WriteNext(at + done, data[done..]);
        StoredMore(old(flat), at, data, done, before, chunk, flat);
        ok := chunk > 0;
        done := done + chunk;
      }
      StoredAll(old(flat), at, data, done, flat);
    }
  }
}
