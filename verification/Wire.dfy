/** The context as it travels between kernel memory and a CPU (utils/src/utils/conexion.c). */
module Wire {
  import opened Common
  import opened Isa
  import opened Memory

  const HEADER := 36
  const ENTRY := 12

  /** Every field of the table is a 32-bit number, and so is its length. */
  predicate Sendable(table: seq<Segment>) {
    && |table| < WORD_MODULUS
    && forall g :: g in table ==> g.id < WORD_MODULUS && g.base < WORD_MODULUS && g.limit < WORD_MODULUS
  }

  function EncodeRegisters(r: Registers): (q: seq<byte>)
    ensures |q| == 32
  {
    ToBytes(r.pc, 4) + [r.ax as byte, r.bx as byte, r.cx as byte, r.dx as byte] +
    ToBytes(r.eax, 4) + ToBytes(r.ebx, 4) + ToBytes(r.ecx, 4) + ToBytes(r.edx, 4) +
    ToBytes(r.si, 4) + ToBytes(r.di, 4)
  }

  function EncodeSegment(g: Segment): (q: seq<byte>)
    requires Sendable([g])
    ensures |q| == ENTRY
  {
    assert g in [g];
    ToBytes(g.id, 4) + ToBytes(g.base, 4) + ToBytes(g.limit, 4)
  }

  lemma SendableParts(table: seq<Segment>, i: nat)
    requires Sendable(table) && i < |table|
    ensures Sendable(table[..i]) && Sendable([table[i]])
  {
  }

  function EncodeTable(table: seq<Segment>): (q: seq<byte>)
    requires Sendable(table)
    ensures |q| == ENTRY * |table|
  {
    if table == [] then []
    else
      var n := |table| - 1;
      SendableParts(table, n);
      EncodeTable(table[..n]) + EncodeSegment(table[n])
  }

  function Encode(r: Registers, table: seq<Segment>): seq<byte>
    requires Sendable(table)
  {
    EncodeRegisters(r) + ToBytes(|table|, 4) + EncodeTable(table)
  }

  function WordAt(q: seq<byte>, i: nat): word
    requires i + 4 <= |q|
  {
    FromBytes(q[i..i + 4])
  }

  function RegistersAt(q: seq<byte>): Registers
    requires |q| >= 32
  {
    Registers(WordAt(q, 0), q[4] as octet, q[5] as octet, q[6] as octet, q[7] as octet,
              WordAt(q, 8), WordAt(q, 12), WordAt(q, 16), WordAt(q, 20), WordAt(q, 24), WordAt(q, 28))
  }

  function SegmentAt(q: seq<byte>, i: nat): Segment
    requires i + ENTRY <= |q|
  {
    Segment(WordAt(q, i), WordAt(q, i + 4), WordAt(q, i + 8))
  }

  /** A whole context has arrived. */
  predicate Complete(q: seq<byte>) {
    |q| >= HEADER && |q| >= HEADER + ENTRY * WordAt(q, 32)
  }

  /** What the receiver makes of the bytes: registers, table, and what is left for the next message. */
  function Decode(q: seq<byte>): (Registers, seq<Segment>, seq<byte>)
    requires Complete(q)
  {
    var n := WordAt(q, 32);
    (RegistersAt(q), seq(n, k requires 0 <= k < n => SegmentAt(q, HEADER + ENTRY * k)), q[HEADER + ENTRY * n..])
  }

  // ----------------------------------------------------------- round trip

  lemma WordBack(q: seq<byte>, i: nat, v: word)
    requires i + 4 <= |q| && q[i..i + 4] == ToBytes(v, 4)
    ensures WordAt(q, i) == v
  {
    ToFromBytes(v, 4);
  }

  lemma EarlierSlice(a: seq<byte>, b: seq<byte>, i: nat, j: nat)
    requires i <= j <= |a|
    ensures (a + b)[i..j] == a[i..j]
  {
  }

  lemma {:induction false} EntryBytes(table: seq<Segment>, k: nat)
    requires Sendable(table) && k < |table|
    ensures Sendable([table[k]])
    ensures EncodeTable(table)[ENTRY * k..ENTRY * k + ENTRY] == EncodeSegment(table[k])
  {
    hide EncodeSegment;
    var n := |table| - 1;
    SendableParts(table, n);
    if k < n {
      EntryBytes(table[..n], k);
      EarlierSlice(EncodeTable(table[..n]), EncodeSegment(table[n]), ENTRY * k, ENTRY * k + ENTRY);
    }
  }

  lemma SegmentBack(q: seq<byte>, i: nat, g: Segment)
    requires Sendable([g]) && i + ENTRY <= |q| && q[i..i + ENTRY] == EncodeSegment(g)
    ensures SegmentAt(q, i) == g
  {
    hide ToBytes, WordAt;
    assert g in [g];
    var e := EncodeSegment(g);
    assert q[i..i + 4] == e[0..4] && q[i + 4..i + 8] == e[4..8] && q[i + 8..i + 12] == e[8..12];
    WordBack(q, i, g.id);
    WordBack(q, i + 4, g.base);
    WordBack(q, i + 8, g.limit);
  }

  lemma RegistersBack(q: seq<byte>, r: Registers)
    requires |q| >= 32 && q[..32] == EncodeRegisters(r)
    ensures RegistersAt(q) == r
  {
    hide ToBytes, WordAt;
    var e := EncodeRegisters(r);
    assert forall i :: 0 <= i < 32 ==> q[i] == e[i];
    WordBack(q, 0, r.pc);
    WordBack(q, 8, r.eax);
    WordBack(q, 12, r.ebx);
    WordBack(q, 16, r.ecx);
    WordBack(q, 20, r.edx);
    WordBack(q, 24, r.si);
    WordBack(q, 28, r.di);
  }

  /** The receiver gets the context that was sent, and not a byte of what follows it. */
  lemma RoundTrip(r: Registers, table: seq<Segment>, rest: seq<byte>)
    requires Sendable(table)
    ensures Complete(Encode(r, table) + rest)
    ensures Decode(Encode(r, table) + rest) == (r, table, rest)
  {
    hide ToBytes, RegistersAt, SegmentAt, EncodeRegisters, EncodeTable, EncodeSegment;
    var q := Encode(r, table) + rest;
    assert q[..32] == EncodeRegisters(r);
    RegistersBack(q, r);
    assert q[32..36] == ToBytes(|table|, 4);
    WordBack(q, 32, |table|);
    assert q[HEADER..HEADER + ENTRY * |table|] == EncodeTable(table);
    forall k | 0 <= k < |table| ensures SegmentAt(q, HEADER + ENTRY * k) == table[k] {
      EntryBytes(table, k);
      assert q[HEADER + ENTRY * k..HEADER + ENTRY * k + ENTRY] == EncodeTable(table)[ENTRY * k..ENTRY * k + ENTRY];
      SegmentBack(q, HEADER + ENTRY * k, table[k]);
    }
    var d := Decode(q);
    assert d.1 == table;
    assert d.2 == rest;
  }

  /** The 32-bit number in four bytes, low byte first. */
  predicate Word(q: seq<byte>, i: nat, v: int) {
    && i + 4 <= |q|
    && q[i] as int + 0x100 * q[i + 1] as int + 0x1_0000 * q[i + 2] as int + 0x100_0000 * q[i + 3] as int == v
  }

  lemma WordIs(q: seq<byte>, i: nat)
    requires i + 4 <= |q|
    ensures Word(q, i, WordAt(q, i))
  {
  }

  /** The message byte by byte: PC, the four byte registers, EAX to EDX, SI, DI, the number of segments, and of each its
      id, base and limit. */
  lemma Layout(r: Registers, table: seq<Segment>)
    requires Sendable(table)
    ensures var q := Encode(r, table);
            && |q| == 36 + 12 * |table|
            && Word(q, 0, Get(r, PC)) && q[4] as int == Get(r, AX) && q[5] as int == Get(r, BX)
            && q[6] as int == Get(r, CX) && q[7] as int == Get(r, DX)
            && Word(q, 8, Get(r, EAX)) && Word(q, 12, Get(r, EBX)) && Word(q, 16, Get(r, ECX))
            && Word(q, 20, Get(r, EDX)) && Word(q, 24, Get(r, SI)) && Word(q, 28, Get(r, DI)) && Word(q, 32, |table|)
            && forall k :: 0 <= k < |table| ==>
                 && Word(q, 36 + 12 * k, table[k].id) && Word(q, 40 + 12 * k, table[k].base)
                 && Word(q, 44 + 12 * k, table[k].limit)
  {
    hide EncodeRegisters, EncodeTable, EncodeSegment, WordAt, Word;
    var q := Encode(r, table);
    RoundTrip(r, table, []);
    assert q + [] == q;
    var d := Decode(q);
    forall i | i in {0, 8, 12, 16, 20, 24, 28, 32} ensures Word(q, i, WordAt(q, i)) { WordIs(q, i); }
    forall k | 0 <= k < |table|
      ensures Word(q, 36 + 12 * k, table[k].id) && Word(q, 40 + 12 * k, table[k].base)
      ensures Word(q, 44 + 12 * k, table[k].limit)
    {
      assert d.1[k] == SegmentAt(q, HEADER + ENTRY * k);
      WordIs(q, 36 + 12 * k);
      WordIs(q, 40 + 12 * k);
      WordIs(q, 44 + 12 * k);
    }
  }

  lemma WordShifted(q: seq<byte>, at: nat, i: nat)
    requires at + i + 4 <= |q|
    ensures WordAt(q[at..], i) == WordAt(q, at + i)
  {
    assert q[at..][i..i + 4] == q[at + i..at + i + 4];
  }

  lemma WordsShifted(q: seq<byte>)
    requires |q| >= 32
    ensures forall k :: k in {8, 12, 16, 20, 24, 28} ==> WordAt(q[k..], 0) == WordAt(q, k)
  {
    forall k | k in {8, 12, 16, 20, 24, 28} ensures WordAt(q[k..], 0) == WordAt(q, k) { WordShifted(q, k, 0); }
  }

  lemma SegmentShifted(q: seq<byte>, at: nat)
    requires at + ENTRY <= |q|
    ensures SegmentAt(q[at..], 0) == SegmentAt(q, at)
  {
    hide WordAt;
    WordShifted(q, at, 0);
    WordShifted(q, at, 4);
    WordShifted(q, at, 8);
  }

  /** One direction of a connection: the bytes sent and not received yet. */
  class Channel {
    var bytes: seq<byte>

    constructor ()
      ensures bytes == []
    {
      bytes := [];
    }

    /** `enviar_uint32`. */
    method SendWord(v: word)
      modifies this
      ensures bytes == old(bytes) + ToBytes(v, 4)
    {
      bytes := bytes + ToBytes(v, 4);
    }

    /** `enviar_uint8`. */
    method SendOctet(v: octet)
      modifies this
      ensures bytes == old(bytes) + [v as byte]
    {
      bytes := bytes + [v as byte];
    }

    /** `recibir_uint32`, which waits for all four bytes. */
    method ReceiveWord() returns (v: word)
      requires |bytes| >= 4
      modifies this
      ensures v == WordAt(old(bytes), 0) && bytes == old(bytes)[4..]
    {
      v := FromBytes(bytes[0..4]);
      bytes := bytes[4..];
    }

    /** `recibir_uint8`. */
    method ReceiveOctet() returns (v: octet)
      requires |bytes| >= 1
      modifies this
      ensures v == old(bytes)[0] as octet && bytes == old(bytes)[1..]
    {
      v := bytes[0] as octet;
      bytes := bytes[1..];
    }

    method SendRegisters(r: Registers)
      modifies this
      ensures bytes == old(bytes) + EncodeRegisters(r)
    {
      hide ToBytes;
      SendWord(r.pc);
      SendOctet(r.ax);
      SendOctet(r.bx);
      SendOctet(r.cx);
      SendOctet(r.dx);
      SendWord(r.eax);
      SendWord(r.ebx);
      SendWord(r.ecx);
      SendWord(r.edx);
      SendWord(r.si);
      SendWord(r.di);
    }

    method SendSegment(g: Segment)
      requires Sendable([g])
      modifies this
      ensures bytes == old(bytes) + EncodeSegment(g)
    {
      hide ToBytes;
      assert g in [g];
      SendWord(g.id);
      SendWord(g.base);
      SendWord(g.limit);
    }

    /** `enviar_contexto_serializado`. */
    method SendContext(r: Registers, table: seq<Segment>)
      requires Sendable(table)
      modifies this
      ensures bytes == old(bytes) + Encode(r, table)
    {
      hide ToBytes, EncodeRegisters, EncodeSegment;
      SendRegisters(r);
      SendWord(|table|);
      ghost var before := bytes;
      var i: nat := 0;
      while i < |table|
        invariant i <= |table| && Sendable(table[..i])
        invariant bytes == before + EncodeTable(table[..i])
      {
        SendableParts(table, i);
        assert table[..i + 1][..i] == table[..i];
        SendSegment(table[i]);
        i := i + 1;
      }
      assert table[..i] == table;
    }

    method ReceiveRegisters() returns (r: Registers)
      requires |bytes| >= 32
      modifies this
      ensures r == RegistersAt(old(bytes)) && bytes == old(bytes)[32..]
    {
      hide WordAt;
      ghost var q := bytes;
      var pc := ReceiveWord();
      var ax := ReceiveOctet();
      var bx := ReceiveOctet();
      var cx := ReceiveOctet();
      var dx := ReceiveOctet();
      assert bytes == q[8..];
      var eax := ReceiveWord();
      assert bytes == q[12..];
      var ebx := ReceiveWord();
      assert bytes == q[16..];
      var ecx := ReceiveWord();
      assert bytes == q[20..];
      var edx := ReceiveWord();
      assert bytes == q[24..];
      var si := ReceiveWord();
      assert bytes == q[28..];
      var di := ReceiveWord();
      assert bytes == q[32..];
      WordsShifted(q);
      r := Registers(pc, ax, bx, cx, dx, eax, ebx, ecx, edx, si, di);
    }

    method ReceiveSegment() returns (g: Segment)
      requires |bytes| >= ENTRY
      modifies this
      ensures g == SegmentAt(old(bytes), 0) && bytes == old(bytes)[ENTRY..]
    {
      hide WordAt;
      ghost var q := bytes;
      var id := ReceiveWord();
      var base := ReceiveWord();
      assert bytes == q[8..];
      var limit := ReceiveWord();
      assert bytes == q[12..];
      WordShifted(q, 4, 0);
      WordShifted(q, 8, 0);
      g := Segment(id, base, limit);
    }

    /** `recibir_contexto_serializado`. */
    method ReceiveContext() returns (r: Registers, table: seq<Segment>)
      requires Complete(bytes)
      modifies this
      ensures (r, table, bytes) == Decode(old(bytes))
    {
      hide RegistersAt, WordAt;
      ghost var q := bytes;
      r := ReceiveRegisters();
      WordShifted(q, 32, 0);
      var n := ReceiveWord();
      table := [];
      var i: nat := 0;
      while i < n
        invariant i <= n == WordAt(q, 32) && |table| == i
        invariant bytes == q[HEADER + ENTRY * i..]
        invariant forall k :: 0 <= k < i ==> table[k] == SegmentAt(q, HEADER + ENTRY * k)
      {
        ghost var at := HEADER + ENTRY * i;
        SegmentShifted(q, at);
        var g := ReceiveSegment();
        table := table + [g];
        i := i + 1;
        assert bytes == q[at + ENTRY..];
      }
      assert Decode(q).1 == table;
    }
  }
}
