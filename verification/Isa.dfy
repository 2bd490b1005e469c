/** Registers and decoded instructions of the CPU (cpu/src/registros.c, utils/src/utils/mensajes.h). */
module Isa {
  import opened Common

  datatype Reg = AX | BX | CX | DX | EAX | EBX | ECX | EDX | SI | DI | PC | Unknown

  /** What a one-byte register holds. */
  type octet = x: int | 0 <= x < 0x100

  datatype Registers = Registers(
    pc: word, ax: octet, bx: octet, cx: octet, dx: octet,
    eax: word, ebx: word, ecx: word, edx: word, si: word, di: word)

  const RESET := Registers(0, 0, 0, 0, 0, 0, 0, 0, 0, 0, 0)

  /** The system calls all leave the cycle the same way; the scheduler tells them apart. STDIN and
      STDOUT (`Stream`) first translate an address, and may fault. */
  datatype Instruction =
    | Noop
    | Set(r: Reg, v: word)
    | Sum(r: Reg, q: Reg)
    | Sub(r: Reg, q: Reg)
    | Jnz(r: Reg, target: word)
    | MovIn(r: Reg)
    | MovOut(r: Reg)
    | CopyMem(r: Reg)
    | Stream(call: nat, r: Reg, q: Reg)
    | Syscall(call: nat)
    | Undecoded

  /** `tamanio_registro`. */
  function Width(n: Reg): nat {
    if n in {AX, BX, CX, DX} then 1 else 4
  }

  /** `leer_registro`. */
  function Get(c: Registers, n: Reg): word {
    match n
    case AX => c.ax
    case BX => c.bx
    case CX => c.cx
    case DX => c.dx
    case EAX => c.eax
    case EBX => c.ebx
    case ECX => c.ecx
    case EDX => c.edx
    case SI => c.si
    case DI => c.di
    case PC => c.pc
    case Unknown => 0
  }

  /** `escribir_registro`. */
  function Put(c: Registers, n: Reg, v: word): Registers {
    match n
    case AX => c.(ax := v % 0x100)
    case BX => c.(bx := v % 0x100)
    case CX => c.(cx := v % 0x100)
    case DX => c.(dx := v % 0x100)
    case EAX => c.(eax := v)
    case EBX => c.(ebx := v)
    case ECX => c.(ecx := v)
    case EDX => c.(edx := v)
    case SI => c.(si := v)
    case DI => c.(di := v)
    case PC => c.(pc := v)
    case Unknown => c
  }

  /** A register file is a store of eleven independent cells, four of them one byte wide. */
  lemma GetPut(c: Registers, n: Reg, v: word, m: Reg)
    ensures Get(Put(c, n, v), m) ==
            if m != n || n == Unknown then Get(c, m)
            else if Width(n) == 1 then v % 0x100 else v
  {
  }

  /** The little-endian number in up to four bytes, as `memcpy` builds it. */
  function FromBytes(bs: seq<byte>): word
    requires |bs| <= 4
  {
    ByteAt(bs, 0) + 0x100 * ByteAt(bs, 1) + 0x1_0000 * ByteAt(bs, 2) + 0x100_0000 * ByteAt(bs, 3)
  }

  function ByteAt(bs: seq<byte>, i: nat): int {
    if i < |bs| then bs[i] as int else 0
  }

  /** The `n` low bytes of a word, low byte first. */
  function ToBytes(v: word, n: nat): (r: seq<byte>)
    requires n <= 4
    ensures |r| == n
  {
    [(v % 0x100) as byte, (v / 0x100 % 0x100) as byte, (v / 0x1_0000 % 0x100) as byte,
     (v / 0x100_0000) as byte][..n]
  }

  /** Storing a register and loading it back gives what the register could hold. */
  lemma ToFromBytes(v: word, n: nat)
    requires n == 1 || n == 4
    ensures FromBytes(ToBytes(v, n)) == if n == 1 then v % 0x100 else v
  {
    if n == 4 {
      assert v / 0x1_0000 == v / 0x100 / 0x100 && v / 0x100_0000 == v / 0x1_0000 / 0x100;
    }
  }
}
