/** Fixed-width integers of the interpreter, the Rust `u8` operations its opcodes call,
    and the bit fields of a 16-bit opcode. */
module Word {

  type u8 = x: int | 0 <= x < 0x100
  type u16 = x: int | 0 <= x < 0x1_0000
  /** One hexadecimal digit of an opcode (a register index, a sprite height). */
  type Nibble = x: int | 0 <= x < 0x10
  /** The 12-bit address operand NNN. */
  type Addr = x: int | 0 <= x < 0x1000

  function Min(a: int, b: int): int { if a <= b then a else b }

  /** `u8::overflowing_add`: the sum modulo 256 and whether it wrapped. */
  function OverflowingAdd(a: u8, b: u8): (r: (u8, bool))
    ensures r.0 + (if r.1 then 0x100 else 0) == a + b
  {
    if a + b < 0x100 then (a + b, false) else (a + b - 0x100, true)
  }

  /** `u8::wrapping_add`. */
  function WrappingAdd(a: u8, b: u8): (r: u8)
    ensures r == a + b || r == a + b - 0x100
  {
    (a + b) % 0x100
  }

  /** `u8::wrapping_sub`. */
  function WrappingSub(a: u8, b: u8): (r: u8)
    ensures r == a - b || r == a - b + 0x100
  {
    (a - b) % 0x100
  }

  /** `u8::saturating_add`: never more than the true sum, and short of it only at 255. */
  function SaturatingAdd(a: u8, b: u8): (r: u8)
    ensures r <= a + b
    ensures r < 0xFF ==> r == a + b
  {
    if a + b > 0xFF then 0xFF else a + b
  }

  /** `u8::saturating_sub`: never less than the true difference, and above it only at 0. */
  function SaturatingSub(a: u8, b: u8): (r: u8)
    ensures r >= a - b
    ensures r > 0 ==> r == a - b
  {
    if a < b then 0 else a - b
  }

  /** `v >> 1` together with the bit shifted out, `v & 1`. */
  function ShiftRightOut(v: u8): (r: (u8, u8))
    ensures r.1 < 2 && 2 * r.0 + r.1 == v
  {
    (v / 2, v % 2)
  }

  /** `v.wrapping_shl(1)` together with the bit shifted out, `(v >> 7) & 1`. */
  function ShiftLeftOut(v: u8): (r: (u8, u8))
    ensures r.1 < 2 && r.0 + 0x100 * r.1 == 2 * v
  {
    ((2 * v) % 0x100, v / 0x80)
  }

  /** 2 to the power w. */
  function Pow2(w: nat): (p: nat)
    ensures p >= 1
  {
    if w == 0 then 1 else 2 * Pow2(w - 1)
  }

  /** Bit k of a, counting from the lowest. */
  function Bit(a: nat, k: nat): (r: nat)
    ensures r < 2
  {
    if k == 0 then a % 2 else Bit(a / 2, k - 1)
  }

  /** Bitwise OR of two w-bit numbers, lowest bit first: every bit of either, so never
      below either. */
  function OrBits(a: nat, b: nat, w: nat): (r: nat)
    requires a < Pow2(w) && b < Pow2(w)
    ensures r < Pow2(w) && r >= a && r >= b && (b == 0 ==> r == a)
  {
    if w == 0 then 0
    else 2 * OrBits(a / 2, b / 2, w - 1) + if a % 2 == 1 || b % 2 == 1 then 1 else 0
  }

  /** Bit k of `a | b` is set exactly when bit k of a or of b is. */
  lemma {:induction false} OrBitsBit(a: nat, b: nat, w: nat, k: nat)
    requires a < Pow2(w) && b < Pow2(w) && k < w
    ensures Bit(OrBits(a, b, w), k) == if Bit(a, k) == 1 || Bit(b, k) == 1 then 1 else 0
  {
    assert Pow2(w) == 2 * Pow2(w - 1);
    assert OrBits(a, b, w) / 2 == OrBits(a / 2, b / 2, w - 1);
    if k > 0 {
      OrBitsBit(a / 2, b / 2, w - 1, k - 1);
    }
  }

  /** Bitwise AND of two w-bit numbers: the bits both have, so never above either; all
      ones keeps the other number and zero clears it. */
  function AndBits(a: nat, b: nat, w: nat): (r: nat)
    requires a < Pow2(w) && b < Pow2(w)
    ensures r <= a && r <= b && (b == Pow2(w) - 1 ==> r == a) && (b == 0 ==> r == 0)
  {
    if w == 0 then 0
    else 2 * AndBits(a / 2, b / 2, w - 1) + if a % 2 == 1 && b % 2 == 1 then 1 else 0
  }

  /** Bit k of `a & b` is set exactly when bit k of both a and b is. */
  lemma {:induction false} AndBitsBit(a: nat, b: nat, w: nat, k: nat)
    requires a < Pow2(w) && b < Pow2(w) && k < w
    ensures Bit(AndBits(a, b, w), k) == if Bit(a, k) == 1 && Bit(b, k) == 1 then 1 else 0
  {
    assert Pow2(w) == 2 * Pow2(w - 1);
    assert AndBits(a, b, w) / 2 == AndBits(a / 2, b / 2, w - 1);
    if k > 0 {
      AndBitsBit(a / 2, b / 2, w - 1, k - 1);
    }
  }

  /** Bitwise XOR of two w-bit numbers: the bits where they differ, so zero exactly
      when they are equal. */
  function XorBits(a: nat, b: nat, w: nat): (r: nat)
    requires a < Pow2(w) && b < Pow2(w)
    ensures r < Pow2(w) && (r == 0 <==> a == b) && (b == 0 ==> r == a)
  {
    if w == 0 then 0
    else 2 * XorBits(a / 2, b / 2, w - 1) + if a % 2 != b % 2 then 1 else 0
  }

  /** Bit k of `a ^ b` is set exactly when bits k of a and b differ. */
  lemma {:induction false} XorBitsBit(a: nat, b: nat, w: nat, k: nat)
    requires a < Pow2(w) && b < Pow2(w) && k < w
    ensures Bit(XorBits(a, b, w), k) == if Bit(a, k) != Bit(b, k) then 1 else 0
  {
    assert Pow2(w) == 2 * Pow2(w - 1);
    assert XorBits(a, b, w) / 2 == XorBits(a / 2, b / 2, w - 1);
    if k > 0 {
      XorBitsBit(a / 2, b / 2, w - 1, k - 1);
    }
  }

  /** The three bitwise operations on bytes, bit by bit for each of the 8 bits. */
  lemma ByteBits(a: u8, b: u8)
    ensures forall k :: 0 <= k < 8 ==>
      && Bit(BitOr(a, b), k) == (if Bit(a, k) == 1 || Bit(b, k) == 1 then 1 else 0)
      && Bit(BitAnd(a, b), k) == (if Bit(a, k) == 1 && Bit(b, k) == 1 then 1 else 0)
      && Bit(BitXor(a, b), k) == (if Bit(a, k) != Bit(b, k) then 1 else 0)
  {
    assert Pow2(8) == 0x100;
    forall k | 0 <= k < 8
      ensures Bit(BitOr(a, b), k) == (if Bit(a, k) == 1 || Bit(b, k) == 1 then 1 else 0)
      ensures Bit(BitAnd(a, b), k) == (if Bit(a, k) == 1 && Bit(b, k) == 1 then 1 else 0)
      ensures Bit(BitXor(a, b), k) == (if Bit(a, k) != Bit(b, k) then 1 else 0)
    {
      OrBitsBit(a, b, 8, k);
      AndBitsBit(a, b, 8, k);
      XorBitsBit(a, b, 8, k);
    }
  }

  /** `a | b` on bytes. */
  function BitOr(a: u8, b: u8): (r: u8)
    ensures r >= a && r >= b && (b == 0 ==> r == a)
  {
    assert Pow2(8) == 0x100;
    OrBits(a, b, 8)
  }

  /** `a & b` on bytes. */
  function BitAnd(a: u8, b: u8): (r: u8)
    ensures r <= a && r <= b && (b == 0xFF ==> r == a) && (b == 0 ==> r == 0)
  {
    assert Pow2(8) == 0x100;
    AndBits(a, b, 8)
  }

  /** `a ^ b` on bytes. */
  function BitXor(a: u8, b: u8): (r: u8)
    ensures (r == 0 <==> a == b) && (b == 0 ==> r == a)
  {
    assert Pow2(8) == 0x100;
    XorBits(a, b, 8)
  }

  /** `(hi as u16) << 8 | lo as u16`: the big-endian word of two bytes; both bytes can be
      read back from it. */
  function BigEndian(hi: u8, lo: u8): (w: u16)
    ensures w / 0x100 == hi && w % 0x100 == lo
  {
    hi * 0x100 + lo
  }

  /** `opcode & 0xF000`, as its top hexadecimal digit. */
  function Family(op: u16): (r: Nibble) { op / 0x1000 }

  /** `get_register_x`: `(opcode & 0x0F00) >> 8`. */
  function RegisterX(op: u16): (r: Nibble)
    ensures 0x100 * r <= op % 0x1000 < 0x100 * (r + 1)
  {
    (op / 0x100) % 0x10
  }

  /** `get_register_y`: `(opcode & 0x00F0) >> 4`. */
  function RegisterY(op: u16): (r: Nibble)
    ensures 0x10 * r <= op % 0x100 < 0x10 * (r + 1)
  {
    (op / 0x10) % 0x10
  }

  /** `opcode & 0x000F`. */
  function LowNibble(op: u16): Nibble { op % 0x10 }

  /** `(opcode & 0x00FF) as u8`. */
  function LowByte(op: u16): u8 { op % 0x100 }

  /** `opcode & 0x0FFF`. */
  function Address(op: u16): Addr { op % 0x1000 }

  /** The four digits are the whole opcode, and the wider fields are made of them. */
  lemma {:induction false} FieldsReassemble(op: u16)
    ensures op == 0x1000 * Family(op) + 0x100 * RegisterX(op) + 0x10 * RegisterY(op) + LowNibble(op)
    ensures LowByte(op) == 0x10 * RegisterY(op) + LowNibble(op)
    ensures Address(op) == 0x100 * RegisterX(op) + LowByte(op)
  {
    var a := op / 0x10;
    var b := a / 0x10;
    assert op == 0x10 * a + op % 0x10;
    assert a == 0x10 * b + a % 0x10;
    assert b == 0x10 * (b / 0x10) + b % 0x10;
    assert op / 0x100 == b;
    assert op / 0x1000 == b / 0x10;
  }

  /** The opcode with the given four digits. */
  function Assemble(f: Nibble, x: Nibble, y: Nibble, n: Nibble): u16
  {
    0x1000 * f + 0x100 * x + 0x10 * y + n
  }

  /** Assembling four digits and extracting the fields gives the digits back. */
  lemma {:induction false} AssembleFields(f: Nibble, x: Nibble, y: Nibble, n: Nibble)
    ensures var op := Assemble(f, x, y, n);
      Family(op) == f && RegisterX(op) == x && RegisterY(op) == y && LowNibble(op) == n
      && LowByte(op) == 0x10 * y + n && Address(op) == 0x100 * x + 0x10 * y + n
  {
    var op := Assemble(f, x, y, n);
    assert op / 0x10 == 0x100 * f + 0x10 * x + y;
    assert op / 0x100 == 0x10 * f + x;
    assert op / 0x1000 == f;
  }
}
