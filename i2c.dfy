/** Values exchanged with the kernel's I2C core: the fixed-width integer types the
    driver uses, one bus message (`struct i2c_msg`) and one transaction, that is the
    message array handed to a single `i2c_transfer` call. */
module I2C {

  /** `uint8_t` */
  type byte = x: int | 0 <= x < 0x100
  /** `__u16`, `unsigned short` */
  type u16 = x: int | 0 <= x < 0x1_0000
  /** `unsigned int` */
  type u32 = x: int | 0 <= x < 0x1_0000_0000
  /** `unsigned long` on a 64-bit kernel */
  type u64 = x: int | 0 <= x < 0x1_0000_0000_0000_0000

  /** `I2C_M_RD` of the kernel's I2C header: bit 0 of the flags marks a read message
      (slave to master); a message whose flags leave it clear is a write. */
  const M_RD: u16 := 0x0001

  /** The C `unsigned int` to `uint8_t` conversion: keep the low eight bits. */
  function ToByte(x: u32): (b: byte)
    ensures (x as int - b as int) % 0x100 == 0
    ensures x < 0x100 ==> b == x as int
  {
    x % 0x100
  }

  /** One `struct i2c_msg`: slave address, length, flags and the bytes of the
      buffer it points at, taken when the message is submitted. */
  datatype Msg = Msg(addr: u16, len: u16, flags: u16, buf: seq<byte>)

  /** The message array of one `i2c_transfer` call and the adapter it went to. */
  datatype Transaction = Transaction(adapter: nat, msgs: seq<Msg>)

  predicate IsRead(m: Msg)
  {
    m.flags % 2 == 1
  }

  /** The length field counts exactly the bytes of the buffer. */
  predicate WellFramed(m: Msg)
  {
    m.len as int == |m.buf|
  }

  /** A transaction the I2C core accepts for one slave: at least one message, every
      message well framed and addressed to `addr`, all on `adapter`. */
  predicate ToSlave(x: Transaction, adapter: nat, addr: u16)
  {
    x.adapter == adapter && |x.msgs| >= 1 &&
    forall i :: 0 <= i < |x.msgs| ==> x.msgs[i].addr == addr && WellFramed(x.msgs[i])
  }

  /** The combined format of section 3.1.10 of the NXP I2C-bus specification
      (UM10204): a write to a slave followed, after a repeated START and without an
      intervening STOP, by a read from the same slave. */
  predicate CombinedWriteRead(x: Transaction)
  {
    |x.msgs| == 2 && !IsRead(x.msgs[0]) && IsRead(x.msgs[1]) &&
    x.msgs[0].addr == x.msgs[1].addr
  }

  /** Every message of the transaction writes to the slave. */
  predicate AllWrites(x: Transaction)
  {
    forall i :: 0 <= i < |x.msgs| ==> !IsRead(x.msgs[i])
  }
}
