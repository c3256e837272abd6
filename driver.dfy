/** The driver of i2c_misc_driver.c: the file-scope `i2c_device` record, the probe
    and remove callbacks of the I2C driver, and the file operations of the misc
    device (open, close, ioctl) with the register read and write helpers they use.
    The kernel calls are not modelled: what `misc_register` and `i2c_transfer`
    return, and the bytes the adapter leaves in the receive buffer, are parameters. */
module MiscDriver {
  import opened I2C
  import opened Binding

  /** Device-tree compatible string the driver matches. */
  const COMPATIBLE: string := "myi2c"
  /** Name of the misc device, shown as /dev/myi2cdev. */
  const MISC_NAME: string := "myi2cdev"

  /** sizeof(send_buf): the register pointer message. */
  const SEND_LEN: u16 := 2
  /** sizeof(recv_buf) and sizeof(write_buf): the data message. */
  const DATA_LEN: u16 := 3
  /** The register the ioctl reads and writes back. */
  const IOCTL_REG: u32 := 0

  /** The contents of the 3-byte receive buffer after `i2c_transfer` returned. */
  type RecvBuf = s: seq<byte> | |s| == DATA_LEN as int witness [0, 0, 0]

  /** What the `i2c_transfer` call of a register read gives back: its return value
      (messages done, or a negative error code) and the receive buffer. */
  datatype ReadReply = ReadReply(ret: int, rx: RecvBuf)

  /** The transaction of a register read of `reg` from client `c`: a 2-byte write
      whose first byte selects the register, then a 3-byte read, both to `c`. */
  predicate ReadFrame(x: Transaction, c: Client, reg: u32)
  {
    ToSlave(x, c.adapter, c.addr) && |x.msgs| == 2 &&
    x.msgs[0].flags == 0 && x.msgs[0].len == SEND_LEN && x.msgs[0].buf[0] == ToByte(reg) &&
    x.msgs[1].flags == M_RD && x.msgs[1].len == DATA_LEN
  }

  /** The transaction of a register write of `value` to `reg` of client `c`: a
      2-byte write whose first byte selects the register, then a 3-byte write whose
      first byte is the value, both to `c`. */
  predicate WriteFrame(x: Transaction, c: Client, reg: u32, value: byte)
  {
    ToSlave(x, c.adapter, c.addr) && |x.msgs| == 2 &&
    x.msgs[0].flags == 0 && x.msgs[0].len == SEND_LEN && x.msgs[0].buf[0] == ToByte(reg) &&
    x.msgs[1].flags == 0 && x.msgs[1].len == DATA_LEN && x.msgs[1].buf[0] == value
  }

  /** The single `i2c_device` record and the misc registration. */
  class Driver {
    var client: Option<Client>
    var registered: bool

    function Current(): (s: State)
      reads this
    {
      State(client, registered)
    }

    /** The module as loaded: `client` is NULL and the misc device unregistered. */
    constructor ()
      ensures Current() == Initial
    {
      client := None;
      registered := false;
    }

    /** `my_i2c_probe`: register the misc device; on success store `c`. The
        registration's return value is passed through either way. */
    method Probe(c: Client, regRet: int) returns (ret: int)
      modifies this
      ensures ret == regRet
      ensures regRet != 0 ==> client == old(client) && registered == old(registered)
      ensures regRet == 0 ==> client == Some(c) && registered
      ensures Current() == Step(old(Current()), Bind(c, regRet))
    {
      ret := regRet;
      if ret != 0 {
        return;
      }
      registered := true;
      client := Some(c);
    }

    /** `my_i2c_remove`: deregister the misc device and return 0. The stored client
        is left as it was, and the client argument is not used. */
    method Remove(c: Client) returns (ret: int)
      modifies this
      ensures ret == 0
      ensures !registered && client == old(client)
      ensures Current() == Step(old(Current()), Unbind)
    {
      registered := false;
      ret := 0;
    }

    /** `my_dev_open`: always succeeds and changes nothing. */
    method Open() returns (ret: int)
      ensures ret == 0
    {
      ret := 0;
    }

    /** `my_dev_close`: always succeeds and changes nothing. */
    method Close() returns (ret: int)
      ensures ret == 0
    {
      ret := 0;
    }

    /** `my_dev_read`: read register `reg` through the combined write-then-read
        transaction `x`. `value` is `*value` on entry and `valueOut` on return. A
        negative transfer result is returned unchanged and leaves `*value` alone;
        otherwise `*value` gets the first received byte and the transfer's count is
        returned. The second byte of the pointer message is never initialised, so
        nothing is said about it. */
    method Read(reg: u32, value: byte, reply: ReadReply) returns (ret: int, valueOut: byte, x: Transaction)
      requires client.Some?
      ensures ReadFrame(x, client.value, reg) && CombinedWriteRead(x)
      ensures ret == reply.ret
      ensures ret < 0 ==> valueOut == value
      ensures ret >= 0 ==> valueOut == reply.rx[0]
    {
      var sendBuf := new byte[SEND_LEN];
      var recvBuf := new byte[DATA_LEN];
      sendBuf[0] := ToByte(reg);
      var c := client.value;
      var m0 := Msg(c.addr, SEND_LEN, 0, sendBuf[..]);
      var m1 := Msg(c.addr, DATA_LEN, M_RD, recvBuf[..]);
      x := Transaction(c.adapter, [m0, m1]);
      // i2c_transfer: its return value, and the adapter filling the receive buffer
      ret := reply.ret;
      recvBuf[0], recvBuf[1], recvBuf[2] := reply.rx[0], reply.rx[1], reply.rx[2];
      if ret < 0 {
        valueOut := value;
        return;
      }
      valueOut := recvBuf[0];
    }

    /** `my_dev_write`: write `value` (that is `*value`) to register `reg` through
        two write messages, the pointer and then the payload. The transfer result,
        `xferRet`, is returned whether negative or not. The bytes after the first of
        each buffer are never initialised, so nothing is said about them. */
    method Write(reg: u32, value: byte, xferRet: int) returns (ret: int, x: Transaction)
      requires client.Some?
      ensures WriteFrame(x, client.value, reg, value) && AllWrites(x)
      ensures ret == xferRet
    {
      var sendBuf := new byte[SEND_LEN];
      var writeBuf := new byte[DATA_LEN];
      sendBuf[0] := ToByte(reg);
      writeBuf[0] := value;
      var c := client.value;
      var m0 := Msg(c.addr, SEND_LEN, 0, sendBuf[..]);
      var m1 := Msg(c.addr, DATA_LEN, 0, writeBuf[..]);
      x := Transaction(c.adapter, [m0, m1]);
      ret := xferRet;
      if ret < 0 {
        return;  // the early return on a failed transfer
      }
    }

    /** `my_dev_ioctl`: whatever `cmd` and `arg`, read register 0 into a local that
        starts at 0, add 1 modulo 256 and write it back to register 0; return 0 even
        when either transfer failed. `rx` and `wx` are the two transactions issued;
        `readReply` and `writeRet` are what their `i2c_transfer` calls returned. */
    method Ioctl(cmd: u32, arg: u64, readReply: ReadReply, writeRet: int)
      returns (ret: int, rx: Transaction, wx: Transaction)
      requires client.Some?
      ensures ret == 0
      ensures ReadFrame(rx, client.value, IOCTL_REG)
      ensures readReply.ret < 0 ==> WriteFrame(wx, client.value, IOCTL_REG, 1)
      ensures readReply.ret >= 0 ==> WriteFrame(wx, client.value, IOCTL_REG, (readReply.rx[0] as int + 1) % 0x100)
    {
      var value: byte := 0;
      var reg: u32 := IOCTL_REG;
      var readRet, writeResult;
      readRet, value, rx := Read(reg, value, readReply);
      value := (value as int + 1) % 0x100;
      writeResult, wx := Write(reg, value, writeRet);
      ret := 0;
    }
  }

  /** A platform run with the device at address 0x76: probe succeeds, register 0xFA
      reads back the bytes 0x1A 0x2B 0x3C, the test program's ioctl(100, 110) returns
      0 and writes back 0x1B, and after remove the misc device is gone while the stale client remains. */
  method BindReadRemove() returns (value: byte, ioctlRet: int, written: byte, stillHeld: bool, registered: bool)
    ensures value == 0x1A && ioctlRet == 0 && written == 0x1B
    ensures stillHeld && !registered
  {
    var d := new Driver();
    var c := Client(0x76, 1);
    var r := d.Probe(c, 0);
    var ret, x;
    ret, value, x := d.Read(0xFA, 0, ReadReply(2, [0x1A, 0x2B, 0x3C]));
    var rx, wx;
    ioctlRet, rx, wx := d.Ioctl(100, 110, ReadReply(2, [0x1A, 0x2B, 0x3C]), 2);
    written := wx.msgs[1].buf[0];
    r := d.Remove(c);
    stillHeld := d.client == Some(c);
    registered := d.registered;
  }

  /** A probe whose registration fails with -EBUSY (-16) on a fresh driver returns
      that code and leaves the client NULL and nothing registered. */
  method FailedProbe() returns (ret: int, bound: bool, registered: bool)
    ensures ret == -16 && !bound && !registered
  {
    var d := new Driver();
    ret := d.Probe(Client(0x76, 1), -16);
    bound := d.client.Some?;
    registered := d.registered;
  }
}
