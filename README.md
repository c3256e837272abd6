# I2C misc-device driver: binding state and register transactions

This project models `i2c_misc_driver.c`. That Linux kernel driver binds to an I2C
slave whose device-tree compatible string is `"myi2c"`. On probe it publishes the
misc device `"myi2cdev"`. Through that device, a user program's `ioctl` reads
register 0 of the slave and writes back the value plus one.

The model has three modules:

- `I2C` (`i2c.dfy`) holds the C integer widths and `struct i2c_msg` as the datatype
  `Msg(addr, len, flags, buf)`. A `Transaction` is the message array of one
  `i2c_transfer` call. It also holds the flag `I2C_M_RD` (0x0001, the kernel
  header's value) and the framing predicates. `CombinedWriteRead` is the combined
  format of section 3.1.10 of the NXP I2C-bus specification UM10204: a write
  followed by a read from the same slave.
- `Binding` (`binding.dfy`) holds the state kept by the file-scope `i2c_device`
  record: the stored client (`None` stands for NULL) and whether the misc device is
  registered. `Step` gives the effect of one probe or remove callback, and `Run`
  gives the effect of a sequence of them. The lemmas describe any sequence of
  callbacks.
- `MiscDriver` (`driver.dfy`) has the class `Driver` with fields `client` and
  `registered`. Its methods model `my_i2c_probe`, `my_i2c_remove`, `my_dev_open`,
  `my_dev_close`, `my_dev_read`, `my_dev_write` and `my_dev_ioctl`. The two
  scenario methods replay the platform runs described below.

The kernel calls are parameters:

- `Probe` takes the return value of `misc_register`.
- `Read` takes a `ReadReply`: the return value of `i2c_transfer` and the three bytes
  of `recv_buf` after the call.
- `Write` takes the return value of `i2c_transfer`.
- `Ioctl` takes one of each, for its read and its write.

`Read` and `Write` allocate their byte buffers as fresh arrays. The verifier
assumes nothing about the contents of a fresh array, just as C assumes nothing about
an uninitialised local buffer. So the bytes the code never sets (`send_buf[1]`,
`write_buf[1..2]`) are arbitrary, and no contract mentions them.

The code dereferences `i2c_device.client` without a NULL check, so there is no
"no device" error: `Read`, `Write` and `Ioctl` require a stored client.
`Binding.BoundStaysBound` shows that once a probe succeeds, the stored pointer never
becomes NULL again, not even after remove.

Points of the code's behaviour worth knowing:

- `my_i2c_remove` only deregisters the misc device and does not clear `client`
  (i2c_misc_driver.c:225-237). See `Binding.RunClient` and the scenario
  `BindReadRemove`.
- `misc_deregister` is called unconditionally; there is no guard against a second
  remove.
- `my_dev_ioctl` reads register 0, writes back `value + 1` (as a wrapping `uint8_t`)
  and always returns 0. If the read fails, the local `value` stays 0 and the ioctl
  writes 1.
- The payload message of `my_dev_write` is 3 bytes, of which only the first (the
  value) is set.

## Model

| member | source | states |
|---|---|---|
| `MiscDriver.Driver.constructor` | i2c_misc_driver.c:141-149 | At module load the stored client is NULL and the misc device is not registered. |
| `MiscDriver.Driver.Probe` | i2c_misc_driver.c:175-215 | Returns the registration result unchanged. A nonzero result leaves client and registration as they were. A zero result stores the given client and marks the device registered. The new state is one `Step` of a `Bind` event. |
| `MiscDriver.Driver.Remove` | i2c_misc_driver.c:225-237 | Always returns 0 and deregisters the misc device. The stored client is unchanged, so a bound driver stays bound. The new state is one `Step` of an `Unbind` event. |
| `MiscDriver.Driver.Open` | i2c_misc_driver.c:251-259 | Returns 0 and changes no state. |
| `MiscDriver.Driver.Close` | i2c_misc_driver.c:263-271 | Returns 0 and changes no state. |
| `MiscDriver.Driver.Read` | i2c_misc_driver.c:275-331 | Submits exactly two messages on the client's adapter, both to the client's address, in the UM10204 combined write-then-read format. Message 0 is a 2-byte write whose first byte is `reg` truncated to 8 bits. Message 1 is a 3-byte read with `I2C_M_RD`. The transfer result is returned unchanged. A negative result leaves `*value` untouched. Otherwise `*value` becomes the first received byte. |
| `MiscDriver.Driver.Write` | i2c_misc_driver.c:335-389 | Submits exactly two write messages (flags 0) on the client's adapter, both to the client's address. Message 0 has 2 bytes and starts with `reg` truncated to 8 bits. Message 1 has 3 bytes and starts with `*value`. The transfer result, negative or not, is returned. |
| `MiscDriver.Driver.Ioctl` | i2c_misc_driver.c:393-425 | Returns 0 for every `cmd`, `arg` and transfer outcome. The contract never mentions `cmd` or `arg`. It reads register 0 and then writes register 0. After a failed read it writes 1. After a successful read it writes the first received byte plus 1 modulo 256. |
| `Binding.RunClient` | i2c_misc_driver.c:175-237 | After any sequence of probes and removes, the stored client is the one from the latest probe whose registration returned 0. If no probe succeeded, it is whatever was stored before. No remove clears it. |
| `Binding.RunRegistered` | i2c_misc_driver.c:175-237 | After any sequence of callbacks, the misc device is registered exactly when the latest registration-changing callback was a successful probe rather than a remove. Failed probes change nothing. |
| `Binding.BoundStaysBound` | i2c_misc_driver.c:209-237 | Once a client is stored, no sequence of probes and removes makes it NULL again. |
| `Binding.InitialClient` | i2c_misc_driver.c:141-215 | Starting from module load, the driver holds a client exactly when some probe in the sequence had its registration return 0. |
| `Binding.LastBoundSome` | i2c_misc_driver.c:189-209 | A client is stored by some probe in a sequence exactly when some probe's registration returned 0. |
| `Binding.RunSnoc` | i2c_misc_driver.c:175-237 | Running one more callback after a sequence equals one more `Step` from the sequence's result, so the callbacks compose in order. |
| `MiscDriver.BindReadRemove` | i2c_misc_driver.c:175-425 | A probe of address 0x76 succeeds. Reading register 0xFA, with the adapter returning 0x1A 0x2B 0x3C, yields 0x1A. `ioctl(100, 110)` returns 0 and the byte it writes back is 0x1B. After remove, the misc device is unregistered but the client is still stored. |
| `MiscDriver.FailedProbe` | i2c_misc_driver.c:185-197 | On a fresh driver, a probe whose registration fails with -16 returns -16, stores no client and leaves nothing registered. |

## Left out

- `misc_register`, `misc_deregister` and `i2c_transfer` are kernel calls and are not implemented. Their results are method parameters. `misc_deregister` is modelled as making the device unregistered, whatever its state before.
- The bus transfer itself: what the adapter puts on the wire and which messages it completes. The received bytes are given as the contents of `recv_buf` after the call.
- The values of the bytes the code never initialises (`send_buf[1]` in read and write, `write_buf[1..2]` in write). They are arbitrary, and nothing is claimed about them.
- Device-tree matching and the `file_operations`, `miscdevice` and `i2c_driver` tables (i2c_misc_driver.c:49-125). These are framework dispatch. Only the strings `"myi2c"` and `"myi2cdev"` are kept, as constants. The `i2c_driver` pointer in `i2c_device` never changes and is not modelled.
- The `id` argument of probe, and the `inode`/`file` arguments of open, close and ioctl. The code does not use them.
- `pr_info`/`pr_err` logging and the `MODULE_*` / `module_i2c_driver` macros.
- The lifetime of the stored `i2c_client`. The client is kept as an (address, adapter) value, so after `Remove` the model's `Read`, `Write` and `Ioctl` still build well-defined transactions to that address. In C, `i2c_device.client` then points at a client the I2C core may have freed, and a read or write through a file that is still open dereferences it (i2c_misc_driver.c:295, 313, 357, 375).
- Concurrency. The driver has no locking, and the model is sequential.
- ioctl_test.c is not part of this model. It is a user program that only opens the device, calls `ioctl(fd, 100, 110)` and closes it. That call is replayed in `BindReadRemove`.
