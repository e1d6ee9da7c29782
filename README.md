# umdk-uart, modelled in Dafny

A model of the Unwired Devices `umdk-uart` module, a RIOT driver that bridges
a UART to the framework's command/reply and publish protocol. It is a
sequential model of `unwired-modules/umdk-uart/umdk-uart.c`:

- **Receive path.** `rx_cb` appends each received byte to `rxbuf`. When the
  buffer is full, the next byte empties it, posts an overflow message and is
  dropped. The idle timer is re-armed after every stored byte. When it
  expires it posts a flush message. One pass of the `writer` loop turns a
  message into the published frame `[MID, RECEIVED] ++ rxbuf[0..n)` or
  `[MID, ERR_OVF]` and clears the count.
- **Configuration.** `reset_config` writes the defaults. `init_config` keeps
  the record read from NVRAM only when it passes four checks. `save_config`
  marks the record valid. At module start, three switches coerce parity,
  stop bits and data bits into the driver's legal values.
- **Commands.** `umdk_uart_cmd` handles the wire commands SEND_ALL and
  SET_PARAMETERS (the text `"<baud>-<databits><parity><stopbits>"`) and
  always answers with a two-byte reply. `umdk_uart_shell_cmd` handles the
  shell commands `send <hex>`, `baud <n>` and `reset`.

Files:

- `types.dfy`: `uint8`/`uint32` and the narrowing conversions.
- `riot.dfy`: the module's and the driver's named constants.
- `text.dfy`: the decimal and hexadecimal conversions of the C library that
  the module uses.
- `config_store.dfy`: the configuration record, the load rule and the
  start-up normalisation.
- `accumulator.dfy`: the receive path as a value, with lemmas over byte
  sequences.
- `commands.dfy`: SET_PARAMETERS parsing and validation, and the hex decoding
  of `send`.
- `uart_module.dfy`: the class `UartModule`. Its fields are `config`,
  `rxbuf`, `numBytesReceived` and `timerArmed`, and it has ghost logs of
  signals, published frames, UART writes, UART initialisations and saved
  records. It holds one method per operation of the module.

Two defects of the source are kept as written:

- In SET_PARAMETERS, the stop-bits switch assigns its enumeration value to
  the parity field of `uart_params` (lines 424 and 427). The stop-bits field
  is never set, and the model represents it as `None`. As a result, E and O
  parity hand identical parameters to the driver (`ParityNeverReachesUart`).
- On success, SET_PARAMETERS stores the parsed integers and the parity
  character into the record, not enumeration values (lines 445-447). On the
  next start the stored parity is never legal (given the constant values
  assumed below) and falls back to no parity.
  Stop bits above `STOPBITS_20` make `init_config` discard the whole record
  (`RebootAfterSetParameters`).

Some consequences of the code that are easy to miss:

- A byte that arrives when the count is RXBUF_SIZE - 1 is stored; it is
  the next byte that overflows (`OverflowOnFullBuffer`).
- A successful "115200-8N1" stores the raw values 8, 'N' and 1 in the
  record, as above.
- `init_config` checks only the validity marker, the stop-bits bound and
  the device index. Parity and data bits are coerced later by the start-up
  switches.

The consequences of the second defect (`RebootAfterSetParameters`) and the
start-up guarantees (`BootIsSafe`) hold under the assumptions on the
constant values listed in `riot.dfy` and under "## Left out".

## Model

| member | source | states |
|---|---|---|
| `UmdkUart.UartModule.constructor` | unwired-modules/umdk-uart/umdk-uart.c:46-69 | The static state: the default record, a zeroed `rxbuf` of capacity RXBUF_SIZE, a count of 0, no timer pending, all logs empty. |
| `UmdkUart.UartModule.RxCallback` | unwired-modules/umdk-uart/umdk-uart.c:114-129 | The count stays at most the capacity. At capacity: the count becomes 0, exactly one Overflow is posted, the byte is not stored and the timer is left as it was. Below capacity: the byte is stored at index old count, the count goes up by 1, the rest of `rxbuf` is unchanged and the timer is armed. Equals the abstract step `Receive`. |
| `UmdkUart.UartModule.IdleTimeout` | unwired-modules/umdk-uart/umdk-uart.c:127-128 | Expiry of `send_timer`: it posts one Flush if armed and is then disarmed (the abstract `Expire`). |
| `UmdkUart.UartModule.WriterStep` | unwired-modules/umdk-uart/umdk-uart.c:77-108 | For Flush the payload is `[MID, RECEIVED] ++ rxbuf[0..n)` with length 2 + n. For Overflow it is `[MID, ERR_OVF]`. Afterwards the count is 0 and the payload is appended to the published log. |
| `UmdkUart.UartModule.ResetConfig` | unwired-modules/umdk-uart/umdk-uart.c:131-138 | The record equals the defaults exactly. |
| `UmdkUart.UartModule.InitConfig` | unwired-modules/umdk-uart/umdk-uart.c:140-161 | The record is `LoadedConfig` of what the NVRAM read returned. |
| `UmdkUart.UartModule.SaveConfig` | unwired-modules/umdk-uart/umdk-uart.c:163-166 | The record is marked valid (`is_valid` 1) and exactly that record is appended to the saved log. |
| `UmdkUart.UartModule.Init` | unwired-modules/umdk-uart/umdk-uart.c:244-306 | After loading and the three switches, the record is `BootConfig(stored)`, and the driver is initialised with exactly its parameters. |
| `UmdkUart.UartModule.Cmd` | unwired-modules/umdk-uart/umdk-uart.c:332-463 | Always handled, and every reply is `[MID, code]`. These give ERR_FMT with nothing changed: an empty payload, an unknown prefix, SEND_ALL of length 1, SET_PARAMETERS shorter than 8, and a parameters text that fails to parse or validate. SEND_ALL of length >= 2 writes exactly `data[1..]` and replies SENT. A valid SET_PARAMETERS initialises the driver with the checked parameters. If the driver accepts them, it stores the raw fields with `is_valid` 1, saves and replies BAUDRATE_SET. Otherwise it replies UART_ERR and the record is unchanged. |
| `UmdkUart.UartModule.ShellCmd` | unwired-modules/umdk-uart/umdk-uart.c:168-237 | Without arguments it returns 0 and changes nothing. `send` with an odd-length argument or one over 400 characters returns 0 and writes nothing. Otherwise `send` returns 1 and writes `HexPayload(arg)`, at most 200 bytes. `baud` re-initialises with only the baud rate changed, and stores and saves it only if the driver accepts. `reset` leaves the defaults with `is_valid` 1 and saves them. Any other word returns 1 and changes nothing. |
| `Accumulator.Receive` | unwired-modules/umdk-uart/umdk-uart.c:114-129 | One received byte never takes the held bytes above RXBUF_SIZE. |
| `Accumulator.Feed` | unwired-modules/umdk-uart/umdk-uart.c:114-129 | Any sequence of received bytes keeps the held bytes within RXBUF_SIZE. |
| `Accumulator.Expire` | unwired-modules/umdk-uart/umdk-uart.c:127-128 | Timer expiry disarms the timer, keeps the held bytes, and posts Flush exactly when the timer was armed. |
| `Accumulator.Publish` | unwired-modules/umdk-uart/umdk-uart.c:85-95 | One writer pass clears the held bytes and changes nothing else, so the module is idle afterwards exactly when no timer is pending. |
| `Accumulator.Frame` | unwired-modules/umdk-uart/umdk-uart.c:79-96 | Every published frame starts with MID and the reply code (RECEIVED for Flush, ERR_OVF for Overflow). Its data part is the held bytes for Flush and empty for Overflow. |
| `Accumulator.FeedWithinCapacity` | unwired-modules/umdk-uart/umdk-uart.c:125-128 | Bytes that fit are appended in order, no message is posted, and the timer is armed once any byte has arrived. |
| `Accumulator.OverflowOnFullBuffer` | unwired-modules/umdk-uart/umdk-uart.c:116-123 | The byte that arrives at a full buffer empties it, posts exactly one Overflow, is dropped, and leaves the timer as it was. |
| `Accumulator.OneBurstOneFrame` | unwired-modules/umdk-uart/umdk-uart.c:84-128 | From an idle module, a burst of 1..RXBUF_SIZE bytes followed by the timeout posts exactly one Flush. The writer then publishes exactly those bytes in order and the module is idle again. |
| `Accumulator.OverflowThenEmptyFrame` | unwired-modules/umdk-uart/umdk-uart.c:91-128 | RXBUF_SIZE + 1 bytes from an idle module post Overflow and then, at the timeout, Flush. The Flush publishes a RECEIVED frame with no data, because overflow does not cancel the timer. |
| `ConfigStore.LoadedConfig` | unwired-modules/umdk-uart/umdk-uart.c:140-161 | The loaded record is kept unchanged exactly when the read succeeded, `is_valid` is not 0 or 0xFF, stop bits are at most STOPBITS_20 and the device exists. Otherwise it is exactly the defaults. |
| `ConfigStore.Persisted` | unwired-modules/umdk-uart/umdk-uart.c:163-166 | The record `save_config` writes has `is_valid` 1 and every other field unchanged. |
| `ConfigStore.SaveThenLoad` | unwired-modules/umdk-uart/umdk-uart.c:140-166 | A saved record whose stop bits and device pass the load check is read back unchanged. |
| `ConfigStore.Normalise` | unwired-modules/umdk-uart/umdk-uart.c:249-295 | After the switches, parity is NOPARITY, ODD or EVEN and stop bits are STOPBITS_10 or STOPBITS_20, with fallbacks NOPARITY and STOPBITS_10. Illegal data bits become DATABITS_8 with no parity and DATABITS_9 otherwise. Legal fields and the other fields are unchanged. |
| `ConfigStore.ParamsOf` | unwired-modules/umdk-uart/umdk-uart.c:299-303 | The driver parameters built from the record carry its baud rate, parity, stop bits and data bits unchanged, with the stop-bits field set. |
| `ConfigStore.NormaliseFixesLegal` | unwired-modules/umdk-uart/umdk-uart.c:249-295 | A record with all legal fields is left unchanged, and normalising is idempotent. |
| `ConfigStore.BootIsSafe` | unwired-modules/umdk-uart/umdk-uart.c:244-295 | Whatever NVRAM holds, the module starts with legal line parameters on an existing UART, and an absent or untrusted record gives exactly the defaults. |
| `Commands.Reply` | unwired-modules/umdk-uart/umdk-uart.c:332-337 | `do_reply`: the reply is exactly two bytes, the module id and the given code. |
| `Commands.CommandText` | unwired-modules/umdk-uart/umdk-uart.c:386 | The command text is the payload bytes before the first NUL. |
| `Commands.ParseFormatted` | unwired-modules/umdk-uart/umdk-uart.c:386 | Scanning `"%lu-%d%c%d"` over a rendered parameters text gives back its four fields. |
| `Commands.ParseParams` | unwired-modules/umdk-uart/umdk-uart.c:386 | The `sscanf "%lu-%d%c%d"` model fails when no integer leads the text or when the first integer is not followed by '-'. When it succeeds, the baud rate is that first integer stored into a `uint32_t`. |
| `Commands.CheckParams` | unwired-modules/umdk-uart/umdk-uart.c:392-433 | A request is accepted exactly when data bits are 8, parity is N, E or O and stop bits are 1 or 2. If accepted: the baud rate is kept, data bits are DATABITS_8 for N and DATABITS_9 for E/O, the parity field holds the stop-bits constant, and the stop-bits field is left unset. |
| `Commands.SetParametersRequest` | unwired-modules/umdk-uart/umdk-uart.c:373-433 | A SET_PARAMETERS payload shorter than 8 bytes is refused. Otherwise it is accepted exactly when its text parses and the parsed fields pass `CheckParams`, and then it yields those fields and the checked parameters. |
| `Commands.RequestOfPayload` | unwired-modules/umdk-uart/umdk-uart.c:373-433 | A SET_PARAMETERS payload carrying a rendered text is decided by `CheckParams` on exactly the rendered fields. |
| `Commands.SetParametersAccepted` | unwired-modules/umdk-uart/umdk-uart.c:373-433 | Every well-formed `"<baud>-8<N/E/O><1/2>"` request with a baud rate of at least three digits is accepted with exactly its fields. |
| `Commands.ParametersExampleAccepted` | unwired-modules/umdk-uart/umdk-uart.c:371-433 | "115200-8N1" is accepted as 115200 baud, DATABITS_8, with STOPBITS_10 in the parity field. |
| `Commands.ParametersExamplesRejected` | unwired-modules/umdk-uart/umdk-uart.c:394-433 | "9600-7E1" and "9600-8N3" are rejected with ERR_FMT. |
| `Commands.ParityNeverReachesUart` | unwired-modules/umdk-uart/umdk-uart.c:404-428 | E and O parity hand the same parameters to the driver, and the parity field is a stop-bits constant. |
| `Commands.Applied` | unwired-modules/umdk-uart/umdk-uart.c:444-447 | The record after a successful SET_PARAMETERS stores the parsed baud rate and the parsed data bits, parity character and stop bits, each reduced modulo 256. For a request `CheckParams` accepts, these are exactly 8, the parity character and the stop-bit count, not enumeration values. The validity marker and the device are unchanged. |
| `Commands.RebootAfterSetParameters` | unwired-modules/umdk-uart/umdk-uart.c:444-450 | After a successful SET_PARAMETERS and a restart, parity is NOPARITY. With stop bits at most STOPBITS_20 the baud rate is kept and data bits become DATABITS_8. Otherwise the record is the defaults. |
| `Commands.PairBytes` | unwired-modules/umdk-uart/umdk-uart.c:197-202 | A pair contributes nothing exactly when it reads "0x" or "0X", and otherwise one byte. For two hex digits that byte is their value. |
| `Commands.HexPayload` | unwired-modules/umdk-uart/umdk-uart.c:195-204 | The decoded argument holds at most one byte per pair. |
| `Commands.HexRoundTrip` | unwired-modules/umdk-uart/umdk-uart.c:195-204 | Decoding the hex rendering of any byte string gives back that byte string. |
| `Commands.PrefixedHexExample` | unwired-modules/umdk-uart/umdk-uart.c:200 | "0xAABB" decodes to exactly AA BB. |
| `Commands.DecodeHexArgument` | unwired-modules/umdk-uart/umdk-uart.c:191-204 | The loop over pairs fills a 200-byte buffer with exactly `HexPayload(arg)`: each pair in order, with "0x"/"0X" pairs omitted. |
| `Text.ScanIntegerStops` | unwired-modules/umdk-uart/umdk-uart.c:386 | `Text.ScanInteger`, the `%d`/`%lu` conversion: when it succeeds it consumes at least one character, and the unread rest is a suffix of the input that does not start with a digit. |
| `Text.ScanIntegerDigits` | unwired-modules/umdk-uart/umdk-uart.c:386 | A non-empty run of digits is read whole, with its decimal value. |
| `Text.ScanDecimal` | unwired-modules/umdk-uart/umdk-uart.c:386 | Scanning a decimal rendering stops where it ends and yields its value. |
| `Text.Atoi` | unwired-modules/umdk-uart/umdk-uart.c:220 | `atoi` gives 0 when there is no integer to convert, and the decimal value of a plain run of digits. |
| `Text.AtoiDecimal` | unwired-modules/umdk-uart/umdk-uart.c:220 | `atoi` inverts the decimal rendering. |
| `Text.StrtolHexPair` | unwired-modules/umdk-uart/umdk-uart.c:201 | `strtol(buf, NULL, 16)` on a two-character buffer lies in -15..255, and it is the value of the pair when both are hex digits. |
| `Types.LowByte` | unwired-modules/umdk-uart/umdk-uart.c:445-447 | Narrowing to `uint8_t` keeps the value modulo 256 and keeps values that fit. |
| `Types.ToU32` | unwired-modules/umdk-uart/umdk-uart.c:220 | Narrowing to `uint32_t` keeps the value modulo 2^32 and keeps values that fit. |

## Left out

- Threads and message queues (`thread_create`, `allocate_stack`,
  `msg_init_queue`, `msg_receive`, `msg_send`). The writer is a method called
  with an explicit signal, and posted messages are a ghost log.
- The race between `rx_cb` and the writer on `num_bytes_received`. Each is
  one atomic step.
- xtimer deadlines and real time. The timer is a flag, so re-arming an armed
  timer (which moves its deadline) looks the same as arming it.
- GPIO RE/DE toggling, all `printf`/`puts` output, and the hex-rendering loop
  of the writer (lines 98-106).
- Foreign calls are not modelled as behaviour. Driver initialisation is a
  log of parameters plus a boolean result. UART writes and published frames
  are logs. The NVRAM read is an optional record, and the write is a log
  of records. The NVRAM byte layout and padding of `umdk_uart_config_t` are
  not modelled.
- The device index passed to `uart_init_ext` and `uart_write` is not
  recorded. The raw index at line 438, instead of `UART_DEV(...)`, makes no
  difference here.
- `umdk_uart_init` after the driver is initialised: the failure return, pin
  set-up, message values, stack allocation, shell registration and thread
  creation.
- The numeric values of `UNWDS_UART_MODULE_ID`, `UMDK_UART_RXBUF_SIZE`, the
  reply codes, the prefixes and the RIOT enumerations come from headers that
  are not part of this model. The values in `riot.dfy` are stand-ins. Besides
  being distinct within each enumeration, the proofs rely on these
  properties of them:
  - no parity constant equals the character code of 'N', 'E' or 'O', and
    DATABITS_9 is not 8 (used by `RebootAfterSetParameters`);
  - UMDK_UART_DEV < UART_NUMOF (used by `BootIsSafe`);
  - STOPBITS_20 == 2, two above STOPBITS_10 as in the STM32 stop-bit
    encoding (with STOPBITS_20 == 1 the default branch of the start-up
    stop-bits switch could never be taken);
  - RXBUF_SIZE <= 255, since `num_bytes_received` is a `uint8_t`.
- `Text.ScanInteger`: `%lu` overflow saturation and the undefined overflow of
  `%d` and `atoi` are not modelled. The scanned value is reduced modulo 2^32
  where it is stored into a `uint32_t` (`Types.ToU32`).
- `Commands.CommandText`: the payload is read as if a NUL followed its last
  byte. What lies beyond `data->length` in the `module_data_t` buffer is not
  modelled.
- `UmdkUart.UartModule.ShellCmd`: requires a third argument for `send` and
  `baud`. The source reads `argv[2]` without checking `argc`, and with no
  argument it passes a null pointer to `strlen`/`atoi`.
- `Commands.SetParametersAccepted`: stated for baud rates of at least three
  digits only. Shorter texts give payloads under 8 bytes, which
  `Cmd`'s contract covers as ERR_FMT.
