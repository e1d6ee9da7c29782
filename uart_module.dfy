/**
 * The umdk-uart module instance: the configuration record, the receive
 * buffer and its count, the idle timer, and the operations of umdk-uart.c
 * that act on them. Calls into the rest of the system are parameters
 * (what the NVRAM read returned, whether uart_init_ext accepted the
 * parameters) or ghost logs (what was written to the UART, what was handed
 * to uart_init_ext, what was saved to NVRAM, what was published).
 */
module UmdkUart {
  import opened Types
  import opened Riot
  import opened ConfigStore
  import opened Accumulator
  import opened Commands
  import opened Text

  class UartModule {
    /** umdk_uart_config. */
    var config: Config
    /** rxbuf and num_bytes_received. */
    const rxbuf: array<uint8>
    var numBytesReceived: uint8
    /** Whether send_timer is pending. */
    var timerArmed: bool

    /** Messages posted to the writer thread, oldest first. */
    ghost var signals: seq<Signal>
    /** Payloads handed to the framework's publish callback. */
    ghost var published: seq<seq<uint8>>
    /** Byte strings passed to uart_write. */
    ghost var written: seq<seq<uint8>>
    /** Parameters passed to uart_init_ext. */
    ghost var uartInits: seq<UartParams>
    /** Records written to NVRAM by save_config. */
    ghost var saved: seq<Config>

    ghost predicate Valid()
      reads this
    {
      rxbuf.Length == RXBUF_SIZE && numBytesReceived as int <= RXBUF_SIZE
    }

    /** The receive path's state as a value. */
    ghost function Rx(): RxState
      reads this, rxbuf
      requires Valid()
    {
      RxState(rxbuf[..numBytesReceived], timerArmed, signals)
    }

    /** The module's static state before umdk_uart_init runs. */
    constructor ()
      ensures Valid() && fresh(rxbuf)
      ensures config == Defaults()
      ensures Rx() == RxState([], false, [])
      ensures forall i :: 0 <= i < rxbuf.Length ==> rxbuf[i] == 0
      ensures published == [] && written == [] && uartInits == [] && saved == []
    {
      config := Defaults();
      rxbuf := new uint8[RXBUF_SIZE](_ => 0);
      numBytesReceived := 0;
      timerArmed := false;
      signals, published, written, uartInits, saved := [], [], [], [], [];
    }

    /** rx_cb: a byte has been received. */
    method RxCallback(b: uint8)
      requires Valid()
      modifies this`numBytesReceived, this`timerArmed, this`signals, rxbuf
      ensures Valid()
      ensures Rx() == Receive(old(Rx()), b)
      ensures old(numBytesReceived) as int == RXBUF_SIZE ==>
                && numBytesReceived == 0
                && signals == old(signals) + [Overflow]
                && timerArmed == old(timerArmed)
                && rxbuf[..] == old(rxbuf[..])
      ensures old(numBytesReceived) as int < RXBUF_SIZE ==>
                && numBytesReceived == old(numBytesReceived) + 1
                && rxbuf[..] == old(rxbuf[..])[old(numBytesReceived) as int := b]
                && timerArmed
                && signals == old(signals)
    {
      if numBytesReceived as int == RXBUF_SIZE {
        numBytesReceived := 0;
        signals := signals + [Overflow];
        return;
      }
      rxbuf[numBytesReceived] := b;
      numBytesReceived := numBytesReceived + 1;
      timerArmed := true;
      assert rxbuf[..numBytesReceived] == old(rxbuf[..numBytesReceived]) + [b];
    }

    /** send_timer expires and posts send_msg to the writer. */
    method IdleTimeout()
      requires Valid()
      modifies this`timerArmed, this`signals
      ensures Valid()
      ensures Rx() == Expire(old(Rx()))
    {
      if timerArmed {
        timerArmed := false;
        signals := signals + [Flush];
      }
    }

    /** One pass of the writer loop, for the message it has received. */
    method WriterStep(sig: Signal) returns (payload: seq<uint8>)
      requires Valid()
      modifies this`numBytesReceived, this`published
      ensures Valid()
      ensures payload == Frame(sig, old(Rx()).held)
      ensures sig == Flush ==> payload == [MID, REPLY_RECEIVED] + old(rxbuf[..numBytesReceived])
                               && |payload| == 2 + old(numBytesReceived) as int
      ensures sig == Overflow ==> payload == [MID, REPLY_ERR_OVF]
      ensures numBytesReceived == 0 && published == old(published) + [payload]
      ensures Rx() == Publish(old(Rx()))
    {
      var n := numBytesReceived;
      if sig == Flush {
        payload := [MID, REPLY_RECEIVED] + rxbuf[..n];
      } else {
        payload := [MID, REPLY_ERR_OVF];
      }
      numBytesReceived := 0;
      published := published + [payload];
    }

    /** reset_config. */
    method ResetConfig()
      modifies this`config
      ensures config == Defaults()
    {
      config := config.(isValid := 0);
      config := config.(baudrate := DEFAULT_BAUDRATE);
      config := config.(databits := DATABITS_8);
      config := config.(parity := PARITY_NOPARITY);
      config := config.(stopbits := STOPBITS_10);
      config := config.(uartDev := UMDK_UART_DEV);
    }

    /** init_config, given what the NVRAM read returned (None when it failed). */
    method InitConfig(stored: Option<Config>)
      modifies this`config
      ensures config == LoadedConfig(stored)
    {
      ResetConfig();
      if stored.None? {
        return;
      }
      config := stored.value;
      if config.isValid == 0xFF || config.isValid == 0 {
        ResetConfig();
        return;
      }
      if config.stopbits > STOPBITS_20 {
        ResetConfig();
        return;
      }
      if config.uartDev >= UART_NUMOF {
        ResetConfig();
        return;
      }
    }

    /** save_config. */
    method SaveConfig()
      modifies this`config, this`saved
      ensures config == Persisted(old(config))
      ensures saved == old(saved) + [config]
    {
      config := config.(isValid := 1);
      saved := saved + [config];
    }

    /**
     * umdk_uart_init up to the UART initialisation: load the record, coerce
     * its line parameters into legal values, and hand them to uart_init_ext.
     */
    method Init(stored: Option<Config>)
      modifies this`config, this`uartInits
      ensures config == BootConfig(stored)
      ensures uartInits == old(uartInits) + [ParamsOf(config)]
    {
      InitConfig(stored);
      if !(config.parity == PARITY_NOPARITY || config.parity == PARITY_ODD || config.parity == PARITY_EVEN) {
        config := config.(parity := PARITY_NOPARITY);
      }
      if !(config.stopbits == STOPBITS_10 || config.stopbits == STOPBITS_20) {
        config := config.(stopbits := STOPBITS_10);
      }
      if !(config.databits == DATABITS_8 || config.databits == DATABITS_9) {
        if config.parity == PARITY_NOPARITY {
          config := config.(databits := DATABITS_8);
        } else {
          config := config.(databits := DATABITS_9);
        }
      }
      uartInits := uartInits + [ParamsOf(config)];
    }

    /**
     * umdk_uart_cmd: decode a command payload, act on it and build the reply.
     * uartAccepts is what uart_init_ext reports for the new parameters.
     */
    method Cmd(data: seq<uint8>, uartAccepts: bool) returns (handled: bool, reply: seq<uint8>)
      modifies this`config, this`written, this`uartInits, this`saved
      ensures handled
      ensures |reply| == 2 && reply[0] == MID
      ensures |data| == 0 ==> reply == [MID, REPLY_ERR_FMT] && unchanged(this)
      ensures |data| >= 1 && data[0] != SEND_ALL && data[0] != SET_PARAMETERS ==>
                reply == [MID, REPLY_ERR_FMT] && unchanged(this)
      ensures |data| == 1 && data[0] == SEND_ALL ==> reply == [MID, REPLY_ERR_FMT] && unchanged(this)
      ensures |data| >= 2 && data[0] == SEND_ALL ==>
                && reply == [MID, REPLY_SENT]
                && written == old(written) + [data[1..]]
                && config == old(config) && uartInits == old(uartInits) && saved == old(saved)
      ensures 1 <= |data| < 8 && data[0] == SET_PARAMETERS ==> reply == [MID, REPLY_ERR_FMT] && unchanged(this)
      ensures |data| >= 1 && data[0] == SET_PARAMETERS ==>
                && written == old(written)
                && match SetParametersRequest(data)
                   case None => reply == [MID, REPLY_ERR_FMT] && unchanged(this)
                   case Some((f, params)) =>
                     && uartInits == old(uartInits) + [params]
                     && (uartAccepts ==>
                           && reply == [MID, REPLY_BAUDRATE_SET]
                           && config == Persisted(Applied(old(config), f))
                           && saved == old(saved) + [config])
                     && (!uartAccepts ==>
                           reply == [MID, UART_ERR] && config == old(config) && saved == old(saved))
    {
      handled := true;
      if |data| < 1 {
        reply := Reply(REPLY_ERR_FMT);
        return;
      }
      var prefix := data[0];
      if prefix == SEND_ALL {
        if |data| == 1 {
          reply := Reply(REPLY_ERR_FMT);
          return;
        }
        written := written + [data[1..]];
        reply := Reply(REPLY_SENT);
      } else if prefix == SET_PARAMETERS {
        if |data| < 8 {
          reply := Reply(REPLY_ERR_FMT);
          return;
        }
        var parsed := ParseParams(CommandText(data[1..]));
        if parsed.None? {
          reply := Reply(REPLY_ERR_FMT);
          return;
        }
        var f := parsed.value;
        var params := CheckParams(f);
        if params.None? {
          reply := Reply(REPLY_ERR_FMT);
          return;
        }
        uartInits := uartInits + [params.value];
        if !uartAccepts {
          reply := Reply(UART_ERR);
          return;
        }
        config := Applied(config, f);
        SaveConfig();
        reply := Reply(REPLY_BAUDRATE_SET);
      } else {
        reply := Reply(REPLY_ERR_FMT);
      }
    }

    /**
     * umdk_uart_shell_cmd: args is argv (args[0] is the command name).
     * uartAccepts is what uart_init_ext reports on the `baud` path.
     */
    method ShellCmd(args: seq<string>, uartAccepts: bool) returns (status: int)
      requires |args| >= 1
      requires |args| >= 2 && (args[1] == "send" || args[1] == "baud") ==> |args| >= 3
      modifies this`config, this`written, this`uartInits, this`saved
      ensures |args| == 1 ==> status == 0 && unchanged(this)
      ensures |args| >= 2 && args[1] == "send" ==>
                && config == old(config) && uartInits == old(uartInits) && saved == old(saved)
                && (|args[2]| % 2 != 0 || |args[2]| > MAX_HEX_CHARS ==> status == 0 && written == old(written))
                && (|args[2]| % 2 == 0 && |args[2]| <= MAX_HEX_CHARS ==>
                      && status == 1
                      && written == old(written) + [HexPayload(args[2])]
                      && |HexPayload(args[2])| <= 200)
      ensures |args| >= 2 && args[1] == "baud" ==>
                var baud := ToU32(Atoi(args[2]));
                && status == 1
                && written == old(written)
                && uartInits == old(uartInits) + [ParamsOf(old(config)).(baudrate := baud)]
                && (uartAccepts ==>
                      config == Persisted(old(config).(baudrate := baud)) && saved == old(saved) + [config])
                && (!uartAccepts ==> config == old(config) && saved == old(saved))
      ensures |args| >= 2 && args[1] == "reset" ==>
                && status == 1
                && config == Persisted(Defaults()) && saved == old(saved) + [config]
                && written == old(written) && uartInits == old(uartInits)
      ensures |args| >= 2 && args[1] != "send" && args[1] != "baud" && args[1] != "reset" ==>
                status == 1 && unchanged(this)
    {
      if |args| == 1 {
        return 0;
      }
      var cmd := args[1];
      if cmd == "send" {
        var pos := args[2];
        if |pos| % 2 != 0 {
          return 0;
        }
        if |pos| > MAX_HEX_CHARS {
          return 0;
        }
        var bytes := DecodeHexArgument(pos);
        written := written + [bytes];
      }
      if cmd == "baud" {
        var params := ParamsOf(config).(baudrate := ToU32(Atoi(args[2])));
        uartInits := uartInits + [params];
        if uartAccepts {
          config := config.(baudrate := params.baudrate);
          SaveConfig();
        }
      }
      if cmd == "reset" {
        ResetConfig();
        SaveConfig();
      }
      return 1;
    }
  }
}
