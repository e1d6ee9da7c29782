/**
 * The pure parts of the command dispatcher: reading the SET_PARAMETERS
 * text, validating its fields, the record that a successful request
 * stores, and the hex decoding of the shell `send` argument.
 */
module Commands {
  import opened Types
  import opened Riot
  import opened Text
  import opened ConfigStore

  /** do_reply: the two-byte reply [module id, reply code]. */
  function Reply(code: uint8): (r: seq<uint8>)
    ensures |r| == 2 && r[0] == MID && r[1] == code
  {
    [MID, code]
  }

  /** Fields that sscanf(text, "%lu-%d%c%d", ...) stores when it converts all four. */
  datatype Fields = Fields(baud: uint32, databits: int, parity: char, stopbits: int)

  /**
   * data->data + 1 read as a C string: the bytes before the first NUL. The
   * terminator is assumed to lie within the payload or right after it.
   */
  function CommandText(bytes: seq<uint8>): (text: string)
    ensures |text| <= |bytes|
    ensures forall i :: 0 <= i < |text| ==> text[i] as int == bytes[i] as int && text[i] != '\0'
    ensures |text| < |bytes| ==> bytes[|text|] == 0
  {
    if bytes == [] || bytes[0] == 0 then []
    else [bytes[0] as int as char] + CommandText(bytes[1..])
  }

  /** The bytes of a text whose characters are all below 256. */
  function Bytes(s: string): (b: seq<uint8>)
    requires forall i :: 0 <= i < |s| ==> s[i] as int < 0x100
    ensures |b| == |s| && forall i :: 0 <= i < |s| ==> b[i] as int == s[i] as int
  {
    seq(|s|, i requires 0 <= i < |s| => s[i] as int as uint8)
  }

  lemma {:induction false} CommandTextOfBytes(s: string)
    requires forall i :: 0 <= i < |s| ==> 0 < s[i] as int < 0x100
    ensures CommandText(Bytes(s)) == s
  {
    if s != [] {
      assert Bytes(s)[1..] == Bytes(s[1..]);
      CommandTextOfBytes(s[1..]);
    }
  }

  /**
   * sscanf(text, "%lu-%d%c%d", &baud, &databits, &parity, &stopbits) == 4:
   * the four fields when every conversion succeeds, None otherwise. %lu's
   * value is stored into a uint32_t; %c takes the next character as it is.
   */
  function ParseParams(text: string): (r: Option<Fields>)
    ensures ScanInteger(text).None? ==> r.None?
    ensures r.Some? ==> ScanInteger(text).Some? && r.value.baud == ToU32(ScanInteger(text).value.0)
    ensures match ScanInteger(text)
      case Some((_, rest)) => (rest == [] || rest[0] != '-') ==> r.None?
      case None => true
  {
    match ScanInteger(text)
    case None => None
    case Some((baud, rest)) => ParseAfterBaud(ToU32(baud), rest)
  }

  /** The rest of the conversion once %lu has read the baud rate: the literal '-', then %d. */
  function ParseAfterBaud(baud: uint32, rest: string): (r: Option<Fields>) {
    if rest == [] || rest[0] != '-' then None
    else
      match ScanInteger(rest[1..])
      case None => None
      case Some((databits, rest')) => ParseAfterDatabits(baud, databits, rest')
  }

  /** The rest of the conversion once the data bits are read: %c, then %d. */
  function ParseAfterDatabits(baud: uint32, databits: int, rest: string): (r: Option<Fields>) {
    if rest == [] then None
    else
      match ScanInteger(rest[1..])
      case None => None
      case Some((stopbits, _)) => Some(Fields(baud, databits, rest[0], stopbits))
  }

  /** The parameters text a client sends, "<baud>-<databits><parity><stopbits>". */
  function FormatParams(baud: nat, databits: nat, parity: char, stopbits: nat): (s: string) {
    Decimal(baud) + "-" + Decimal(databits) + [parity] + Decimal(stopbits)
  }

  /** Reading back a formatted parameters text gives its four fields. */
  lemma ParseFormatted(baud: nat, databits: nat, parity: char, stopbits: nat)
    requires baud < 0x1_0000_0000 && !IsDigit(parity)
    ensures ParseParams(FormatParams(baud, databits, parity, stopbits))
         == Some(Fields(baud as uint32, databits, parity, stopbits))
  {
    var tail := "-" + (Decimal(databits) + ([parity] + Decimal(stopbits)));
    assert FormatParams(baud, databits, parity, stopbits) == Decimal(baud) + tail;
    ScanDecimal(baud, tail);
    ParseAfterBaudFormatted(baud as uint32, databits, parity, stopbits);
  }

  lemma ParseAfterBaudFormatted(baud: uint32, databits: nat, parity: char, stopbits: nat)
    requires !IsDigit(parity)
    ensures ParseAfterBaud(baud, "-" + (Decimal(databits) + ([parity] + Decimal(stopbits))))
         == Some(Fields(baud, databits, parity, stopbits))
  {
    var tail := [parity] + Decimal(stopbits);
    var rest := "-" + (Decimal(databits) + tail);
    assert rest[0] == '-' && rest[1..] == Decimal(databits) + tail;
    assert tail[0] == parity;
    ScanDecimal(databits, tail);
    ParseAfterDatabitsFormatted(baud, databits, parity, stopbits);
  }

  lemma ParseAfterDatabitsFormatted(baud: uint32, databits: int, parity: char, stopbits: nat)
    ensures ParseAfterDatabits(baud, databits, [parity] + Decimal(stopbits))
         == Some(Fields(baud, databits, parity, stopbits))
  {
    var rest := [parity] + Decimal(stopbits);
    assert rest[1..] == Decimal(stopbits) + [];
    ScanDecimal(stopbits, []);
  }

  /**
   * The three switches of SET_PARAMETERS (databits, parity, stopbits) and
   * the uart_params_t they build. As written, the stop-bits switch stores
   * its enumeration value into the parity field, overwriting the parity just
   * chosen, and never sets the stop-bits field.
   */
  function CheckParams(f: Fields): (r: Option<UartParams>)
    ensures r.Some? <==> f.databits == 8 && f.parity in "NEO" && (f.stopbits == 1 || f.stopbits == 2)
    ensures r.Some? ==>
              && r.value.baudrate == f.baud
              && r.value.databits == (if f.parity == 'N' then DATABITS_8 else DATABITS_9)
              && r.value.parity == (if f.stopbits == 1 then STOPBITS_10 else STOPBITS_20)
              && r.value.stopbits == None
  {
    if f.databits != 8 then None
    else
      var parityDatabits: Option<(uint8, uint8)> :=
        if f.parity == 'N' then Some((PARITY_NOPARITY, DATABITS_8))
        else if f.parity == 'E' then Some((PARITY_EVEN, DATABITS_9))
        else if f.parity == 'O' then Some((PARITY_ODD, DATABITS_9))
        else None;
      if parityDatabits.None? then None
      else
        var (_, databits) := parityDatabits.value;
        if f.stopbits == 1 then Some(UartParams(f.baud, STOPBITS_10, None, databits))
        else if f.stopbits == 2 then Some(UartParams(f.baud, STOPBITS_20, None, databits))
        else None
  }

  /**
   * The fields of a SET_PARAMETERS payload and the parameters it passes to
   * uart_init_ext, or None when it is answered with ERR_FMT.
   */
  function SetParametersRequest(data: seq<uint8>): (r: Option<(Fields, UartParams)>)
    ensures |data| < 8 ==> r.None?
    ensures r.Some? ==> ParseParams(CommandText(data[1..])) == Some(r.value.0) && CheckParams(r.value.0) == Some(r.value.1)
    ensures |data| >= 8 ==>
              match ParseParams(CommandText(data[1..]))
              case Some(f) => CheckParams(f).Some? ==> r.Some?
              case None => true
  {
    if |data| < 8 then None
    else
      match ParseParams(CommandText(data[1..]))
      case None => None
      case Some(f) =>
        match CheckParams(f)
        case None => None
        case Some(params) => Some((f, params))
  }

  /** The record after a successful SET_PARAMETERS, before save_config marks it valid: the raw parsed values, narrowed to the fields' widths. */
  function Applied(c: Config, f: Fields): (r: Config)
    ensures r.isValid == c.isValid && r.uartDev == c.uartDev && r.baudrate == f.baud
    ensures (r.databits as int - f.databits) % 0x100 == 0
    ensures (r.parity as int - f.parity as int) % 0x100 == 0
    ensures (r.stopbits as int - f.stopbits) % 0x100 == 0
    ensures CheckParams(f).Some? ==>
              r.databits as int == 8 && r.parity as int == f.parity as int && r.stopbits as int == f.stopbits
  {
    c.(baudrate := f.baud,
       databits := LowByte(f.databits),
       parity := LowByte(f.parity as int),
       stopbits := LowByte(f.stopbits))
  }

  /**
   * A well-formed request "<baud>-8<parity><stopbits>" with a baud rate of at
   * least three digits is accepted with exactly its fields; an E or O parity
   * selects 9-bit framing, and the chosen parity does not reach uart_init_ext.
   */
  lemma SetParametersAccepted(baud: nat, parity: char, stopbits: nat)
    requires 100 <= baud < 0x1_0000_0000
    requires parity in "NEO" && (stopbits == 1 || stopbits == 2)
    ensures SetParametersRequest(SetParametersPayload(baud, 8, parity, stopbits))
         == Some((Fields(baud as uint32, 8, parity, stopbits),
                  UartParams(baud as uint32,
                             if stopbits == 1 then STOPBITS_10 else STOPBITS_20,
                             None,
                             if parity == 'N' then DATABITS_8 else DATABITS_9)))
  {
    RequestOfPayload(baud, 8, parity, stopbits);
  }

  /**
   * Because the stop-bits switch overwrites the parity field, an even-parity
   * and an odd-parity request hand identical parameters to uart_init_ext.
   */
  lemma ParityNeverReachesUart(baud: uint32, stopbits: int)
    ensures CheckParams(Fields(baud, 8, 'E', stopbits)) == CheckParams(Fields(baud, 8, 'O', stopbits))
    ensures CheckParams(Fields(baud, 8, 'E', stopbits)).Some? ==>
              CheckParams(Fields(baud, 8, 'E', stopbits)).value.parity in {STOPBITS_10, STOPBITS_20}
  {
  }

  /** The text "<baud>-<databits><parity><stopbits>" sent as a SET_PARAMETERS payload. */
  function SetParametersPayload(baud: nat, databits: nat, parity: char, stopbits: nat): (data: seq<uint8>)
    requires parity as int < 0x100
  {
    assert forall i :: 0 <= i < |FormatParams(baud, databits, parity, stopbits)| ==>
      FormatParams(baud, databits, parity, stopbits)[i] as int < 0x100;
    [SET_PARAMETERS] + Bytes(FormatParams(baud, databits, parity, stopbits))
  }

  lemma RequestOfPayload(baud: nat, databits: nat, parity: char, stopbits: nat)
    requires 100 <= baud < 0x1_0000_0000 && 0 < parity as int < 0x100 && !IsDigit(parity)
    ensures SetParametersRequest(SetParametersPayload(baud, databits, parity, stopbits))
         == var f := Fields(baud as uint32, databits, parity, stopbits);
            if CheckParams(f).Some? then Some((f, CheckParams(f).value)) else None
  {
    var text := FormatParams(baud, databits, parity, stopbits);
    DecimalLength(baud);
    assert forall i :: 0 <= i < |text| ==> 0 < text[i] as int < 0x100;
    assert SetParametersPayload(baud, databits, parity, stopbits)[1..] == Bytes(text);
    CommandTextOfBytes(text);
    ParseFormatted(baud, databits, parity, stopbits);
  }

  lemma DecimalExamples()
    ensures Decimal(115200) == "115200" && Decimal(9600) == "9600"
    ensures Decimal(1) == "1" && Decimal(3) == "3" && Decimal(7) == "7" && Decimal(8) == "8"
  {
    assert Decimal(11) == "11";
    assert Decimal(115) == "115";
    assert Decimal(1152) == "1152";
    assert Decimal(11520) == "11520";
    assert Decimal(96) == "96";
    assert Decimal(960) == "960";
  }

  lemma FormatExamples()
    ensures FormatParams(115200, 8, 'N', 1) == "115200-8N1"
    ensures FormatParams(9600, 7, 'E', 1) == "9600-7E1"
    ensures FormatParams(9600, 8, 'N', 3) == "9600-8N3"
  {
    DecimalExamples();
  }

  /** "115200-8N1" sets 115200 baud, 8 data bits, no parity, one stop bit. */
  lemma ParametersExampleAccepted()
    ensures FormatParams(115200, 8, 'N', 1) == "115200-8N1"
    ensures SetParametersRequest(SetParametersPayload(115200, 8, 'N', 1))
         == Some((Fields(115200, 8, 'N', 1), UartParams(115200, STOPBITS_10, None, DATABITS_8)))
  {
    FormatExamples();
    RequestOfPayload(115200, 8, 'N', 1);
  }

  /** "9600-7E1" (seven data bits) and "9600-8N3" (three stop bits) are answered with ERR_FMT. */
  lemma ParametersExamplesRejected()
    ensures FormatParams(9600, 7, 'E', 1) == "9600-7E1"
    ensures SetParametersRequest(SetParametersPayload(9600, 7, 'E', 1)) == None
    ensures FormatParams(9600, 8, 'N', 3) == "9600-8N3"
    ensures SetParametersRequest(SetParametersPayload(9600, 8, 'N', 3)) == None
  {
    FormatExamples();
    RequestOfPayload(9600, 7, 'E', 1);
    RequestOfPayload(9600, 8, 'N', 3);
  }

  /**
   * The values a successful SET_PARAMETERS stores are characters and counts,
   * not driver enumerations. On the next start the stored parity is never
   * legal, so it falls back to no parity; with stop bits above STOPBITS_20
   * the whole record is discarded for the defaults.
   */
  lemma RebootAfterSetParameters(c: Config, f: Fields)
    requires CheckParams(f).Some? && c.uartDev < UART_NUMOF
    ensures var booted := BootConfig(Some(Persisted(Applied(c, f))));
      && booted.parity == PARITY_NOPARITY
      && (LowByte(f.stopbits) <= STOPBITS_20 ==> booted.baudrate == f.baud && booted.databits == DATABITS_8)
      && (LowByte(f.stopbits) > STOPBITS_20 ==> booted == Defaults())
  {
    var stored := Persisted(Applied(c, f));
    assert stored.parity as int == f.parity as int;
    assert !LegalParity(stored.parity);
    assert stored.databits == 8 && !LegalDatabits(stored.databits);
  }

  /** The byte `send` stores for the pair c0 c1, or nothing for a "0x" or "0X" pair. */
  function PairBytes(c0: char, c1: char): (r: seq<uint8>)
    ensures |r| <= 1
    ensures r == [] <==> c0 == '0' && (c1 == 'x' || c1 == 'X')
    ensures IsHexDigit(c0) && IsHexDigit(c1) && r != [] ==> r[0] as int == 16 * HexValue(c0) + HexValue(c1)
  {
    if c0 == '0' && (c1 == 'x' || c1 == 'X') then []
    else [LowByte(StrtolHexPair(c0, c1))]
  }

  /** The bytes the shell `send` command writes for an argument of even length. */
  function HexPayload(s: string): (r: seq<uint8>)
    requires |s| % 2 == 0
    ensures 2 * |r| <= |s|
    decreases |s|
  {
    if s == [] then [] else HexPayload(s[..|s| - 2]) + PairBytes(s[|s| - 2], s[|s| - 1])
  }

  /** A byte string rendered as upper-case hex, two digits per byte. */
  function HexString(bytes: seq<uint8>): (s: string)
    ensures |s| == 2 * |bytes|
  {
    if bytes == [] then [] else HexString(bytes[..|bytes| - 1]) + HexByte(bytes[|bytes| - 1])
  }

  /** `send` writes exactly the bytes whose hex rendering it is given. */
  lemma {:induction false} HexRoundTrip(bytes: seq<uint8>)
    ensures HexPayload(HexString(bytes)) == bytes
  {
    if bytes != [] {
      var init := bytes[..|bytes| - 1];
      var last := bytes[|bytes| - 1];
      assert HexString(bytes) == HexString(init) + HexByte(last);
      HexPayloadAppend(HexString(init), HexByte(last));
      HexRoundTrip(init);
      HexBytePair(last);
      assert init + [last] == bytes;
    }
  }

  lemma HexPayloadAppend(s: string, pair: string)
    requires |s| % 2 == 0 && |pair| == 2
    ensures HexPayload(s + pair) == HexPayload(s) + PairBytes(pair[0], pair[1])
  {
    assert (s + pair)[..|s|] == s;
  }

  lemma HexBytePair(b: uint8)
    ensures PairBytes(HexByte(b)[0], HexByte(b)[1]) == [b]
  {
  }

  /** The 0x prefix of a pasted argument is dropped: "0xAABB" sends AA BB. */
  lemma PrefixedHexExample()
    ensures HexPayload("0xAABB") == [0xAA, 0xBB]
  {
    assert "0xAABB"[..4] == "0xAA";
    assert "0xAA"[..2] == "0x";
    assert "0x"[..0] == "";
  }

  /**
   * The decoding loop of the shell `send` command: each two-character pair
   * is converted into the next slot of a 200-byte buffer unless it reads
   * "0x" or "0X".
   */
  method DecodeHexArgument(arg: string) returns (bytes: seq<uint8>)
    requires |arg| % 2 == 0 && |arg| <= MAX_HEX_CHARS
    ensures bytes == HexPayload(arg)
    ensures |bytes| <= 200
  {
    var data := new uint8[200];
    var count := 0;
    var pairs := |arg| / 2;
    assert 2 * pairs == |arg|;
    var i := 0;
    ghost var decoded := [];
    while i < pairs
      invariant 0 <= i <= pairs
      invariant count <= i && |decoded| == count
      invariant forall k :: 0 <= k < count ==> data[k] == decoded[k]
      invariant decoded == HexPayload(arg[..2 * i])
    {
      var c0, c1 := arg[2 * i], arg[2 * i + 1];
      HexPayloadStep(arg, i);
      if !(c0 == '0' && (c1 == 'x' || c1 == 'X')) {
        data[count] := LowByte(StrtolHexPair(c0, c1));
        count := count + 1;
      }
      decoded := decoded + PairBytes(c0, c1);
      i := i + 1;
    }
    assert arg[..2 * i] == arg;
    bytes := data[..count];
    assert bytes == decoded;
  }

  lemma HexPayloadStep(arg: string, i: nat)
    requires 2 * i + 2 <= |arg|
    ensures HexPayload(arg[..2 * i + 2]) == HexPayload(arg[..2 * i]) + PairBytes(arg[2 * i], arg[2 * i + 1])
  {
    assert arg[..2 * i + 2][..2 * i] == arg[..2 * i];
  }
}
