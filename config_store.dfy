/**
 * The persisted UART configuration: its defaults, the trust test applied to
 * a record read back from NVRAM, and the normalisation that coerces the
 * parity, stop-bit and data-bit fields into the driver's legal values at
 * module start.
 */
module ConfigStore {
  import opened Types
  import opened Riot

  /** umdk_uart_config_t. */
  datatype Config = Config(
    isValid: uint8,
    uartDev: uint8,
    baudrate: uint32,
    databits: uint8,
    parity: uint8,
    stopbits: uint8)

  /**
   * uart_params_t as handed to uart_init_ext. The stop-bits field is None
   * where the caller left it uninitialised.
   */
  datatype UartParams = UartParams(baudrate: uint32, parity: uint8, stopbits: Option<uint8>, databits: uint8)

  /** The record written by reset_config (and by the static initialiser). */
  function Defaults(): (c: Config) {
    Config(0, UMDK_UART_DEV, DEFAULT_BAUDRATE, DATABITS_8, PARITY_NOPARITY, STOPBITS_10)
  }

  /** The four conditions under which init_config keeps a record read from NVRAM. */
  predicate Trusted(c: Config) {
    && c.isValid != 0 && c.isValid != 0xFF
    && c.stopbits <= STOPBITS_20
    && c.uartDev < UART_NUMOF
  }

  /**
   * The configuration init_config leaves behind, given what the NVRAM read
   * produced (None when the read fails).
   */
  function LoadedConfig(stored: Option<Config>): (c: Config)
    ensures stored.Some? && Trusted(stored.value) ==> c == stored.value
    ensures stored.None? || !Trusted(stored.value) ==> c == Defaults()
    ensures Trusted(c) || c == Defaults()
  {
    match stored
    case None => Defaults()
    case Some(r) =>
      if r.isValid == 0xFF || r.isValid == 0 then Defaults()
      else if r.stopbits > STOPBITS_20 then Defaults()
      else if r.uartDev >= UART_NUMOF then Defaults()
      else r
  }

  /** What save_config writes: the record, marked valid. */
  function Persisted(c: Config): (r: Config)
    ensures r.isValid == 1 && r.(isValid := c.isValid) == c
  {
    c.(isValid := 1)
  }

  /**
   * A saved record is read back unchanged, provided its stop-bits and device
   * fields pass the load-time check.
   */
  lemma SaveThenLoad(c: Config)
    requires c.stopbits <= STOPBITS_20 && c.uartDev < UART_NUMOF
    ensures LoadedConfig(Some(Persisted(c))) == Persisted(c)
    ensures LoadedConfig(Some(Persisted(c))).(isValid := c.isValid) == c
  {
  }

  predicate LegalParity(p: uint8) {
    p == PARITY_NOPARITY || p == PARITY_ODD || p == PARITY_EVEN
  }

  predicate LegalStopbits(s: uint8) {
    s == STOPBITS_10 || s == STOPBITS_20
  }

  predicate LegalDatabits(d: uint8) {
    d == DATABITS_8 || d == DATABITS_9
  }

  /**
   * The configuration after the three switches of umdk_uart_init: parity
   * first, then stop bits, then data bits (which reads the parity already
   * coerced).
   */
  function Normalise(c: Config): (r: Config)
    ensures LegalParity(r.parity) && LegalStopbits(r.stopbits) && LegalDatabits(r.databits)
    ensures r.parity == (if LegalParity(c.parity) then c.parity else PARITY_NOPARITY)
    ensures r.stopbits == (if LegalStopbits(c.stopbits) then c.stopbits else STOPBITS_10)
    ensures LegalDatabits(c.databits) ==> r.databits == c.databits
    ensures !LegalDatabits(c.databits) ==>
              r.databits == (if r.parity == PARITY_NOPARITY then DATABITS_8 else DATABITS_9)
    ensures r.isValid == c.isValid && r.uartDev == c.uartDev && r.baudrate == c.baudrate
  {
    var parity :=
      if c.parity == PARITY_NOPARITY || c.parity == PARITY_ODD || c.parity == PARITY_EVEN then c.parity
      else PARITY_NOPARITY;
    var stopbits :=
      if c.stopbits == STOPBITS_10 || c.stopbits == STOPBITS_20 then c.stopbits
      else STOPBITS_10;
    var databits :=
      if c.databits == DATABITS_8 || c.databits == DATABITS_9 then c.databits
      else if parity == PARITY_NOPARITY then DATABITS_8
      else DATABITS_9;
    c.(parity := parity, stopbits := stopbits, databits := databits)
  }

  /** A record whose fields are all legal passes normalisation unchanged, and normalising twice is normalising once. */
  lemma NormaliseFixesLegal(c: Config)
    ensures LegalParity(c.parity) && LegalStopbits(c.stopbits) && LegalDatabits(c.databits) ==> Normalise(c) == c
    ensures Normalise(Normalise(c)) == Normalise(c)
  {
  }

  /** The configuration in effect once umdk_uart_init has loaded and normalised the record. */
  function BootConfig(stored: Option<Config>): (c: Config) {
    Normalise(LoadedConfig(stored))
  }

  /**
   * Whatever NVRAM holds, the module starts with legal line parameters on an
   * existing UART, and a record that is absent or untrusted gives exactly the
   * defaults.
   */
  lemma BootIsSafe(stored: Option<Config>)
    ensures var c := BootConfig(stored);
      LegalParity(c.parity) && LegalStopbits(c.stopbits) && LegalDatabits(c.databits) && c.uartDev < UART_NUMOF
    ensures stored.None? || !Trusted(stored.value) ==> BootConfig(stored) == Defaults()
  {
  }

  /** uart_params_t filled from the configuration (umdk_uart_init and the shell `baud` command). */
  function ParamsOf(c: Config): (p: UartParams)
    ensures p.baudrate == c.baudrate && p.parity == c.parity && p.databits == c.databits
    ensures p.stopbits == Some(c.stopbits)
  {
    UartParams(c.baudrate, c.parity, Some(c.stopbits), c.databits)
  }
}
