/**
 * Named constants of the module and of the RIOT UART driver interface.
 * Their numeric values come from headers that are not part of this model
 * (umdk-uart.h, periph/uart.h, board.h); the values below are stand-ins.
 * Besides being distinct within each enumeration, the proofs rely on these
 * properties of them:
 *  - no parity constant equals the character code of 'N', 'E' or 'O', and
 *    DATABITS_9 is not 8 (a raw SET_PARAMETERS record is never legal at the
 *    next start);
 *  - UMDK_UART_DEV < UART_NUMOF (the defaults name an existing UART);
 *  - STOPBITS_20 == 2, two above STOPBITS_10, as in the STM32 stop-bit
 *    field encoding (so the start-up stop-bits switch has a reachable
 *    default branch, and raw stop-bit counts 1 and 2 pass the load check);
 *  - RXBUF_SIZE <= 255, since num_bytes_received is a uint8_t.
 */
module Riot {
  import opened Types

  /** _UMDK_MID_ = UNWDS_UART_MODULE_ID. */
  const MID: uint8 := 6

  /** UMDK_UART_RXBUF_SIZE: capacity of rxbuf; num_bytes_received is a uint8_t. */
  const RXBUF_SIZE: nat := 128

  // umdk_uart_reply_t
  const REPLY_SENT: uint8 := 0
  const REPLY_RECEIVED: uint8 := 1
  const REPLY_BAUDRATE_SET: uint8 := 2
  const UART_ERR: uint8 := 3
  const REPLY_ERR_OVF: uint8 := 4
  const REPLY_ERR_FMT: uint8 := 5

  // umdk_uart_prefix_t
  const SEND_ALL: uint8 := 0
  const SET_PARAMETERS: uint8 := 1

  // uart_parity_t, uart_stopbits_t, uart_databits_t
  const PARITY_NOPARITY: uint8 := 0
  const PARITY_EVEN: uint8 := 1
  const PARITY_ODD: uint8 := 2
  const STOPBITS_10: uint8 := 0
  const STOPBITS_20: uint8 := 2
  const DATABITS_8: uint8 := 0
  const DATABITS_9: uint8 := 1

  /** Number of UARTs on the board, and the board's default UART for this module. */
  const UART_NUMOF: uint8 := 2
  const UMDK_UART_DEV: uint8 := 0

  /** Default baud rate of reset_config. */
  const DEFAULT_BAUDRATE: uint32 := 115200

  /** Longest hex argument accepted by the shell `send` command, in characters. */
  const MAX_HEX_CHARS: nat := 400
}
