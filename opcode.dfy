/**
  The opcodes the script classifier recognises. The byte values are those
  of this model's instruction set (the VM's own numbering is not part of
  this model). The proofs are about these values: some of them use that
  PUSHDATA1, PUSHBYTES1 and PUSHBYTES2 lie outside the PUSH1..PUSH16 range.
 */
module Opcode {
  import opened Bytes

  const PUSHBYTES1: byte := 0x01
  const PUSHBYTES2: byte := 0x02
  const PUSHNULL: byte := 0x0B
  const PUSHDATA1: byte := 0x0C
  const PUSH1: byte := 0x11
  const PUSH16: byte := 0x20
  const RET: byte := 0x40
  const SYSCALL: byte := 0x41
}
