/**
  The instruction decoder the classifier steps through a script with: a
  cursor over the script that reads one instruction at a time. A truncated
  operand, or reading past the end of the script, is a decoding error,
  never a fault.
 */
module VmContext {
  import opened Bytes
  import opened Opcode

  /** One decoding step: an error, or the opcode, its operand and the offset just after it. */
  datatype Step = Fault | Instr(op: byte, param: seq<byte>, next: nat)

  /**
    Size of the operand that follows an opcode other than PUSHDATA1:
    PUSHBYTES1 takes 1 byte, PUSHBYTES2 2 bytes, SYSCALL a 4-byte id,
    every other opcode none. (PUSHDATA1 carries a 1-byte length and then that many bytes.)
   */
  function FixedOperandSize(op: byte): nat
  {
    if op == PUSHBYTES1 then 1
    else if op == PUSHBYTES2 then 2
    else if op == SYSCALL then 4
    else 0
  }

  /** The operand has the size its opcode fixes (any size up to 255 for PUSHDATA1). */
  predicate OperandFits(op: byte, param: seq<byte>)
  {
    if op == PUSHDATA1 then |param| < 0x100 else |param| == FixedOperandSize(op)
  }

  /** Decodes the instruction that starts at offset `ip` of `prog`. */
  function Decode(prog: seq<byte>, ip: nat): (d: Step)
    ensures ip >= |prog| ==> d.Fault?
    ensures d.Instr? ==> ip < d.next <= |prog| && d.op == prog[ip] && OperandFits(d.op, d.param)
    ensures d.Instr? ==> |d.param| < d.next - ip && d.param == prog[d.next - |d.param| .. d.next]
    ensures d.Instr? && d.op != PUSHDATA1 ==> d.next == ip + 1 + |d.param|
    ensures d.Instr? && d.op == PUSHDATA1 ==>
      ip + 1 < |prog| && |d.param| == prog[ip + 1] as int && d.next == ip + 2 + |d.param|
  {
    if ip >= |prog| then Fault
    else
      var op := prog[ip];
      if op == PUSHDATA1 then
        if ip + 1 >= |prog| then Fault
        else
          var n := prog[ip + 1] as int;
          if ip + 2 + n > |prog| then Fault else Instr(op, prog[ip + 2 .. ip + 2 + n], ip + 2 + n)
      else
        var n := FixedOperandSize(op);
        if ip + 1 + n > |prog| then Fault else Instr(op, prog[ip + 1 .. ip + 1 + n], ip + 1 + n)
  }

  /** The decoding context of one script: the script and the cursor `ip`. */
  class Context {
    const prog: seq<byte>
    var ip: nat

    constructor (script: seq<byte>)
      ensures prog == script && ip == 0
    {
      prog := script;
      ip := 0;
    }

    /**
      Reads the next instruction. On success the cursor moves just past it;
      on an error (`err`) the cursor stays where it was.
     */
    method Next() returns (instr: byte, param: seq<byte>, err: bool)
      modifies this
      ensures var d := Decode(prog, old(ip));
        && err == d.Fault?
        && (d.Instr? ==> instr == d.op && param == d.param && ip == d.next)
        && (d.Fault? ==> ip == old(ip))
    {
      var d := Decode(prog, ip);
      if d.Fault? {
        return 0, [], true;
      }
      instr, param, err := d.op, d.param, false;
      ip := d.next;
    }
  }
}
