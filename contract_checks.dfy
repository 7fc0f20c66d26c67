/**
  Recognition of the two canonical verification scripts: the
  single-signature script and the m-of-n multi-signature script. Every
  byte string is a legal input; a script that is not exactly one of the
  templates is rejected by an ordinary `false` result.
 */
module ContractChecks {
  import opened Wrappers
  import opened Bytes
  import opened Opcode
  import opened VmContext

  /** The largest number of items (signatures or keys) a count may declare. */
  const MaxArraySize: nat := 1024

  /**
    Interop ids of the `Neo.Crypto.ECDsaVerify` and
    `Neo.Crypto.ECDsaCheckMultiSig` system calls. The real ids are derived
    from a hash of these names, which is not part of this model; the values
    below stand in for them and no property relies on them.
   */
  const VerifyInteropId: uint32 := 0x0A90_6AD4
  const MultisigInteropId: uint32 := 0x3073_B3BB

  /** A count opcode: one of PUSH1..PUSH16, PUSHBYTES1 or PUSHBYTES2. */
  predicate IsCountOpcode(instr: byte)
  {
    PUSH1 <= instr <= PUSH16 || instr == PUSHBYTES1 || instr == PUSHBYTES2
  }

  /**
    The number of things (signatures or keys) an instruction declares:
    PUSHk declares k, PUSHBYTES1 its operand byte, PUSHBYTES2 its
    little-endian 16-bit operand. Any other opcode, and any count outside
    1..MaxArraySize, is rejected (`None`, the source's `(0, false)`).
   */
  function CountFromInstr(instr: byte, param: seq<byte>): (r: Option<nat>)
    requires instr == PUSHBYTES1 ==> |param| >= 1
    requires instr == PUSHBYTES2 ==> |param| >= 2
    ensures r.Some? ==> IsCountOpcode(instr) && 1 <= r.value <= MaxArraySize
    ensures PUSH1 <= instr <= PUSH16 ==> r == Some(instr as int - PUSH1 as int + 1)
    ensures !IsCountOpcode(instr) ==> r.None?
  {
    var n: int :=
      if PUSH1 <= instr <= PUSH16 then instr as int - PUSH1 as int + 1
      else if instr == PUSHBYTES1 then param[0] as int
      else if instr == PUSHBYTES2 then Uint16LE(param) as int
      else 0;
    if !IsCountOpcode(instr) || n < 1 || n > MaxArraySize then None else Some(n)
  }

  /** What the key loop ends with: an error, or the keys read and the first instruction that is not PUSHDATA1. */
  datatype KeyScan = ScanFault | ScanStop(keys: seq<seq<byte>>, instr: byte, param: seq<byte>, next: nat)

  /**
    The key loop of the multisig parser, from offset `ip` with the keys
    `keys` already read: PUSHDATA1 instructions are taken as keys (each at
    least 33 bytes, at most MaxArraySize of them) until the first other
    instruction.
   */
  function ScanKeys(script: seq<byte>, ip: nat, keys: seq<seq<byte>>): (r: KeyScan)
    requires |keys| <= MaxArraySize
    ensures r.ScanStop? ==> ip < r.next <= |script| && r.instr != PUSHDATA1 && OperandFits(r.instr, r.param)
    ensures r.ScanStop? ==> |r.keys| <= MaxArraySize
    decreases |script| - ip
  {
    var d := Decode(script, ip);
    if d.Fault? then ScanFault
    else if d.op != PUSHDATA1 then ScanStop(keys, d.op, d.param, d.next)
    else if |d.param| < 33 then ScanFault
    else if |keys| + 1 > MaxArraySize then ScanFault
    else
      ScanKeys(script, d.next, keys + [d.param])
  }

  /**
    The keys of a multisig script, or `None` when the script is not one:
    a count m, the keys, a count equal to the number of keys (which must be
    at least m), then PUSHNULL, SYSCALL with the multisig interop id and
    RET as the script's last instruction.
   */
  function MultiSigKeys(script: seq<byte>): Option<seq<seq<byte>>>
  {
    var d := Decode(script, 0);
    if d.Fault? then None
    else
      var nsigs := CountFromInstr(d.op, d.param);
      if nsigs.None? then None
      else
        var scan := ScanKeys(script, d.next, []);
        if scan.ScanFault? || !CountsAgree(nsigs.value, scan) || !MultisigTailAt(script, scan.next) then None
        else Some(scan.keys)
  }

  /** The threshold does not exceed the number of keys, and the second count equals it. */
  predicate CountsAgree(nsigs: nat, scan: KeyScan)
    requires scan.ScanStop? && OperandFits(scan.instr, scan.param)
  {
    |scan.keys| >= nsigs && CountFromInstr(scan.instr, scan.param) == Some(|scan.keys|)
  }

  /** PUSHNULL, SYSCALL with the multisig interop id, and RET ending the script, from offset `ip`. */
  predicate MultisigTailAt(script: seq<byte>, ip: nat)
  {
    var d1 := Decode(script, ip);
    d1.Instr? && d1.op == PUSHNULL &&
    var d2 := Decode(script, d1.next);
    d2.Instr? && d2.op == SYSCALL && Uint32LE(d2.param) == MultisigInteropId &&
    var d3 := Decode(script, d2.next);
    d3.Instr? && d3.op == RET && d3.next == |script|
  }

  /**
    The single-signature script: exactly 41 bytes, PUSHDATA1 with a 33-byte
    key, PUSHNULL, and SYSCALL with the signature-check interop id.
   */
  predicate IsSignatureScript(script: seq<byte>)
  {
    && |script| == 41
    && script[0] == PUSHDATA1 && script[1] == 33
    && script[35] == PUSHNULL
    && script[36] == SYSCALL && Uint32LE(script[37..41]) == VerifyInteropId
  }

  /**
    Decodes a multisig script and returns its keys. Every script is a legal
    input; a script that does not follow the template gives `([], false)`.
   */
  method ParseMultiSigContract(script: seq<byte>) returns (pubs: seq<seq<byte>>, ok: bool)
    ensures ok <==> MultiSigKeys(script).Some?
    ensures pubs == if ok then MultiSigKeys(script).value else []
  {
    var ctx := new Context(script);
    var instr, param, err := ctx.Next();
    if err {
      return [], false;
    }
    var nsigs := CountFromInstr(instr, param);
    if nsigs.None? {
      return [], false;
    }
    ghost var keysStart := ctx.ip;
    ghost var before := ctx.ip;
    pubs := [];
    var nkeys := 0;
    while true
      invariant ctx.prog == script && ctx.ip <= |script|
      invariant nkeys == |pubs| <= MaxArraySize
      invariant ScanKeys(script, ctx.ip, pubs) == ScanKeys(script, keysStart, [])
      decreases |script| - ctx.ip
    {
      before := ctx.ip;
      instr, param, err := ctx.Next();
      if err {
        return [], false;
      }
      if instr != PUSHDATA1 {
        break;
      }
      if |param| < 33 {
        return [], false;
      }
      pubs := pubs + [param];
      nkeys := nkeys + 1;
      if nkeys > MaxArraySize {
        return [], false;
      }
    }
    assert ScanKeys(script, before, pubs) == ScanStop(pubs, instr, param, ctx.ip);
    if nkeys < nsigs.value {
      return [], false;
    }
    var nkeys2 := CountFromInstr(instr, param);
    if nkeys2.None? || nkeys2.value != nkeys {
      return [], false;
    }
    var tail := ReadMultisigTail(ctx);
    if !tail {
      return [], false;
    }
    return pubs, true;
  }

  /** The last three steps of ParseMultiSigContract: PUSHNULL, the multisig SYSCALL, and RET ending the script. */
  method ReadMultisigTail(ctx: Context) returns (ok: bool)
    modifies ctx
    ensures ok <==> MultisigTailAt(ctx.prog, old(ctx.ip))
    ensures ok ==> ctx.ip == |ctx.prog|
  {
    var instr, param, err := ctx.Next();
    if err || instr != PUSHNULL {
      return false;
    }
    instr, param, err := ctx.Next();
    if err || instr != SYSCALL || Uint32LE(param) != MultisigInteropId {
      return false;
    }
    instr, param, err := ctx.Next();
    if err || instr != RET || ctx.ip != |ctx.prog| {
      return false;
    }
    return true;
  }

  /** Whether the script is a multisig script: the `ok` of ParseMultiSigContract. */
  method IsMultiSigContract(script: seq<byte>) returns (b: bool)
    ensures b <==> MultiSigKeys(script).Some?
  {
    var pubs, ok := ParseMultiSigContract(script);
    b := ok;
  }

  /** Steps the decoder through a single-signature script. */
  method IsSignatureContract(script: seq<byte>) returns (b: bool)
    ensures b <==> IsSignatureScript(script)
  {
    if |script| != 41 {
      return false;
    }
    var ctx := new Context(script);
    var instr, param, err := ctx.Next();
    if err || instr != PUSHDATA1 || |param| != 33 {
      return false;
    }
    instr, param, err := ctx.Next();
    if err || instr != PUSHNULL {
      return false;
    }
    instr, param, err := ctx.Next();
    if err || instr != SYSCALL || Uint32LE(param) != VerifyInteropId {
      return false;
    }
    return true;
  }

  /** Whether the script is a single-signature or a multisig script. */
  method IsStandardContract(script: seq<byte>) returns (b: bool)
    ensures b <==> IsSignatureScript(script) || MultiSigKeys(script).Some?
  {
    b := IsSignatureContract(script);
    if !b {
      b := IsMultiSigContract(script);
    }
  }
}
