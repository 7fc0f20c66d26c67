/**
  The two canonical scripts written out byte by byte, and the proofs that
  the classifier accepts exactly them: every accepted script is a
  template, every well-formed template is accepted with its own keys, and
  every deviation (a count out of range, a threshold above the number of
  keys, a second count that differs from it, a short key, trailing bytes)
  is rejected.
 */
module ScriptTemplates {
  import opened Wrappers
  import opened Bytes
  import opened Opcode
  import opened VmContext
  import opened ContractChecks

  type SmallCount = k: int | 1 <= k <= 16 witness 1

  /** The three ways a count can be written: PUSHk, PUSHBYTES1 b, PUSHBYTES2 lo hi. */
  datatype CountPush = SmallInt(k: SmallCount) | Bytes1(b: byte) | Bytes2(v: uint16)

  function CountValue(c: CountPush): nat
  {
    match c
    case SmallInt(k) => k
    case Bytes1(b) => b as nat
    case Bytes2(v) => v as nat
  }

  function CountOpcode(c: CountPush): byte
  {
    match c
    case SmallInt(k) => (PUSH1 as int + k - 1) as byte
    case Bytes1(_) => PUSHBYTES1
    case Bytes2(_) => PUSHBYTES2
  }

  function CountOperand(c: CountPush): seq<byte>
  {
    match c
    case SmallInt(_) => []
    case Bytes1(b) => [b]
    case Bytes2(v) => LE16(v)
  }

  function EncodeCount(c: CountPush): seq<byte>
  {
    [CountOpcode(c)] + CountOperand(c)
  }

  /** Keys short enough to be pushed with PUSHDATA1. */
  predicate KeysEncodable(keys: seq<seq<byte>>)
  {
    forall i :: 0 <= i < |keys| ==> |keys[i]| < 0x100
  }

  /** Keys long enough for the classifier to take them as public keys. */
  predicate KeysLongEnough(keys: seq<seq<byte>>)
  {
    forall i :: 0 <= i < |keys| ==> |keys[i]| >= 33
  }

  function EncodeKey(key: seq<byte>): seq<byte>
    requires |key| < 0x100
  {
    [PUSHDATA1, |key| as byte] + key
  }

  function EncodeKeys(keys: seq<seq<byte>>): seq<byte>
    requires KeysEncodable(keys)
  {
    if keys == [] then [] else EncodeKey(keys[0]) + EncodeKeys(keys[1..])
  }

  /** What follows the second count: PUSHNULL, SYSCALL with the multisig interop id, RET. */
  function MultisigTail(): seq<byte>
  {
    [PUSHNULL, SYSCALL] + LE32(MultisigInteropId) + [RET]
  }

  /** `push(m); PUSHDATA1 key_1 .. key_n; push(n); PUSHNULL; SYSCALL CheckMultiSig; RET`. */
  function MultiSigScript(m: CountPush, keys: seq<seq<byte>>, n: CountPush): seq<byte>
    requires KeysEncodable(keys)
  {
    EncodeCount(m) + EncodeKeys(keys) + EncodeCount(n) + MultisigTail()
  }

  /** The conditions under which the classifier accepts a multisig template. */
  predicate ValidMultiSig(m: CountPush, keys: seq<seq<byte>>, n: CountPush)
  {
    && 1 <= CountValue(m) <= MaxArraySize
    && 1 <= CountValue(n) <= MaxArraySize
    && CountValue(m) <= |keys|
    && CountValue(n) == |keys|
    && KeysLongEnough(keys)
  }

  /** `PUSHDATA1 key; PUSHNULL; SYSCALL ECDsaVerify`. */
  function SignatureScript(key: seq<byte>): seq<byte>
    requires |key| == 33
  {
    [PUSHDATA1, 33] + key + [PUSHNULL, SYSCALL] + LE32(VerifyInteropId)
  }

  // ---------------------------------------------------------------------
  // Pieces of a script at a given offset

  /** `piece` occurs in `s` at offset `ip`. */
  predicate At(s: seq<byte>, ip: nat, piece: seq<byte>)
  {
    ip + |piece| <= |s| && s[ip .. ip + |piece|] == piece
  }

  lemma AtSplit(s: seq<byte>, ip: nat, a: seq<byte>, b: seq<byte>)
    requires At(s, ip, a + b)
    ensures At(s, ip, a) && At(s, ip + |a|, b)
  {
    assert s[ip .. ip + |a|] == (a + b)[..|a|];
    assert s[ip + |a| .. ip + |a| + |b|] == (a + b)[|a|..];
  }

  lemma AtJoin(s: seq<byte>, ip: nat, a: seq<byte>, b: seq<byte>)
    requires At(s, ip, a) && At(s, ip + |a|, b)
    ensures At(s, ip, a + b)
  {
    assert s[ip .. ip + |a| + |b|] == s[ip .. ip + |a|] + s[ip + |a| .. ip + |a| + |b|];
  }

  lemma EncodeKeysCons(keys: seq<seq<byte>>)
    requires KeysEncodable(keys) && keys != []
    ensures KeysEncodable(keys[1..])
    ensures EncodeKeys(keys) == EncodeKey(keys[0]) + EncodeKeys(keys[1..])
  {
    assert forall i :: 0 <= i < |keys[1..]| ==> keys[1..][i] == keys[i + 1];
  }

  // ---------------------------------------------------------------------
  // Counts

  /** Every count encoding decodes to its value when that value is in range, and is rejected otherwise. */
  lemma CountRoundTrip(c: CountPush)
    ensures CountFromInstr(CountOpcode(c), CountOperand(c))
         == if 1 <= CountValue(c) <= MaxArraySize then Some(CountValue(c)) else None
  {
  }

  /** Every accepted count instruction is one of the three count encodings. */
  lemma CountSound(instr: byte, param: seq<byte>) returns (c: CountPush)
    requires OperandFits(instr, param) && instr != PUSHDATA1
    requires CountFromInstr(instr, param).Some?
    ensures CountOpcode(c) == instr && CountOperand(c) == param
    ensures CountValue(c) == CountFromInstr(instr, param).value
  {
    if PUSH1 <= instr <= PUSH16 {
      c := SmallInt(instr as int - PUSH1 as int + 1);
    } else if instr == PUSHBYTES1 {
      c := Bytes1(param[0]);
    } else {
      LE16OfUint16LE(param);
      c := Bytes2(Uint16LE(param));
    }
  }

  lemma DecodeCountAt(s: seq<byte>, ip: nat, c: CountPush)
    requires At(s, ip, EncodeCount(c))
    ensures Decode(s, ip) == Instr(CountOpcode(c), CountOperand(c), ip + |EncodeCount(c)|)
  {
    assert s[ip] == EncodeCount(c)[0];
    assert s[ip + 1 .. ip + |EncodeCount(c)|] == EncodeCount(c)[1..];
  }

  // ---------------------------------------------------------------------
  // Keys

  lemma DecodeKeyAt(s: seq<byte>, ip: nat, key: seq<byte>)
    requires |key| < 0x100 && At(s, ip, EncodeKey(key))
    ensures Decode(s, ip) == Instr(PUSHDATA1, key, ip + |EncodeKey(key)|)
  {
    assert s[ip] == EncodeKey(key)[0] && s[ip + 1] == EncodeKey(key)[1];
    assert s[ip + 2 .. ip + 2 + |key|] == EncodeKey(key)[2..];
  }

  /** `keys` decode, in order, as the PUSHDATA1 instructions from offset `ip` up to offset `end`. */
  ghost predicate KeysDecodeAt(s: seq<byte>, ip: nat, keys: seq<seq<byte>>, end: nat)
    decreases keys
  {
    if keys == [] then ip == end && ip <= |s|
    else
      var d := Decode(s, ip);
      d.Instr? && d.op == PUSHDATA1 && d.param == keys[0] && KeysDecodeAt(s, d.next, keys[1..], end)
  }

  /** The first of a run of encoded keys decodes as that key, and the rest follow it. */
  lemma KeyStep(s: seq<byte>, ip: nat, keys: seq<seq<byte>>)
    requires KeysEncodable(keys) && keys != [] && At(s, ip, EncodeKeys(keys))
    ensures Decode(s, ip) == Instr(PUSHDATA1, keys[0], ip + |EncodeKey(keys[0])|)
    ensures KeysEncodable(keys[1..]) && At(s, ip + |EncodeKey(keys[0])|, EncodeKeys(keys[1..]))
    ensures ip + |EncodeKeys(keys)| == ip + |EncodeKey(keys[0])| + |EncodeKeys(keys[1..])|
  {
    EncodeKeysCons(keys);
    AtSplit(s, ip, EncodeKey(keys[0]), EncodeKeys(keys[1..]));
    DecodeKeyAt(s, ip, keys[0]);
  }

  /** Encoded keys decode as those keys. */
  lemma {:induction false} EncodedKeysDecode(s: seq<byte>, ip: nat, keys: seq<seq<byte>>)
    requires KeysEncodable(keys) && At(s, ip, EncodeKeys(keys))
    ensures KeysDecodeAt(s, ip, keys, ip + |EncodeKeys(keys)|)
    decreases keys
  {
    if keys == [] {
      assert |EncodeKeys(keys)| == 0;
    } else {
      KeyStep(s, ip, keys);
      EncodedKeysDecode(s, ip + |EncodeKey(keys[0])|, keys[1..]);
      KeysDecodeAtCons(s, ip, keys, ip + |EncodeKeys(keys)|);
    }
  }

  lemma KeysDecodeAtCons(s: seq<byte>, ip: nat, keys: seq<seq<byte>>, end: nat)
    requires keys != [] && Decode(s, ip).Instr? && Decode(s, ip).op == PUSHDATA1 && Decode(s, ip).param == keys[0]
    requires KeysDecodeAt(s, Decode(s, ip).next, keys[1..], end)
    ensures KeysDecodeAt(s, ip, keys, end)
  {
  }

  /** Keys that decode as PUSHDATA1 instructions are written there as their encoding. */
  lemma {:induction false} DecodedKeysEncoded(s: seq<byte>, ip: nat, keys: seq<seq<byte>>, end: nat)
    requires KeysDecodeAt(s, ip, keys, end)
    ensures KeysEncodable(keys) && At(s, ip, EncodeKeys(keys)) && end == ip + |EncodeKeys(keys)|
    decreases keys
  {
    if keys == [] {
      assert s[ip .. ip] == [];
    } else {
      var d := Decode(s, ip);
      DecodedKeysEncoded(s, d.next, keys[1..], end);
      assert s[ip .. d.next] == [s[ip], s[ip + 1]] + s[ip + 2 .. d.next];
      assert At(s, ip, EncodeKey(keys[0]));
      AtJoin(s, ip, EncodeKey(keys[0]), EncodeKeys(keys[1..]));
      assert KeysEncodable(keys) by {
        assert forall i :: 1 <= i < |keys| ==> keys[i] == keys[1..][i - 1];
      }
      EncodeKeysCons(keys);
    }
  }

  /** The key loop over decoded keys stops at the first other instruction with all the keys. */
  lemma {:induction false} ScanDecodedKeys(s: seq<byte>, ip: nat, acc: seq<seq<byte>>, keys: seq<seq<byte>>, end: nat)
    requires KeysDecodeAt(s, ip, keys, end) && KeysLongEnough(keys) && |acc| + |keys| <= MaxArraySize
    requires Decode(s, end).Instr? && Decode(s, end).op != PUSHDATA1
    ensures ScanKeys(s, ip, acc) == ScanStop(acc + keys, Decode(s, end).op, Decode(s, end).param, Decode(s, end).next)
    decreases keys
  {
    if keys == [] {
      assert acc + keys == acc;
    } else {
      var d := Decode(s, ip);
      ScanDecodedKeys(s, d.next, acc + [keys[0]], keys[1..], end);
      assert acc + [keys[0]] + keys[1..] == acc + keys;
    }
  }

  /** The key loop rejects a short key, or more keys than MaxArraySize. */
  lemma {:induction false} ScanDecodedKeysFault(s: seq<byte>, ip: nat, acc: seq<seq<byte>>, keys: seq<seq<byte>>, end: nat)
    requires KeysDecodeAt(s, ip, keys, end) && |acc| <= MaxArraySize
    requires !(KeysLongEnough(keys) && |acc| + |keys| <= MaxArraySize)
    ensures ScanKeys(s, ip, acc) == ScanFault
    decreases keys
  {
    var d := Decode(s, ip);
    if |keys[0]| >= 33 && |acc| + 1 <= MaxArraySize {
      assert !(KeysLongEnough(keys[1..]) && |acc + [keys[0]]| + |keys[1..]| <= MaxArraySize);
      ScanDecodedKeysFault(s, d.next, acc + [keys[0]], keys[1..], end);
    }
  }

  /** The keys the loop accepted are decoded, in order, as PUSHDATA1 instructions before the stopping instruction. */
  lemma {:induction false} ScanSound(s: seq<byte>, ip: nat, acc: seq<seq<byte>>) returns (keys: seq<seq<byte>>, end: nat)
    requires |acc| <= MaxArraySize && ScanKeys(s, ip, acc).ScanStop?
    ensures ScanKeys(s, ip, acc).keys == acc + keys
    ensures KeysDecodeAt(s, ip, keys, end) && KeysLongEnough(keys)
    ensures var r := ScanKeys(s, ip, acc); Decode(s, end) == Instr(r.instr, r.param, r.next)
    decreases |s| - ip
  {
    var d := Decode(s, ip);
    if d.op != PUSHDATA1 {
      keys, end := [], ip;
      assert acc + keys == acc;
    } else {
      var rest;
      rest, end := ScanSound(s, d.next, acc + [d.param]);
      keys := [d.param] + rest;
      assert keys[0] == d.param && keys[1..] == rest;
      assert acc + [d.param] + rest == acc + keys;
    }
  }

  // ---------------------------------------------------------------------
  // The tail

  /** After the second count, the tail is accepted exactly when it is the last thing in the script. */
  lemma TailAt(s: seq<byte>, ip: nat)
    requires At(s, ip, MultisigTail())
    ensures MultisigTailAt(s, ip) <==> ip + |MultisigTail()| == |s|
  {
    var t := MultisigTail();
    assert s[ip] == t[0] && s[ip + 1] == t[1] && s[ip + 6] == t[6];
    assert s[ip + 2 .. ip + 6] == s[ip .. ip + 7][2..6] == t[2..6];
  }

  lemma TailSound(s: seq<byte>, ip: nat)
    requires MultisigTailAt(s, ip)
    ensures At(s, ip, MultisigTail()) && ip + |MultisigTail()| == |s|
  {
    var d2 := Decode(s, ip + 1);
    LE32OfUint32LE(d2.param);
    assert s[ip .. ip + 7] == [s[ip], s[ip + 1]] + s[ip + 2 .. ip + 6] + [s[ip + 6]];
  }

  // ---------------------------------------------------------------------
  // The whole multisig script

  /**
    The classifier on a script whose instructions decode as a count `m`,
    the keys, a count `n` and then whatever starts at offset `tailAt`.
   */
  lemma ParseDecoded(s: seq<byte>, m: CountPush, keys: seq<seq<byte>>, n: CountPush, ip1: nat, ip2: nat, tailAt: nat)
    requires Decode(s, 0) == Instr(CountOpcode(m), CountOperand(m), ip1)
    requires KeysDecodeAt(s, ip1, keys, ip2)
    requires Decode(s, ip2) == Instr(CountOpcode(n), CountOperand(n), tailAt)
    ensures MultiSigKeys(s) == if ValidMultiSig(m, keys, n) && MultisigTailAt(s, tailAt) then Some(keys) else None
  {
    CountRoundTrip(m);
    if !(1 <= CountValue(m) <= MaxArraySize) {
      ParseRejected(s, ip1);
      assert !ValidMultiSig(m, keys, n);
    } else if KeysLongEnough(keys) && |keys| <= MaxArraySize {
      ScanDecodedKeys(s, ip1, [], keys, ip2);
      assert [] + keys == keys;
      ParseScanned(s, CountValue(m), keys, n, ip1, tailAt);
    } else {
      ScanDecodedKeysFault(s, ip1, [], keys, ip2);
      ParseRejected(s, ip1);
      assert !ValidMultiSig(m, keys, n);
    }
  }

  /** The classifier rejects a script whose threshold is out of range, or whose key loop fails. */
  lemma ParseRejected(s: seq<byte>, ip1: nat)
    requires Decode(s, 0).Instr? && Decode(s, 0).next == ip1
    requires CountFromInstr(Decode(s, 0).op, Decode(s, 0).param).None? || ScanKeys(s, ip1, []).ScanFault?
    ensures MultiSigKeys(s).None?
  {
  }

  /** The classifier after a key loop that read `keys` and stopped at the count `n`. */
  lemma ParseScanned(s: seq<byte>, nsigs: nat, keys: seq<seq<byte>>, n: CountPush, ip1: nat, tailAt: nat)
    requires Decode(s, 0).Instr? && CountFromInstr(Decode(s, 0).op, Decode(s, 0).param) == Some(nsigs)
    requires Decode(s, 0).next == ip1
    requires ScanKeys(s, ip1, []) == ScanStop(keys, CountOpcode(n), CountOperand(n), tailAt)
    ensures MultiSigKeys(s)
         == if nsigs <= |keys| && 1 <= CountValue(n) <= MaxArraySize && CountValue(n) == |keys| && MultisigTailAt(s, tailAt)
            then Some(keys) else None
  {
    CountRoundTrip(n);
  }

  /**
    The classifier on a multisig template followed by `trailing`: it
    returns the template's keys exactly when the template is valid and
    nothing follows it, and rejects the script in every other case.
   */
  lemma ParseTemplate(m: CountPush, keys: seq<seq<byte>>, n: CountPush, trailing: seq<byte>)
    requires KeysEncodable(keys)
    ensures MultiSigKeys(MultiSigScript(m, keys, n) + trailing)
         == if ValidMultiSig(m, keys, n) && trailing == [] then Some(keys) else None
  {
    var s := MultiSigScript(m, keys, n) + trailing;
    var ip1 := |EncodeCount(m)|;
    var ip2 := ip1 + |EncodeKeys(keys)|;
    var tailAt := ip2 + |EncodeCount(n)|;
    TemplatePieces(m, keys, n, trailing);
    LaidOutDecodes(s, m, keys, n, ip1, ip2, tailAt);
    TailAt(s, tailAt);
    ParseDecoded(s, m, keys, n, ip1, ip2, tailAt);
  }

  /** ParseTemplate with nothing after the template. */
  lemma ParseTemplateExact(m: CountPush, keys: seq<seq<byte>>, n: CountPush)
    requires KeysEncodable(keys)
    ensures MultiSigKeys(MultiSigScript(m, keys, n)) == if ValidMultiSig(m, keys, n) then Some(keys) else None
  {
    ParseTemplate(m, keys, n, []);
    assert MultiSigScript(m, keys, n) + [] == MultiSigScript(m, keys, n);
  }

  /** How a script laid out as a count, the keys and a count decodes. */
  lemma LaidOutDecodes(s: seq<byte>, m: CountPush, keys: seq<seq<byte>>, n: CountPush, ip1: nat, ip2: nat, tailAt: nat)
    requires KeysEncodable(keys)
    requires At(s, 0, EncodeCount(m)) && ip1 == |EncodeCount(m)|
    requires At(s, ip1, EncodeKeys(keys)) && ip2 == ip1 + |EncodeKeys(keys)|
    requires At(s, ip2, EncodeCount(n)) && tailAt == ip2 + |EncodeCount(n)|
    ensures Decode(s, 0) == Instr(CountOpcode(m), CountOperand(m), ip1)
    ensures KeysDecodeAt(s, ip1, keys, ip2)
    ensures Decode(s, ip2) == Instr(CountOpcode(n), CountOperand(n), tailAt)
  {
    DecodeCountAt(s, 0, m);
    EncodedKeysDecode(s, ip1, keys);
    DecodeCountAt(s, ip2, n);
  }

  /** Where the pieces of a template followed by `trailing` lie. */
  lemma TemplatePieces(m: CountPush, keys: seq<seq<byte>>, n: CountPush, trailing: seq<byte>)
    requires KeysEncodable(keys)
    ensures var s, em, ek, en := MultiSigScript(m, keys, n) + trailing, EncodeCount(m), EncodeKeys(keys), EncodeCount(n);
      && At(s, 0, em) && At(s, |em|, ek) && At(s, |em| + |ek|, en) && At(s, |em| + |ek| + |en|, MultisigTail())
      && |s| == |em| + |ek| + |en| + |MultisigTail()| + |trailing|
  {
    AtFive(EncodeCount(m), EncodeKeys(keys), EncodeCount(n), MultisigTail(), trailing);
  }

  /** The offsets of five sequences written end to end. */
  lemma AtFive(a: seq<byte>, b: seq<byte>, c: seq<byte>, d: seq<byte>, e: seq<byte>)
    ensures var s := a + b + c + d + e;
      && At(s, 0, a) && At(s, |a|, b) && At(s, |a| + |b|, c) && At(s, |a| + |b| + |c|, d)
  {
    var s := a + b + c + d + e;
    assert s[0 .. |a|] == a;
    assert s[|a| .. |a| + |b|] == b;
    assert s[|a| + |b| .. |a| + |b| + |c|] == c;
    assert s[|a| + |b| + |c| .. |a| + |b| + |c| + |d|] == d;
  }

  /** Four sequences found end to end in `s`, covering it, make up `s`. */
  lemma JoinFour(s: seq<byte>, a: seq<byte>, b: seq<byte>, c: seq<byte>, d: seq<byte>)
    requires At(s, 0, a) && At(s, |a|, b) && At(s, |a| + |b|, c) && At(s, |a| + |b| + |c|, d)
    requires |a| + |b| + |c| + |d| == |s|
    ensures s == a + b + c + d
  {
    var i, j, k := |a|, |a| + |b|, |a| + |b| + |c|;
    assert s == s[0 .. i] + s[i .. j] + s[j .. k] + s[k .. |s|];
  }

  /** A count instruction, once decoded, is written at its offset as its encoding. */
  lemma DecodedCountAt(s: seq<byte>, ip: nat, c: CountPush, next: nat)
    requires Decode(s, ip) == Instr(CountOpcode(c), CountOperand(c), next)
    ensures At(s, ip, EncodeCount(c)) && next == ip + |EncodeCount(c)|
  {
    assert s[ip .. next] == [s[ip]] + s[ip + 1 .. next];
  }

  /** An accepted script decodes as a count, the accepted keys, a count and the tail. */
  lemma ParseSoundDecoded(s: seq<byte>) returns (m: CountPush, n: CountPush, ip1: nat, ip2: nat, tailAt: nat)
    requires MultiSigKeys(s).Some?
    ensures Decode(s, 0) == Instr(CountOpcode(m), CountOperand(m), ip1)
    ensures KeysDecodeAt(s, ip1, MultiSigKeys(s).value, ip2)
    ensures Decode(s, ip2) == Instr(CountOpcode(n), CountOperand(n), tailAt)
    ensures ValidMultiSig(m, MultiSigKeys(s).value, n) && MultisigTailAt(s, tailAt)
  {
    var d := Decode(s, 0);
    m := CountSound(d.op, d.param);
    ip1 := d.next;
    var scan := ScanKeys(s, ip1, []);
    var keys;
    keys, ip2 := ScanSound(s, ip1, []);
    assert scan.keys == keys;
    n := CountSound(scan.instr, scan.param);
    tailAt := scan.next;
  }

  /** Every script the classifier accepts is a valid multisig template with the returned keys. */
  lemma ParseSound(s: seq<byte>) returns (m: CountPush, n: CountPush)
    requires MultiSigKeys(s).Some?
    ensures KeysEncodable(MultiSigKeys(s).value)
    ensures ValidMultiSig(m, MultiSigKeys(s).value, n)
    ensures s == MultiSigScript(m, MultiSigKeys(s).value, n)
  {
    var ip1, ip2, tailAt;
    m, n, ip1, ip2, tailAt := ParseSoundDecoded(s);
    DecodedIsTemplate(s, m, MultiSigKeys(s).value, n, ip1, ip2, tailAt);
  }

  /** A script that decodes as a count, keys, a count and the tail is that template. */
  lemma DecodedIsTemplate(s: seq<byte>, m: CountPush, keys: seq<seq<byte>>, n: CountPush, ip1: nat, ip2: nat, tailAt: nat)
    requires Decode(s, 0) == Instr(CountOpcode(m), CountOperand(m), ip1)
    requires KeysDecodeAt(s, ip1, keys, ip2)
    requires Decode(s, ip2) == Instr(CountOpcode(n), CountOperand(n), tailAt)
    requires MultisigTailAt(s, tailAt)
    ensures KeysEncodable(keys) && s == MultiSigScript(m, keys, n)
  {
    DecodedCountAt(s, 0, m, ip1);
    DecodedKeysEncoded(s, ip1, keys, ip2);
    DecodedCountAt(s, ip2, n, tailAt);
    TailSound(s, tailAt);
    PiecesMakeTemplate(s, m, keys, n);
  }

  /** A script made of the four pieces, end to end, is the template. */
  lemma PiecesMakeTemplate(s: seq<byte>, m: CountPush, keys: seq<seq<byte>>, n: CountPush)
    requires KeysEncodable(keys)
    requires At(s, 0, EncodeCount(m))
    requires At(s, |EncodeCount(m)|, EncodeKeys(keys))
    requires At(s, |EncodeCount(m)| + |EncodeKeys(keys)|, EncodeCount(n))
    requires At(s, |EncodeCount(m)| + |EncodeKeys(keys)| + |EncodeCount(n)|, MultisigTail())
    requires |EncodeCount(m)| + |EncodeKeys(keys)| + |EncodeCount(n)| + |MultisigTail()| == |s|
    ensures s == MultiSigScript(m, keys, n)
  {
    JoinFour(s, EncodeCount(m), EncodeKeys(keys), EncodeCount(n), MultisigTail());
  }

  /** The two directions together: the accepted scripts are exactly the valid templates. */
  lemma MultiSigCharacterization(s: seq<byte>, keys: seq<seq<byte>>)
    ensures MultiSigKeys(s) == Some(keys)
        <==> exists m, n :: KeysEncodable(keys) && ValidMultiSig(m, keys, n) && s == MultiSigScript(m, keys, n)
  {
    if MultiSigKeys(s) == Some(keys) {
      var m, n := ParseSound(s);
    }
    if exists m, n :: KeysEncodable(keys) && ValidMultiSig(m, keys, n) && s == MultiSigScript(m, keys, n) {
      var m, n :| KeysEncodable(keys) && ValidMultiSig(m, keys, n) && s == MultiSigScript(m, keys, n);
      ParseTemplateExact(m, keys, n);
    }
  }

  /** An accepted script declares between 1 and MaxArraySize keys, each at least 33 bytes long. */
  lemma AcceptedKeys(s: seq<byte>)
    requires MultiSigKeys(s).Some?
    ensures 1 <= |MultiSigKeys(s).value| <= MaxArraySize
    ensures forall i :: 0 <= i < |MultiSigKeys(s).value| ==> |MultiSigKeys(s).value[i]| >= 33
  {
    var m, n := ParseSound(s);
  }

  /**
    The counts are compared by value, not by encoding: writing the
    threshold or the key count with PUSHk, PUSHBYTES1 or PUSHBYTES2 makes
    no difference.
   */
  lemma CountEncodingsInterchangeable(m1: CountPush, m2: CountPush, keys: seq<seq<byte>>, n1: CountPush, n2: CountPush)
    requires KeysEncodable(keys) && CountValue(m1) == CountValue(m2) && CountValue(n1) == CountValue(n2)
    ensures MultiSigKeys(MultiSigScript(m1, keys, n1)) == MultiSigKeys(MultiSigScript(m2, keys, n2))
  {
    ParseTemplateExact(m1, keys, n1);
    ParseTemplateExact(m2, keys, n2);
  }

  // ---------------------------------------------------------------------
  // The single-signature script

  /** The single-signature template of any 33-byte key is accepted. */
  lemma SignatureTemplateAccepted(key: seq<byte>)
    requires |key| == 33
    ensures IsSignatureScript(SignatureScript(key))
  {
    var s := SignatureScript(key);
    assert s[37..41] == LE32(VerifyInteropId);
  }

  /** Every accepted script is the template of the key it carries. */
  lemma SignatureSound(s: seq<byte>)
    requires IsSignatureScript(s)
    ensures s == SignatureScript(s[2..35])
  {
    LE32OfUint32LE(s[37..41]);
    assert s == [s[0], s[1]] + s[2..35] + [s[35], s[36]] + s[37..41];
  }

  /** Changing any byte outside the key makes the script rejected. */
  lemma SignatureStructureMutated(s: seq<byte>, i: nat, b: byte)
    requires IsSignatureScript(s) && i < 41 && !(2 <= i < 35) && b != s[i]
    ensures !IsSignatureScript(s[i := b])
  {
    var t := s[i := b];
    if 37 <= i {
      assert t[37..41][i - 37] != s[37..41][i - 37];
      LE32OfUint32LE(s[37..41]);
      LE32OfUint32LE(t[37..41]);
    }
  }

  /** Changing a byte inside the key leaves the script accepted: only the key's length is checked. */
  lemma SignatureKeyMutated(s: seq<byte>, i: nat, b: byte)
    requires IsSignatureScript(s) && 2 <= i < 35
    ensures IsSignatureScript(s[i := b])
  {
    assert s[i := b][37..41] == s[37..41];
  }

  /** No script is both a single-signature and a multisig script. */
  lemma SignatureIsNotMultiSig(s: seq<byte>)
    requires IsSignatureScript(s)
    ensures MultiSigKeys(s).None?
  {
  }
}
