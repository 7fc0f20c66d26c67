# Standard verification scripts and manifest permissions (neo-go)

This project models two parts of the neo-go node in Dafny and proves properties of them.

**The script classifier.** `pkg/vm/contract_checks.go` decides whether a witness verification script is one of the two standard account scripts, byte for byte:

- the single-signature script: `PUSHDATA1 <33-byte key>; PUSHNULL; SYSCALL ECDsaVerify`, exactly 41 bytes;
- the m-of-n multi-signature script: `push(m); PUSHDATA1 key_1 .. key_n; push(n); PUSHNULL; SYSCALL ECDsaCheckMultiSig; RET`, with nothing after `RET`. For this script the classifier also returns the keys.

A count `push(k)` may be written three ways: `PUSHk` (1 to 16), `PUSHBYTES1 b`, or `PUSHBYTES2` followed by a little-endian 16-bit value. A count is accepted only in `1..MaxArraySize`.

**The manifest rules.** A contract manifest carries its groups and its call permissions. `pkg/smartcontract/manifest/manifest_test.go` pins down what they decide:

- whether a permission allows a call: by any contract, by one hash, or by a group key, and for a method set that is either the wildcard or an explicit list;
- whether a manifest may call a method of another contract;
- whether a manifest's group signatures are all valid for a contract hash.

## Structure

| file | module | contents |
|---|---|---|
| `wrappers.dfy` | `Wrappers` | `Option` |
| `bytes.dfy` | `Bytes` | bytes, fixed-width integers, the little-endian readers `Uint16LE`/`Uint32LE` and the writers that invert them |
| `opcode.dfy` | `Opcode` | the opcodes the classifier looks at |
| `context.dfy` | `VmContext` | the instruction decoder `Decode`, and the `Context` class (script plus cursor) whose `Next` steps it |
| `contract_checks.dfy` | `ContractChecks` | the classifier: the count decoder, the specification functions `ScanKeys`, `MultiSigKeys`, `IsSignatureScript`, and the imperative `ParseMultiSigContract`, `IsMultiSigContract`, `IsSignatureContract`, `IsStandardContract`, each proved against them |
| `script_templates.dfy` | `ScriptTemplates` | both templates written out as byte strings, and the proofs that the classifier accepts exactly them |
| `manifest.dfy` | `Manifest` | the manifest data model, the method sets with `Restrict`/`Add`, `IsAllowed`, `CanCall`, `IsValid` |
| `manifest_properties.dfy` | `ManifestProperties` | the properties the manifest tests assert, proved for all inputs, plus the test scenarios as methods |

**How the classifier is specified.** `ParseMultiSigContract` is a method. It steps a `Context` cursor through the script and loops over the keys, as the Go code does. Its `ensures` ties the result to `MultiSigKeys`: `ok` holds iff `MultiSigKeys(script)` is `Some`, and `pubs` is then that value. What this means is proved about `MultiSigKeys` in `ScriptTemplates`:

- every valid template is accepted with its own keys (`ParseTemplate`);
- every accepted script is a valid template (`ParseSound`);
- every deviation from the template is rejected: a count out of range, a threshold above the number of keys, a second count that differs from it, a key shorter than 33 bytes, more than `MaxArraySize` keys, a wrong tail, or any trailing bytes.

## Model

| member | source | states |
|---|---|---|
| ContractChecks.CountFromInstr | pkg/vm/contract_checks.go:15-35 | an accepted count comes from a count opcode and lies in 1..MaxArraySize; PUSHk gives k; every other opcode is rejected |
| ContractChecks.IsCountOpcode | pkg/vm/contract_checks.go:19-29 | the opcodes the count switch takes: PUSH1..PUSH16, PUSHBYTES1 and PUSHBYTES2 (a definition; CountFromInstr rejects every other opcode) |
| Bytes.Uint16LE | pkg/vm/contract_checks.go:27 | the little-endian 16-bit reading of the first two operand bytes (a definition; LE16 and LE16OfUint16LE show it is a bijection on two bytes) |
| Bytes.Uint32LE | pkg/vm/contract_checks.go:91 | the little-endian 32-bit reading of the first four operand bytes, also used for the interop id at line 118 (a definition; LE32 and LE32OfUint32LE show it is a bijection on four bytes) |
| ScriptTemplates.CountRoundTrip | pkg/vm/contract_checks.go:15-35 | each of the three count encodings decodes to its value when that value is in 1..MaxArraySize, and is rejected otherwise |
| ScriptTemplates.CountSound | pkg/vm/contract_checks.go:15-35 | every accepted count instruction is one of the three encodings, with the value it was decoded as |
| VmContext.Decode | pkg/vm/contract_checks.go:50-53 | a decoded instruction lies inside the script; its operand has the size its opcode fixes and is the bytes just before the next instruction; reading past the end is an error |
| VmContext.Context.constructor | pkg/vm/contract_checks.go:49 | the context holds the script, with the cursor at offset 0 (also `NewContext` at line 108) |
| VmContext.Context.Next | pkg/vm/contract_checks.go:61-64 | on success the cursor moves past the decoded instruction; on an error it stays put |
| ContractChecks.ScanKeys | pkg/vm/contract_checks.go:59-75 | the key loop stops at an instruction other than PUSHDATA1, inside the script, having read at most MaxArraySize keys |
| ContractChecks.MultiSigKeys | pkg/vm/contract_checks.go:46-99 | the function form of ParseMultiSigContract: a count, the key loop, the count checks and the tail check, giving the keys or nothing (a definition; MultiSigCharacterization, ParseTemplate and AcceptedKeys state what it accepts) |
| ContractChecks.CountsAgree | pkg/vm/contract_checks.go:76-85 | after the key loop: the number of keys is at least the threshold, and the instruction that stopped the loop is a count equal to the number of keys (a definition; ParseScanned states its role in acceptance) |
| ContractChecks.MultisigTailAt | pkg/vm/contract_checks.go:86-97 | from the given offset: PUSHNULL, SYSCALL with the multisig id, and RET ending exactly at the end of the script (a definition; TailAt and TailSound tie it to the tail bytes) |
| ContractChecks.ParseMultiSigContract | pkg/vm/contract_checks.go:46-99 | total on every byte string; `ok` iff the script is accepted by `MultiSigKeys`; the keys returned are then exactly those, otherwise none |
| ContractChecks.ReadMultisigTail | pkg/vm/contract_checks.go:86-97 | succeeds iff the cursor is at PUSHNULL, then SYSCALL with the multisig id, then RET as the script's last instruction; on success the cursor is at the end of the script |
| ContractChecks.IsMultiSigContract | pkg/vm/contract_checks.go:39-42 | is the `ok` of ParseMultiSigContract |
| ContractChecks.IsSignatureContract | pkg/vm/contract_checks.go:103-122 | true iff the script is 41 bytes of PUSHDATA1 with a 33-byte key, PUSHNULL, and SYSCALL with the verify id |
| ContractChecks.IsSignatureScript | pkg/vm/contract_checks.go:103-122 | the byte-level single-signature template: 41 bytes, PUSHDATA1 with length 33, PUSHNULL at 35, SYSCALL at 36 with the verify id in bytes 37..40 (a definition; SignatureSound, SignatureTemplateAccepted and the mutation lemmas are about it) |
| ContractChecks.IsStandardContract | pkg/vm/contract_checks.go:126-128 | true iff the script is a single-signature script or an accepted multisig script |
| ScriptTemplates.ScanDecodedKeys | pkg/vm/contract_checks.go:59-75 | over PUSHDATA1 keys that are all long enough and not too many, the key loop returns all of them, in order, and stops at the next instruction |
| ScriptTemplates.ScanDecodedKeysFault | pkg/vm/contract_checks.go:66-75 | a key shorter than 33 bytes, or more than MaxArraySize keys, makes the key loop fail |
| ScriptTemplates.ScanSound | pkg/vm/contract_checks.go:59-75 | the keys the loop accepted are the operands of consecutive PUSHDATA1 instructions, each at least 33 bytes, ending where the stopping instruction starts |
| ScriptTemplates.EncodedKeysDecode | pkg/vm/contract_checks.go:59-71 | written-out keys decode as those keys: one PUSHDATA1 instruction each |
| ScriptTemplates.DecodedKeysEncoded | pkg/vm/contract_checks.go:59-71 | keys decoded as PUSHDATA1 instructions are written in the script as their encodings |
| ScriptTemplates.TailAt | pkg/vm/contract_checks.go:86-97 | where the tail bytes are written, the tail check holds iff they end the script |
| ScriptTemplates.TailSound | pkg/vm/contract_checks.go:86-97 | when the tail check holds, the tail bytes are written there and end the script |
| ScriptTemplates.ParseDecoded | pkg/vm/contract_checks.go:46-99 | on a script that decodes as count, keys, count, the classifier returns the keys iff the counts and keys are valid and the tail check holds |
| ScriptTemplates.ParseRejected | pkg/vm/contract_checks.go:54-75 | a threshold out of range, or a failed key loop, rejects the script |
| ScriptTemplates.ParseScanned | pkg/vm/contract_checks.go:76-98 | after the key loop, acceptance is exactly: threshold at most the number of keys, second count equal to it, and the tail |
| ScriptTemplates.LaidOutDecodes | pkg/vm/contract_checks.go:49-80 | a script laid out as count, keys, count decodes as those instructions |
| ScriptTemplates.ParseTemplate | pkg/vm/contract_checks.go:46-99 | a multisig template followed by any bytes is accepted, with its keys, iff it is valid and nothing follows it |
| ScriptTemplates.ParseTemplateExact | pkg/vm/contract_checks.go:46-99 | a multisig template is accepted, with its keys, iff it is valid |
| ScriptTemplates.ParseSoundDecoded | pkg/vm/contract_checks.go:46-99 | an accepted script decodes as a valid count, the returned keys, a count equal to their number, and the tail |
| ScriptTemplates.DecodedIsTemplate | pkg/vm/contract_checks.go:46-99 | a script that decodes as count, keys, count and tail is byte for byte that template |
| ScriptTemplates.ParseSound | pkg/vm/contract_checks.go:46-99 | every accepted script is a valid multisig template whose keys are the ones returned |
| ScriptTemplates.MultiSigCharacterization | pkg/vm/contract_checks.go:46-99 | a script is accepted with keys `keys` iff it is a valid template of those keys |
| ScriptTemplates.AcceptedKeys | pkg/vm/contract_checks.go:66-85 | an accepted script has between 1 and MaxArraySize keys, each at least 33 bytes; zero keys are always rejected |
| ScriptTemplates.CountEncodingsInterchangeable | pkg/vm/contract_checks.go:15-35 | writing the threshold, or the key count, with a different encoding of the same value changes nothing |
| ScriptTemplates.SignatureTemplateAccepted | pkg/vm/contract_checks.go:103-122 | the single-signature template of every 33-byte key is accepted |
| ScriptTemplates.SignatureSound | pkg/vm/contract_checks.go:103-122 | every accepted single-signature script is the template of the key it carries |
| ScriptTemplates.SignatureStructureMutated | pkg/vm/contract_checks.go:103-122 | changing any byte outside the key rejects the script |
| ScriptTemplates.SignatureKeyMutated | pkg/vm/contract_checks.go:103-122 | changing a byte inside the key keeps the script accepted |
| ScriptTemplates.SignatureIsNotMultiSig | pkg/vm/contract_checks.go:126-128 | no script is both a single-signature and a multisig script |
| Bytes.LE16 | pkg/vm/contract_checks.go:27 | the two-byte writer is read back by the 16-bit little-endian reader |
| Bytes.LE16OfUint16LE | pkg/vm/contract_checks.go:27 | writing what the 16-bit reader read gives back the two bytes |
| Bytes.LE32 | pkg/vm/contract_checks.go:91 | the four-byte writer is read back by the 32-bit little-endian reader |
| Bytes.LE32OfUint32LE | pkg/vm/contract_checks.go:91 | writing what the 32-bit reader read gives back the four bytes |
| Manifest.DefaultManifest | pkg/smartcontract/manifest/manifest_test.go:15-18 | the name, no groups, standards or trusts, an empty ABI, no extra, and one permission: any contract, any method |
| Manifest.NewManifest | pkg/smartcontract/manifest/manifest_test.go:47-50 | the name and nothing else: no groups, standards, permissions or trusts, an empty ABI, no extra |
| Manifest.NewPermission | pkg/smartcontract/manifest/manifest_test.go:68-71 | the permission is about the given contracts and allows every method |
| Manifest.Contains | pkg/smartcontract/manifest/manifest_test.go:77-82 | the wildcard holds every name; a list holds exactly its members |
| Manifest.ListContains | pkg/smartcontract/manifest/manifest_test.go:77-82 | the scan of an explicit method list finds a name iff the list holds it |
| Manifest.Restrict | pkg/smartcontract/manifest/manifest_test.go:78-79 | the set becomes an explicit list that holds no name |
| Manifest.Add | pkg/smartcontract/manifest/manifest_test.go:80-81 | the set becomes an explicit list ending in the name; it holds that name and what the list held before, and nothing else |
| Manifest.HasGroup | pkg/smartcontract/manifest/manifest_test.go:90-104 | true iff some group has exactly that public key |
| Manifest.IsAllowed | pkg/smartcontract/manifest/manifest_test.go:65-104 | per target kind: any contract, the one hash, or a callee that lists the group key; in each case the method must also be in the set |
| Manifest.AnyAllows | pkg/smartcontract/manifest/manifest_test.go:59-63 | true iff some permission of the list allows the call |
| Manifest.CanCall | pkg/smartcontract/manifest/manifest_test.go:59-63 | true iff some permission of the caller's manifest allows the call |
| Manifest.GroupsValid | pkg/smartcontract/manifest/manifest_test.go:107-146 | true iff every group's signature verifies over the message under the group's key |
| Manifest.IsValid | pkg/smartcontract/manifest/manifest_test.go:107-146 | true iff every group's signature verifies, under its key, over the big-endian bytes of the hash |
| Manifest.Uint160Of | pkg/smartcontract/manifest/manifest_test.go:108 | the hash starts with the given bytes and is zero after them |
| Manifest.BytesBE | pkg/smartcontract/manifest/manifest_test.go:124 | the message a group signs and IsValid checks: the 20 hash bytes in big-endian order, the order in which this model stores a hash (a definition) |
| ManifestProperties.DefaultManifestCanCallAnything | pkg/smartcontract/manifest/manifest_test.go:59-63 | a default manifest may call any method of any contract, whatever the callee's manifest |
| ManifestProperties.WildcardPermissionAllowsAll | pkg/smartcontract/manifest/manifest_test.go:68-71 | a new wildcard permission allows every call |
| ManifestProperties.HashPermissionMatchesOnlyItsHash | pkg/smartcontract/manifest/manifest_test.go:73-88 | a hash permission allows a call iff the callee has that hash and the method is in the set |
| ManifestProperties.RestrictThenAdd | pkg/smartcontract/manifest/manifest_test.go:77-82 | after Restrict and then Add(v), the set holds exactly v |
| ManifestProperties.AddKeeps | pkg/smartcontract/manifest/manifest_test.go:80-81 | adding to an explicit list never removes a name |
| ManifestProperties.PublicKeys | pkg/smartcontract/manifest/manifest_test.go:92 | the keys of the groups, one per group, in order |
| ManifestProperties.GroupPermissionIgnoresSignatures | pkg/smartcontract/manifest/manifest_test.go:90-104 | a group permission depends only on the callee's public keys, not on its signatures |
| ManifestProperties.CanCallMonotone | pkg/smartcontract/manifest/manifest_test.go:59-63 | adding permissions never takes away a call |
| ManifestProperties.IsAllowedScenario | pkg/smartcontract/manifest/manifest_test.go:65-104 | the outcomes the permission test asserts, for any two distinct keys |
| ManifestProperties.CanCallScenario | pkg/smartcontract/manifest/manifest_test.go:59-63 | a default manifest may call `method1` of another default manifest |
| ManifestProperties.NoGroupsIsValid | pkg/smartcontract/manifest/manifest_test.go:111-113 | a manifest without groups is valid for every hash |
| ManifestProperties.AppendGroupValid | pkg/smartcontract/manifest/manifest_test.go:136-146 | after appending a group, the manifest is valid iff it was before and the new signature verifies |
| ManifestProperties.SignedGroups | pkg/smartcontract/manifest/manifest_test.go:116-126 | one group per private key, each a signature of the hash's big-endian bytes |
| ManifestProperties.SignedGroupsValidExactlyForTheirHash | pkg/smartcontract/manifest/manifest_test.go:128-134 | under a sound scheme, groups signed over a hash are valid for that hash and for no other |
| ManifestProperties.ForeignSignatureInvalidates | pkg/smartcontract/manifest/manifest_test.go:136-146 | under a sound scheme, a group that signed another message makes the manifest invalid |
| ManifestProperties.IsValidScenario | pkg/smartcontract/manifest/manifest_test.go:107-146 | the outcomes the group test asserts, for any three private keys and any sound scheme |

## Left out

- The decoder behind `NewContext` and `ctx.Next` is not part of this model. `VmContext.Decode` is an abstract decoder with these operand sizes: PUSHDATA1 takes a length byte and that many bytes, PUSHBYTES1 one byte, PUSHBYTES2 two, SYSCALL a 4-byte id, every other opcode none. Running past the end of the script, or a truncated operand, is an error. The cursor after `Next` is the offset just past the instruction read.
- The opcode byte values are stand-ins, not the VM's numbering. Opcodes other than the ones the classifier names are not modelled individually: they decode with no operand, and the classifier rejects them wherever they appear.
- Context.Next: if the real decoder reports an implicit RET once the cursor reaches the end of the script, then the real classifier's multisig scripts end without a RET byte. The model follows a decoder that reads an explicit RET byte.
- The interop ids of `Neo.Crypto.ECDsaVerify` and `Neo.Crypto.ECDsaCheckMultiSig` are derived from a hash of their names, and that hashing is not modelled. They are two distinct stand-in constants, and no property depends on their values. `MaxArraySize` is 1024.
- JSON marshalling and unmarshalling of manifests (pkg/smartcontract/manifest/manifest_test.go:14-57) is left out, because the serializer is not part of this model.
- Signature verification, key generation and signing are parameters (`Verifier`, and `pub`/`sign` in the group lemmas). The group lemmas assume only that a signature verifies under the signer's key over the signed message and over no other.
- The manifest implementation files are not part of this model. Its rules are modelled from the behaviour the tests assert, and the cited lines are those tests. Three choices are not pinned down by any test and are modelling choices: `CanCall` scans the permissions of the calling manifest (the receiver), not the callee's, and the call test cannot tell the two apart because both of its manifests are default ones; `NewManifest` has an empty permission list and an explicit empty trust list; and `Add` on the wildcard method set gives the one-name list `[v]`. `BytesBE` is the hash's bytes as stored.
- Manifest.Restrict, Manifest.Add: the Go methods update the permission's method set in place. The model makes them value updates, and the test scenarios reassign local variables. Aliasing of a permission shared between manifests is not captured.
- The RPC bindings in nns.go and the client plumbing in invoker.go contain no decision logic and are not modelled.

Three behaviours of the code are easy to miss. The model follows the code:

- Alternate encodings of the same count are accepted: `PUSH3`, `PUSHBYTES1 3` and `PUSHBYTES2 3 0` are interchangeable, because the counts are compared by value (`CountEncodingsInterchangeable`).
- Changing a byte inside the key of a single-signature script leaves it accepted, because only the key's length is checked (`SignatureKeyMutated`). Changing any other byte rejects it (`SignatureStructureMutated`).
- Multisig keys may be anywhere from 33 to 255 bytes long. The key loop checks only that a key has at least 33 bytes, and a PUSHDATA1 operand holds at most 255 (`AcceptedKeys`, `ScanSound`).
