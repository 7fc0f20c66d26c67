/**
  What the permission and group rules promise: the default manifest
  allows every call, a hash permission is about exactly its hash, a group
  permission looks only at the target's public keys, and groups signed
  over a contract's hash are valid for that hash and no other.
 */
module ManifestProperties {
  import opened Bytes
  import opened Manifest

  // ---------------------------------------------------------------------
  // Permissions

  /** A default manifest may call any method of any contract, whatever that contract's manifest. */
  lemma DefaultManifestCanCallAnything(name: string, hash: Uint160, toCall: Manifest, methodName: string)
    ensures CanCall(DefaultManifest(name), hash, toCall, methodName)
  {
    assert IsAllowed(DefaultManifest(name).permissions[0], hash, toCall, methodName);
  }

  /** A wildcard permission with a wildcard method set allows every call. */
  lemma WildcardPermissionAllowsAll(hash: Uint160, target: Manifest, methodName: string)
    ensures IsAllowed(NewPermission(WildcardContract), hash, target, methodName)
  {
  }

  /** A hash permission allows a call exactly when the callee has that hash and the method is in the set. */
  lemma HashPermissionMatchesOnlyItsHash(h: Uint160, methods: WildStrings, hash: Uint160, target: Manifest, methodName: string)
    ensures IsAllowed(Permission(HashContract(h), methods), hash, target, methodName)
        <==> h == hash && Contains(methods, methodName)
  {
  }

  /** After Restrict and then Add(v), the method set holds exactly `v`, whatever it held before. */
  lemma RestrictThenAdd(w: WildStrings, v: string, x: string)
    ensures Contains(Add(Restrict(w), v), x) <==> x == v
  {
  }

  /** Adding names to a set never removes one. */
  lemma AddKeeps(w: WildStrings, v: string, x: string)
    requires Contains(w, x) && !IsWildcard(w)
    ensures Contains(Add(w, v), x)
  {
  }

  /** The public keys of a list of groups, in order. */
  function PublicKeys(groups: seq<Group>): (keys: seq<PublicKey>)
    ensures |keys| == |groups|
    ensures forall i :: 0 <= i < |groups| ==> keys[i] == groups[i].publicKey
  {
    if groups == [] then [] else [groups[0].publicKey] + PublicKeys(groups[1..])
  }

  /**
    A group permission allows a call exactly when the callee lists the
    group's key, whatever the callee's signatures: two callees with the
    same public keys are treated alike.
   */
  lemma {:induction false} GroupPermissionIgnoresSignatures(key: PublicKey, methods: WildStrings, hash: Uint160,
                                                           t1: Manifest, t2: Manifest, methodName: string)
    requires PublicKeys(t1.groups) == PublicKeys(t2.groups)
    ensures IsAllowed(Permission(GroupContract(key), methods), hash, t1, methodName)
        <==> IsAllowed(Permission(GroupContract(key), methods), hash, t2, methodName)
  {
    var k1, k2 := PublicKeys(t1.groups), PublicKeys(t2.groups);
    assert |t1.groups| == |t2.groups|;
    forall i | 0 <= i < |t1.groups|
      ensures t1.groups[i].publicKey == t2.groups[i].publicKey
    {
      assert k1[i] == k2[i];
    }
  }

  /** A manifest with more permissions can make every call the smaller one can. */
  lemma {:induction false} CanCallMonotone(m: Manifest, extra: seq<Permission>, hash: Uint160, toCall: Manifest, methodName: string)
    requires CanCall(m, hash, toCall, methodName)
    ensures CanCall(m.(permissions := m.permissions + extra), hash, toCall, methodName)
  {
    var i :| 0 <= i < |m.permissions| && IsAllowed(m.permissions[i], hash, toCall, methodName);
    assert (m.permissions + extra)[i] == m.permissions[i];
  }

  /**
    The permission checks of the permission test: a wildcard permission;
    a permission for the zero hash, then with its methods restricted, then
    with "AAA" added back; a permission for another hash; and a group
    permission for the key the callee lists and for a key it does not.
   */
  method IsAllowedScenario(key1: PublicKey, key2: PublicKey)
    returns (wildcard: bool, hash: bool, restricted: bool, added: bool, otherHash: bool, group: bool, otherGroup: bool)
    requires key1 != key2
    ensures wildcard && hash && !restricted && added
    ensures !otherHash
    ensures group && !otherGroup
  {
    var zero := Uint160Of([]);
    var manifest := DefaultManifest("Test");

    wildcard := IsAllowed(NewPermission(WildcardContract), zero, manifest, "AAA");

    var perm := NewPermission(HashContract(zero));
    hash := IsAllowed(perm, zero, manifest, "AAA");
    perm := perm.(methods := Restrict(perm.methods));
    restricted := IsAllowed(perm, zero, manifest, "AAA");
    perm := perm.(methods := Add(perm.methods, "AAA"));
    added := IsAllowed(perm, zero, manifest, "AAA");

    var one := Uint160Of([1]);
    assert one[0] != zero[0];
    otherHash := IsAllowed(NewPermission(HashContract(one)), zero, manifest, "AAA");

    manifest := manifest.(groups := [Group(key1, [])]);
    group := IsAllowed(NewPermission(GroupContract(key1)), zero, manifest, "AAA");
    otherGroup := IsAllowed(NewPermission(GroupContract(key2)), zero, manifest, "AAA");
  }

  /** The call check of the manifest test: one default manifest may call a method of another. */
  method CanCallScenario() returns (allowed: bool)
    ensures allowed
  {
    var man1 := DefaultManifest("Test1");
    var man2 := DefaultManifest("Test2");
    DefaultManifestCanCallAnything("Test1", Uint160Of([]), man2, "method1");
    allowed := CanCall(man1, Uint160Of([]), man2, "method1");
  }

  // ---------------------------------------------------------------------
  // Groups

  /** A manifest without groups is valid for every hash. */
  lemma NoGroupsIsValid(m: Manifest, hash: Uint160, verify: Verifier)
    requires m.groups == []
    ensures IsValid(m, hash, verify)
  {
  }

  /** Appending a group keeps the manifest valid exactly when the new group's signature verifies. */
  lemma {:induction false} AppendGroupValid(m: Manifest, g: Group, hash: Uint160, verify: Verifier)
    ensures IsValid(m.(groups := m.groups + [g]), hash, verify)
        <==> IsValid(m, hash, verify) && verify(g.publicKey, BytesBE(hash), g.signature)
  {
    var gs := m.groups + [g];
    assert gs[|m.groups|] == g;
    assert forall i :: 0 <= i < |m.groups| ==> gs[i] == m.groups[i];
  }

  type PrivateKey = seq<byte>

  /**
    A signature scheme in which a signature made with a private key
    verifies, under the matching public key, over the signed message and
    over no other message.
   */
  ghost predicate SoundScheme(verify: Verifier, pub: PrivateKey -> PublicKey, sign: (PrivateKey, seq<byte>) -> Signature)
  {
    forall sk, msg, signed :: verify(pub(sk), msg, sign(sk, signed)) <==> msg == signed
  }

  /** One group per private key, each signing the big-endian bytes of `hash`. */
  function SignedGroups(sks: seq<PrivateKey>, hash: Uint160, pub: PrivateKey -> PublicKey,
                        sign: (PrivateKey, seq<byte>) -> Signature): (gs: seq<Group>)
    ensures |gs| == |sks|
    ensures forall i :: 0 <= i < |sks| ==> gs[i] == Group(pub(sks[i]), sign(sks[i], BytesBE(hash)))
  {
    if sks == [] then [] else [Group(pub(sks[0]), sign(sks[0], BytesBE(hash)))] + SignedGroups(sks[1..], hash, pub, sign)
  }

  /** Groups signed over `hash` make a manifest valid for `hash` and, when there is at least one, for no other hash. */
  lemma SignedGroupsValidExactlyForTheirHash(m: Manifest, sks: seq<PrivateKey>, hash: Uint160, other: Uint160,
                                             verify: Verifier, pub: PrivateKey -> PublicKey,
                                             sign: (PrivateKey, seq<byte>) -> Signature)
    requires SoundScheme(verify, pub, sign) && sks != []
    requires m.groups == SignedGroups(sks, hash, pub, sign)
    ensures IsValid(m, other, verify) <==> other == hash
  {
    if other != hash {
      assert !verify(m.groups[0].publicKey, BytesBE(other), m.groups[0].signature);
    }
  }

  /** A group whose signature is over a message other than the hash's bytes makes the manifest invalid. */
  lemma ForeignSignatureInvalidates(m: Manifest, sk: PrivateKey, msg: seq<byte>, hash: Uint160,
                                    verify: Verifier, pub: PrivateKey -> PublicKey,
                                    sign: (PrivateKey, seq<byte>) -> Signature)
    requires SoundScheme(verify, pub, sign) && msg != BytesBE(hash)
    ensures !IsValid(m.(groups := m.groups + [Group(pub(sk), sign(sk, msg))]), hash, verify)
  {
    AppendGroupValid(m, Group(pub(sk), sign(sk, msg)), hash, verify);
  }

  /**
    The validity checks of the group test: no groups; three groups signed
    over the contract hash, checked against it and against another hash;
    and a fourth group signed over the bytes 1, 2, 3 instead.
   */
  method IsValidScenario(sks: seq<PrivateKey>, sk4: PrivateKey, verify: Verifier, pub: PrivateKey -> PublicKey,
                         sign: (PrivateKey, seq<byte>) -> Signature)
    returns (noGroups: bool, valid: bool, wrongHash: bool, wrongSignature: bool)
    requires SoundScheme(verify, pub, sign) && |sks| == 3
    ensures noGroups && valid && !wrongHash && !wrongSignature
  {
    var contractHash := Uint160Of([1, 2, 3]);
    var m := NewManifest("Test");
    noGroups := IsValid(m, contractHash, verify);

    m := m.(groups := SignedGroups(sks, contractHash, pub, sign));
    valid := IsValid(m, contractHash, verify);
    var otherHash := Uint160Of([4, 5, 6]);
    assert otherHash[0] != contractHash[0];
    SignedGroupsValidExactlyForTheirHash(m, sks, contractHash, otherHash, verify, pub, sign);
    wrongHash := IsValid(m, otherHash, verify);

    ForeignSignatureInvalidates(m, sk4, [1, 2, 3], contractHash, verify, pub, sign);
    m := m.(groups := m.groups + [Group(pub(sk4), sign(sk4, [1, 2, 3]))]);
    wrongSignature := IsValid(m, contractHash, verify);
  }
}
