/**
  A contract manifest and the two decisions taken on it: whether one
  contract may call a method of another (the permission rules), and
  whether the manifest's groups are all signed for the contract's hash.
  Signature verification is a parameter: the model never looks inside it.
 */
module Manifest {
  import opened Wrappers
  import opened Bytes

  /** A 160-bit script hash, as its 20 bytes. */
  type Uint160 = h: seq<byte> | |h| == 20 witness seq(20, _ => 0 as byte)

  /** The hash whose first bytes are `prefix` and whose other bytes are zero (Go's `util.Uint160{1, 2, 3}`). */
  function Uint160Of(prefix: seq<byte>): (h: Uint160)
    requires |prefix| <= 20
    ensures forall i :: 0 <= i < |prefix| ==> h[i] == prefix[i]
    ensures forall i :: |prefix| <= i < 20 ==> h[i] == 0
  {
    prefix + seq(20 - |prefix|, _ => 0 as byte)
  }

  /** The bytes of a hash in big-endian order, the message a group signs. */
  function BytesBE(h: Uint160): seq<byte>
  {
    h
  }

  /** A public key in its encoded form; keys are equal when their encodings are. */
  type PublicKey = seq<byte>
  type Signature = seq<byte>

  /** Signature verification: does `sig` verify over `msg` under `pub`? */
  type Verifier = (PublicKey, seq<byte>, Signature) -> bool

  /** A group: a public key and its signature over the contract hash. */
  datatype Group = Group(publicKey: PublicKey, signature: Signature)

  datatype Parameter = Parameter(name: string, paramType: string)
  datatype Method = Method(name: string, offset: int, parameters: seq<Parameter>, returnType: string, safe: bool)
  datatype Event = Event(name: string, parameters: seq<Parameter>)
  datatype ABI = ABI(methods: seq<Method>, events: seq<Event>)

  /** The contracts a permission is about: all of them, one hash, or every contract in a group. */
  datatype PermissionDesc = WildcardContract | HashContract(hash: Uint160) | GroupContract(key: PublicKey)

  /** A set of method names, or every method (the wildcard, a nil list in Go). */
  datatype WildStrings = WildcardMethods | MethodList(names: seq<string>)

  /** A set of hashes, or every hash. */
  datatype WildHashes = WildcardHashes | HashList(hashes: seq<Uint160>)

  datatype Permission = Permission(contract: PermissionDesc, methods: WildStrings)

  datatype Manifest = Manifest(
    name: string,
    groups: seq<Group>,
    supportedStandards: seq<string>,
    abi: ABI,
    permissions: seq<Permission>,
    trusts: WildHashes,
    extra: Option<seq<byte>>)

  // ---------------------------------------------------------------------
  // Method sets

  predicate IsWildcard(w: WildStrings)
  {
    w.WildcardMethods?
  }

  function ListContains(names: seq<string>, v: string): (r: bool)
    ensures r <==> v in names
  {
    if names == [] then false else names[0] == v || ListContains(names[1..], v)
  }

  /** Whether the set holds `v`: the wildcard holds every name, a list exactly its members. */
  function Contains(w: WildStrings, v: string): (r: bool)
    ensures r <==> IsWildcard(w) || v in w.names
  {
    match w
    case WildcardMethods => true
    case MethodList(names) => ListContains(names, v)
  }

  /** `Restrict`: the set becomes an explicit, empty list. */
  function Restrict(w: WildStrings): (r: WildStrings)
    ensures !IsWildcard(r)
    ensures forall v :: !Contains(r, v)
  {
    MethodList([])
  }

  /**
    `Add`: appends `v` to the list. On the wildcard the list it appends to
    is nil, so the result is the explicit one-name list `[v]`.
   */
  function Add(w: WildStrings, v: string): (r: WildStrings)
    ensures !IsWildcard(r) && |r.names| > 0 && r.names[|r.names| - 1] == v
    ensures forall x :: Contains(r, x) <==> x == v || (!IsWildcard(w) && Contains(w, x))
  {
    match w
    case WildcardMethods => MethodList([v])
    case MethodList(names) => MethodList(names + [v])
  }

  // ---------------------------------------------------------------------
  // Construction

  /** A permission for the given contracts, allowing every method. */
  function NewPermission(desc: PermissionDesc): (p: Permission)
    ensures p.contract == desc
    ensures forall v :: Contains(p.methods, v)
  {
    Permission(desc, WildcardMethods)
  }

  /** A manifest with the given name and nothing else: no groups, no standards, an empty ABI, no permissions, no trusts. */
  function NewManifest(name: string): (m: Manifest)
    ensures m.name == name && m.groups == [] && m.supportedStandards == []
    ensures m.abi.methods == [] && m.abi.events == []
    ensures m.permissions == [] && m.trusts == HashList([]) && m.extra.None?
  {
    Manifest(name, [], [], ABI([], []), [], HashList([]), None)
  }

  /** NewManifest, with the single permission to call any method of any contract. */
  function DefaultManifest(name: string): (m: Manifest)
    ensures m.name == name && m.groups == [] && m.supportedStandards == []
    ensures m.abi.methods == [] && m.abi.events == []
    ensures m.trusts == HashList([]) && m.extra.None?
    ensures |m.permissions| == 1
    ensures m.permissions[0].contract.WildcardContract? && IsWildcard(m.permissions[0].methods)
  {
    NewManifest(name).(permissions := [NewPermission(WildcardContract)])
  }

  // ---------------------------------------------------------------------
  // Permissions

  /** Whether one of `groups` has the public key `key`. */
  function HasGroup(groups: seq<Group>, key: PublicKey): (r: bool)
    ensures r <==> exists i :: 0 <= i < |groups| && groups[i].publicKey == key
  {
    if groups == [] then false
    else groups[0].publicKey == key || HasGroup(groups[1..], key)
  }

  /**
    Whether permission `p` allows calling `methodName` of the contract with hash
    `hash` and manifest `target`: the contract must be the permission's
    (any contract, the one hash, or one whose manifest lists the group's
    key), and `methodName` must be in the permission's method set.
   */
  function IsAllowed(p: Permission, hash: Uint160, target: Manifest, methodName: string): (r: bool)
    ensures p.contract.WildcardContract? ==> (r <==> Contains(p.methods, methodName))
    ensures p.contract.HashContract? ==> (r <==> p.contract.hash == hash && Contains(p.methods, methodName))
    ensures p.contract.GroupContract? ==>
      (r <==> (exists i :: 0 <= i < |target.groups| && target.groups[i].publicKey == p.contract.key)
              && Contains(p.methods, methodName))
  {
    var contractOk :=
      match p.contract
      case WildcardContract => true
      case HashContract(h) => h == hash
      case GroupContract(key) => HasGroup(target.groups, key);
    contractOk && Contains(p.methods, methodName)
  }

  function AnyAllows(perms: seq<Permission>, hash: Uint160, target: Manifest, methodName: string): (r: bool)
    ensures r <==> exists i :: 0 <= i < |perms| && IsAllowed(perms[i], hash, target, methodName)
  {
    if perms == [] then false
    else IsAllowed(perms[0], hash, target, methodName) || AnyAllows(perms[1..], hash, target, methodName)
  }

  /** Whether the contract with manifest `m` may call `methodName` of the contract `hash` whose manifest is `toCall`. */
  function CanCall(m: Manifest, hash: Uint160, toCall: Manifest, methodName: string): (r: bool)
    ensures r <==> exists i :: 0 <= i < |m.permissions| && IsAllowed(m.permissions[i], hash, toCall, methodName)
  {
    AnyAllows(m.permissions, hash, toCall, methodName)
  }

  // ---------------------------------------------------------------------
  // Groups

  function GroupsValid(groups: seq<Group>, msg: seq<byte>, verify: Verifier): (r: bool)
    ensures r <==> forall i :: 0 <= i < |groups| ==> verify(groups[i].publicKey, msg, groups[i].signature)
  {
    if groups == [] then true
    else verify(groups[0].publicKey, msg, groups[0].signature) && GroupsValid(groups[1..], msg, verify)
  }

  /** Whether every group's signature verifies, under its key, over the big-endian bytes of `hash`. */
  function IsValid(m: Manifest, hash: Uint160, verify: Verifier): (r: bool)
    ensures r <==> forall i :: 0 <= i < |m.groups| ==>
      verify(m.groups[i].publicKey, BytesBE(hash), m.groups[i].signature)
  {
    GroupsValid(m.groups, BytesBE(hash), verify)
  }
}
