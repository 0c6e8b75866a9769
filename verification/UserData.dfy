/** User data: base64 inline when it fits, else a hash-pinned pointer to an object. What the
    node boots is the bootstrap secret either way. */
module UserData {
  import opened Objects

  type byte = x: int | 0 <= x < 256

  // ---------------------------------------------------------------- base64 (RFC 4648, section 4)

  const PAD := '='

  type sextet = x: int | 0 <= x < 64

  function Symbol(v: sextet): char {
    if v < 26 then 'A' + v as char
    else if v < 52 then 'a' + (v - 26) as char
    else if v < 62 then '0' + (v - 52) as char
    else if v == 62 then '+' else '/'
  }

  function SymbolValue(c: char): Option<sextet> {
    if 'A' <= c <= 'Z' then Some((c - 'A') as int)
    else if 'a' <= c <= 'z' then Some((c - 'a') as int + 26)
    else if '0' <= c <= '9' then Some((c - '0') as int + 52)
    else if c == '+' then Some(62)
    else if c == '/' then Some(63)
    else None
  }

  function Encode(raw: seq<byte>): (s: string)
    ensures |s| == (|raw| + 2) / 3 * 4
  {
    if raw == [] then ""
    else if |raw| == 1 then [Symbol(raw[0] / 4), Symbol(raw[0] % 4 * 16), PAD, PAD]
    else if |raw| == 2 then
      [Symbol(raw[0] / 4), Symbol(raw[0] % 4 * 16 + raw[1] / 16), Symbol(raw[1] % 16 * 4), PAD]
    else
      [Symbol(raw[0] / 4), Symbol(raw[0] % 4 * 16 + raw[1] / 16),
       Symbol(raw[1] % 16 * 4 + raw[2] / 64), Symbol(raw[2] % 64)] + Encode(raw[3..])
  }

  /** One quantum without padding. */
  function Three(a: sextet, b: sextet, c: sextet, d: sextet): seq<byte> {
    [a * 4 + b / 16, b % 16 * 16 + c / 4, c % 4 * 64 + d]
  }

  function Decode(s: string): Option<seq<byte>> {
    if s == "" then Some([])
    else if |s| < 4 then None
    else
      var (a, b, c, d) := (SymbolValue(s[0]), SymbolValue(s[1]), SymbolValue(s[2]), SymbolValue(s[3]));
      if a.None? || b.None? then None
      else if s[2] == PAD then
        if s[3] == PAD && |s| == 4 then Some(Three(a.value, b.value, 0, 0)[..1]) else None
      else if c.None? then None
      else if s[3] == PAD then
        if |s| == 4 then Some(Three(a.value, b.value, c.value, 0)[..2]) else None
      else if d.None? then None
      else
        var rest := Decode(s[4..]);
        if rest.None? then None else Some(Three(a.value, b.value, c.value, d.value) + rest.value)
  }

  lemma SymbolRoundTrip(v: sextet)
    ensures SymbolValue(Symbol(v)) == Some(v) && Symbol(v) != PAD
  {
  }

  /** Splitting three bytes into four sextets and back. */
  lemma QuantumRoundTrip(x: byte, y: byte, z: byte)
    ensures Three(x / 4, x % 4 * 16 + y / 16, y % 16 * 4 + z / 64, z % 64) == [x, y, z]
  {
  }

  lemma OneRoundTrip(x: byte)
    ensures Decode(Encode([x])) == Some([x])
  {
    hide Three, Symbol, SymbolValue;
    var (a, b) := (x / 4, x % 4 * 16);
    SymbolRoundTrip(a);
    SymbolRoundTrip(b);
    assert Encode([x]) == [Symbol(a), Symbol(b), PAD, PAD];
    QuantumRoundTrip(x, 0, 0);
    assert Three(a, b, 0, 0)[..1] == [x];
  }

  lemma TwoRoundTrip(x: byte, y: byte)
    ensures Decode(Encode([x, y])) == Some([x, y])
  {
    hide Three, Symbol, SymbolValue;
    var (a, b, c) := (x / 4, x % 4 * 16 + y / 16, y % 16 * 4);
    SymbolRoundTrip(a);
    SymbolRoundTrip(b);
    SymbolRoundTrip(c);
    assert Encode([x, y]) == [Symbol(a), Symbol(b), Symbol(c), PAD];
    QuantumRoundTrip(x, y, 0);
    assert Three(a, b, c, 0)[..2] == [x, y];
  }

  lemma {:induction false} Base64RoundTrip(raw: seq<byte>)
    ensures Decode(Encode(raw)) == Some(raw)
  {
    hide Three, Symbol, SymbolValue;
    if |raw| >= 3 {
      SymbolRoundTrip(raw[0] / 4);
      SymbolRoundTrip(raw[0] % 4 * 16 + raw[1] / 16);
      SymbolRoundTrip(raw[1] % 16 * 4 + raw[2] / 64);
      SymbolRoundTrip(raw[2] % 64);
      QuantumRoundTrip(raw[0], raw[1], raw[2]);
      Base64RoundTrip(raw[3..]);
      assert Encode(raw)[4..] == Encode(raw[3..]);
      assert raw == [raw[0], raw[1], raw[2]] + raw[3..];
    } else if |raw| == 2 {
      TwoRoundTrip(raw[0], raw[1]);
      assert raw == [raw[0], raw[1]];
    } else if |raw| == 1 {
      OneRoundTrip(raw[0]);
      assert raw == [raw[0]];
    }
  }

  /** The symbols are those of table 1 of RFC 4648, by their code points. */
  lemma SymbolsStandard(v: sextet)
    ensures Symbol(v) as int == if v <= 25 then 65 + v
                                else if v <= 51 then 71 + v
                                else if v <= 61 then v - 4
                                else if v == 62 then 43 else 47
  {
  }

  /** Each three bytes become the four symbols of the same 24 bits. */
  lemma {:induction false} EncodesGroup(raw: seq<byte>, k: nat) returns (a: sextet, b: sextet, c: sextet, d: sextet)
    requires 3 * k + 3 <= |raw|
    ensures Encode(raw)[4 * k..4 * k + 4] == [Symbol(a), Symbol(b), Symbol(c), Symbol(d)]
    ensures 262144 * a + 4096 * b + 64 * c + d ==
              65536 * (raw[3 * k] as int) + 256 * (raw[3 * k + 1] as int) + raw[3 * k + 2] as int
  {
    var rest := Encode(raw[3..]);
    if k == 0 {
      a, b, c, d := raw[0] / 4, raw[0] % 4 * 16 + raw[1] / 16, raw[1] % 16 * 4 + raw[2] / 64, raw[2] % 64;
    } else {
      a, b, c, d := EncodesGroup(raw[3..], k - 1);
      assert Encode(raw)[4 * k..4 * k + 4] == rest[4 * (k - 1)..4 * (k - 1) + 4];
    }
  }

  lemma TailBits(x: byte, y: byte)
    ensures 64 * (x / 4) + x % 4 * 16 == 16 * (x as int)
    ensures 4096 * (x / 4) + 64 * (x % 4 * 16 + y / 16) + y % 16 * 4 == 4 * (256 * (x as int) + y as int)
  {
  }

  /** One byte left over becomes two symbols of its bits and four zeros, padded to four. */
  lemma {:induction false} EncodesOne(raw: seq<byte>, k: nat) returns (a: sextet, b: sextet)
    requires |raw| == 3 * k + 1
    ensures |Encode(raw)| >= 4 && Encode(raw)[|Encode(raw)| - 4..] == [Symbol(a), Symbol(b), '=', '=']
    ensures 64 * a + b == 16 * (raw[3 * k] as int)
  {
    hide Symbol;
    if k == 0 {
      TailBits(raw[0], 0);
      a, b := raw[0] / 4, raw[0] % 4 * 16;
      assert Encode(raw) == [Symbol(a), Symbol(b), PAD, PAD];
    } else {
      a, b := EncodesOne(raw[3..], k - 1);
      SameTail(raw);
    }
  }

  /** Two become three symbols of their bits and two zeros, padded to four. */
  lemma {:induction false} EncodesTwo(raw: seq<byte>, k: nat) returns (a: sextet, b: sextet, c: sextet)
    requires |raw| == 3 * k + 2
    ensures |Encode(raw)| >= 4 && Encode(raw)[|Encode(raw)| - 4..] == [Symbol(a), Symbol(b), Symbol(c), '=']
    ensures 4096 * a + 64 * b + c == 4 * (256 * (raw[3 * k] as int) + raw[3 * k + 1] as int)
  {
    hide Symbol;
    if k == 0 {
      TailBits(raw[0], raw[1]);
      a, b, c := raw[0] / 4, raw[0] % 4 * 16 + raw[1] / 16, raw[1] % 16 * 4;
      assert Encode(raw) == [Symbol(a), Symbol(b), Symbol(c), PAD];
    } else {
      a, b, c := EncodesTwo(raw[3..], k - 1);
      SameTail(raw);
    }
  }

  lemma SameTail(raw: seq<byte>)
    requires |raw| > 3
    ensures |Encode(raw[3..])| >= 4
    ensures Encode(raw)[|Encode(raw)| - 4..] == Encode(raw[3..])[|Encode(raw[3..])| - 4..]
  {
    hide Symbol;
    var (whole, rest) := (Encode(raw), Encode(raw[3..]));
    assert |rest| >= 4;
    assert whole == whole[..4] + rest;
  }

  // ---------------------------------------------------------------- offload

  const DEFAULT_MAX_USER_DATA := 16384

  datatype IgnitionStorage = IgnitionStorage(ossBucket: string, ossEndpoint: string, maxUserDataBytes: int)

  /** The object a machine's status records, for deletion to clean up. */
  datatype IgnitionOSSRef = IgnitionOSSRef(bucket: string, endpoint: string, key: string)

  /** How storing an object turns out: signing its URL may fail after the object was stored. */
  datatype PutOutcome = Stored | StoredUnsigned | NotStored

  /** The machine's place in the object store. */
  datatype Identity = Identity(cluster: string, namespace: string, name: string)

  function IgnitionObjectKey(id: Identity): string {
    "capi-ignition/" + id.cluster + "/" + id.namespace + "/" + id.name + ".ign"
  }

  type ObjectMap = map<(string, string), seq<byte>>

  /** A collision-free digest stands for SHA-512. */
  type Digest = seq<byte> -> int

  /** The user data an instance is launched with. */
  datatype Payload = Inline(base64: string) | Pointer(bucket: string, key: string, hash: int)

  datatype OffloadResult = Ready(payload: Payload) | TooLarge | BadBase64 | PutFailed

  function Threshold(store: Option<IgnitionStorage>): int {
    if store.Some? && store.value.maxUserDataBytes > 0 then store.value.maxUserDataBytes else DEFAULT_MAX_USER_DATA
  }

  /** What an offload reads and writes: the object store and the reference in the status. */
  datatype Shelf = Shelf(objects: ObjectMap, ref: Option<IgnitionOSSRef>)

  /** maybeOffloadUserData, with object store and status before and after. */
  function Offload(store: Option<IgnitionStorage>, id: Identity, userData: string, put: PutOutcome, digest: Digest,
                   shelf: Shelf): (OffloadResult, Shelf)
  {
    if |userData| <= Threshold(store) then (Ready(Inline(userData)), shelf)
    else if store.None? || store.value.ossBucket == "" then (TooLarge, shelf)
    else match Decode(userData)
      case None => (BadBase64, shelf)
      case Some(raw) =>
        var (bucket, key) := (store.value.ossBucket, IgnitionObjectKey(id));
        var objects := if put.NotStored? then shelf.objects else shelf.objects[(bucket, key) := raw];
        if !put.Stored? then (PutFailed, shelf.(objects := objects))
        else (Ready(Pointer(bucket, key, digest(raw))),
              Shelf(objects, Some(IgnitionOSSRef(bucket, store.value.ossEndpoint, key))))
  }

  class ObjectStore {
    var objects: ObjectMap

    /** The put and the signing of its URL; false when either failed. */
    method Put(bucket: string, key: string, data: seq<byte>, put: PutOutcome) returns (ok: bool)
      modifies this
      ensures ok <==> put.Stored?
      ensures objects == if put.NotStored? then old(objects) else old(objects)[(bucket, key) := data]
    {
      if put.NotStored? {
        return false;
      }
      objects := objects[(bucket, key) := data];
      ok := put.Stored?;
    }
  }

  /** The part of a machine's status that offloading writes. */
  class OffloadStatus {
    var ignitionOSS: Option<IgnitionOSSRef>
  }

  method MaybeOffloadUserData(oss: ObjectStore, status: OffloadStatus, store: Option<IgnitionStorage>, id: Identity,
                              userData: string, put: PutOutcome, digest: Digest) returns (r: OffloadResult)
    modifies oss, status
    ensures (r, Shelf(oss.objects, status.ignitionOSS)) ==
              Offload(store, id, userData, put, digest, old(Shelf(oss.objects, status.ignitionOSS)))
  {
    hide Decode, IgnitionObjectKey;
    var threshold := DEFAULT_MAX_USER_DATA;
    if store.Some? && store.value.maxUserDataBytes > 0 {
      threshold := store.value.maxUserDataBytes;
    }
    if |userData| <= threshold {
      return Ready(Inline(userData));
    }
    if store.None? || store.value.ossBucket == "" {
      return TooLarge;
    }
    var raw := Decode(userData);
    if raw.None? {
      return BadBase64;
    }
    var key := IgnitionObjectKey(id);
    var ok := oss.Put(store.value.ossBucket, key, raw.value, put);
    if !ok {
      return PutFailed;
    }
    status.ignitionOSS := Some(IgnitionOSSRef(store.value.ossBucket, store.value.ossEndpoint, key));
    return Ready(Pointer(store.value.ossBucket, key, digest(raw.value)));
  }

  /** What the node boots: the decoded payload, or the pointed object if its digest matches. */
  function Boot(payload: Payload, objects: ObjectMap, digest: Digest): Option<seq<byte>> {
    match payload
    case Inline(base64) => Decode(base64)
    case Pointer(bucket, key, hash) =>
      if (bucket, key) in objects && digest(objects[(bucket, key)]) == hash then Some(objects[(bucket, key)]) else None
  }

  /** The limit on user data: the cluster's when it sets a positive one, else that of the API. */
  function LimitOf(store: Option<IgnitionStorage>): int {
    match store
    case Some(s) => if s.maxUserDataBytes <= 0 then 16384 else s.maxUserDataBytes
    case None => 16384
  }

  predicate HasBucket(store: Option<IgnitionStorage>) { store.Some? && store.value.ossBucket != "" }

  /** A secret stays inline exactly up to this size; beyond it needs a bucket. */
  lemma InlineExactly(store: Option<IgnitionStorage>, id: Identity, raw: seq<byte>, put: PutOutcome, digest: Digest,
                      shelf: Shelf)
    ensures var r := Offload(store, id, Encode(raw), put, digest, shelf).0;
            && (r.Ready? && r.payload.Inline? <==> |raw| <= LimitOf(store) / 4 * 3)
            && (r == TooLarge <==> |raw| > LimitOf(store) / 4 * 3 && !HasBucket(store))
            && r != BadBase64
  {
    hide Decode, Encode, IgnitionObjectKey;
    Base64RoundTrip(raw);
    EncodedFits(|raw|, LimitOf(store));
  }

  /** Every other outcome, and what is stored: a secret too large for inlining, with a bucket, is put
      under the machine's own key. A put that fails is an error, the object staying if it got there;
      one that succeeds yields a pointer to the object with its digest, and records where it is.
      No other object and, but for that, no record ever changes. */
  lemma OffloadsExactly(store: Option<IgnitionStorage>, id: Identity, raw: seq<byte>, put: PutOutcome, digest: Digest,
                        shelf: Shelf)
    ensures var (r, after) := Offload(store, id, Encode(raw), put, digest, shelf);
            if |raw| <= LimitOf(store) / 4 * 3 then r == Ready(Inline(Encode(raw))) && after == shelf
            else if !HasBucket(store) then after == shelf
            else
              var (bucket, key) := (store.value.ossBucket,
                                    "capi-ignition/" + id.cluster + "/" + id.namespace + "/" + id.name + ".ign");
              && after.objects == (if put == NotStored then shelf.objects else shelf.objects[(bucket, key) := raw])
              && if put == Stored then
                   && r == Ready(Pointer(bucket, key, digest(raw)))
                   && after.ref == Some(IgnitionOSSRef(bucket, store.value.ossEndpoint, key))
                 else r == PutFailed && after.ref == shelf.ref
  {
    hide Decode, Encode;
    Base64RoundTrip(raw);
    EncodedFits(|raw|, LimitOf(store));
  }

  /** Deletion cleans up the right object: after any attempt the recorded reference is the one
      recorded before, or names exactly the object the returned pointer fetches. */
  lemma RefIsPointer(store: Option<IgnitionStorage>, id: Identity, userData: string, put: PutOutcome, digest: Digest,
                     shelf: Shelf)
    ensures var (r, after) := Offload(store, id, userData, put, digest, shelf);
            if r.Ready? && r.payload.Pointer? then
              && after.ref.Some? && after.ref.value.bucket == r.payload.bucket && after.ref.value.key == r.payload.key
              && (r.payload.bucket, r.payload.key) in after.objects
              && digest(after.objects[(r.payload.bucket, r.payload.key)]) == r.payload.hash
            else
              after.ref == shelf.ref
  {
    hide Decode, IgnitionObjectKey;
  }

  lemma EncodedFits(n: nat, threshold: nat)
    ensures (n + 2) / 3 * 4 <= threshold <==> n <= threshold / 4 * 3
  {
  }

  predicate SlashFree(s: string) { '/' !in s }

  predicate Named(id: Identity) { SlashFree(id.cluster) && SlashFree(id.namespace) && SlashFree(id.name) }

  lemma SplitUnique(a: string, b: string, s: string, t: string)
    requires SlashFree(a) && SlashFree(b) && a + "/" + s == b + "/" + t
    ensures a == b && s == t
  {
    var x, y := a + "/" + s, b + "/" + t;
    NoShorter(a, b, s, t);
    NoShorter(b, a, t, s);
    assert x[..|a|] == a && y[..|a|] == b;
    assert x[|a| + 1..] == s && y[|a| + 1..] == t;
  }

  lemma NoShorter(a: string, b: string, s: string, t: string)
    requires SlashFree(b) && a + "/" + s == b + "/" + t
    ensures |a| >= |b|
  {
    assert (a + "/" + s)[|a|] == '/';
    assert forall k :: 0 <= k < |b| ==> (b + "/" + t)[k] == b[k];
  }

  /** Different machines never share an object. */
  lemma KeysInjective(x: Identity, y: Identity)
    requires Named(x) && Named(y) && IgnitionObjectKey(x) == IgnitionObjectKey(y)
    ensures x == y
  {
    var p := "capi-ignition";
    var rx := x.cluster + "/" + (x.namespace + "/" + (x.name + ".ign"));
    var ry := y.cluster + "/" + (y.namespace + "/" + (y.name + ".ign"));
    assert IgnitionObjectKey(x) == p + "/" + rx && IgnitionObjectKey(y) == p + "/" + ry;
    assert SlashFree(p);
    SplitUnique(p, p, rx, ry);
    SplitUnique(x.cluster, y.cluster, x.namespace + "/" + (x.name + ".ign"), y.namespace + "/" + (y.name + ".ign"));
    SplitUnique(x.namespace, y.namespace, x.name + ".ign", y.name + ".ign");
    assert (x.name + ".ign")[..|x.name|] == x.name && (y.name + ".ign")[..|y.name|] == y.name;
  }

  // ---------------------------------------------------------------- whole histories

  /** One create attempt of one machine. */
  datatype Attempt = Attempt(store: Option<IgnitionStorage>, id: Identity, raw: seq<byte>, put: PutOutcome)

  function Apply(a: Attempt, digest: Digest, objects: ObjectMap): (OffloadResult, ObjectMap) {
    var (r, shelf) := Offload(a.store, a.id, Encode(a.raw), a.put, digest, Shelf(objects, None));
    (r, shelf.objects)
  }

  function ApplyAll(attempts: seq<Attempt>, digest: Digest, objects: ObjectMap): ObjectMap
    decreases |attempts|
  {
    if attempts == [] then objects else ApplyAll(attempts[1..], digest, Apply(attempts[0], digest, objects).1)
  }

  /** The payload keeps booting the secret while other machines, and retries of this one with
      the same secret, go on offloading. */
  lemma {:induction false} KeepsBooting(payload: Payload, id: Identity, raw: seq<byte>, later: seq<Attempt>,
                                        digest: Digest, objects: ObjectMap)
    requires Named(id)
    requires forall i :: 0 <= i < |later| ==> Named(later[i].id) && (later[i].id == id ==> later[i].raw == raw)
    requires Boot(payload, objects, digest) == Some(raw)
    requires payload.Pointer? ==> payload.key == IgnitionObjectKey(id)
    ensures Boot(payload, ApplyAll(later, digest, objects), digest) == Some(raw)
    decreases |later|
  {
    hide Decode, IgnitionObjectKey;
    if later != [] {
      var a := later[0];
      Base64RoundTrip(a.raw);
      if payload.Pointer? && IgnitionObjectKey(a.id) == payload.key {
        KeysInjective(a.id, id);
      }
      KeepsBooting(payload, id, raw, later[1..], digest, Apply(a, digest, objects).1);
    }
  }

  /** Meaning preserved: whenever a create attempt yields a payload, the node boots exactly the
      secret's bytes, at once and after any later attempts, provided secrets are fixed. */
  lemma BootsTheSecret(a: Attempt, later: seq<Attempt>, digest: Digest, objects: ObjectMap)
    requires Named(a.id)
    requires forall i :: 0 <= i < |later| ==> Named(later[i].id) && (later[i].id == a.id ==> later[i].raw == a.raw)
    requires Apply(a, digest, objects).0.Ready?
    ensures var (r, after) := Apply(a, digest, objects);
            Boot(r.payload, ApplyAll(later, digest, after), digest) == Some(a.raw)
  {
    hide Decode, IgnitionObjectKey;
    Base64RoundTrip(a.raw);
    var (r, after) := Apply(a, digest, objects);
    KeepsBooting(r.payload, a.id, a.raw, later, digest, after);
  }

  /** It fails closed: with a collision-free digest, whatever the store holds later, the node
      boots the secret or nothing. */
  lemma NothingElseBoots(a: Attempt, digest: Digest, objects: ObjectMap, tampered: ObjectMap)
    requires forall x, y :: digest(x) == digest(y) ==> x == y
    requires Apply(a, digest, objects).0.Ready?
    ensures var booted := Boot(Apply(a, digest, objects).0.payload, tampered, digest);
            booted == Some(a.raw) || booted.None?
  {
    hide Decode, IgnitionObjectKey;
    Base64RoundTrip(a.raw);
  }
}
