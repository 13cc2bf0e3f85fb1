/**
 * The byte encodings that bind a record to its place: the additional data of a
 * sealed value and the hash input of a record key. Both are injective, so
 * ideal sealing and hashing keep different places apart.
 */
module Encoding {
  import opened Prelude

  type Bytes = seq<Byte>

  // ---- fixed-width little-endian integers -----------------------------------------------------

  function Pow256(k: nat): nat { if k == 0 then 1 else 256 * Pow256(k - 1) }

  function Le(n: nat, width: nat): (b: Bytes)
    ensures |b| == width
    decreases width
  {
    if width == 0 then [] else [n % 256] + Le(n / 256, width - 1)
  }

  ghost function FromLe(b: Bytes): nat
    decreases |b|
  {
    if b == [] then 0 else b[0] + 256 * FromLe(b[1..])
  }

  lemma {:induction false} LeRoundTrip(n: nat, width: nat)
    requires n < Pow256(width)
    ensures FromLe(Le(n, width)) == n
    decreases width
  {
    if width > 0 {
      assert n / 256 < Pow256(width - 1);
      LeRoundTrip(n / 256, width - 1);
      assert Le(n, width)[1..] == Le(n / 256, width - 1);
    }
  }

  lemma LeInjective(a: nat, b: nat, width: nat)
    requires a < Pow256(width) && b < Pow256(width) && Le(a, width) == Le(b, width)
    ensures a == b
  {
    LeRoundTrip(a, width);
    LeRoundTrip(b, width);
  }

  lemma Widths()
    ensures Pow256(1) == 0x100 && Pow256(2) == 0x1_0000 && Pow256(4) == 0x1_0000_0000
  {
    assert Pow256(3) == 0x100_0000;
  }

  lemma Split(a: Bytes, x: Bytes, b: Bytes, y: Bytes)
    requires |a| == |b| && a + x == b + y
    ensures a == b && x == y
  {
    assert a == (a + x)[..|a|] && b == (b + y)[..|b|];
    assert x == (a + x)[|a|..] && y == (b + y)[|b|..];
  }

  function Prefixed(a: Bytes, width: nat): (b: Bytes)
    ensures |b| == width + |a| && b[..width] == Le(|a|, width) && b[width..] == a
  {
    Le(|a|, width) + a
  }

  /** A length prefix separates what follows it, when the length fits the prefix. */
  lemma PrefixSplit(a: Bytes, x: Bytes, b: Bytes, y: Bytes, width: nat)
    requires |a| < Pow256(width) && |b| < Pow256(width)
    requires Prefixed(a, width) + x == Prefixed(b, width) + y
    ensures a == b && x == y
  {
    assert Prefixed(a, width)[..width] == (Prefixed(a, width) + x)[..width];
    assert Prefixed(b, width)[..width] == (Prefixed(b, width) + y)[..width];
    LeInjective(|a|, |b|, width);
    Split(Prefixed(a, width), x, Prefixed(b, width), y);
    assert a == Prefixed(a, width)[width..] && b == Prefixed(b, width)[width..];
  }

  function ByteOf(c: char): Byte
    requires c as nat < 256
  {
    c as nat
  }

  function Ascii(s: string): (b: Bytes)
    requires forall i :: 0 <= i < |s| ==> s[i] as nat < 256
    ensures |b| == |s| && forall i :: 0 <= i < |s| ==> b[i] == s[i] as nat
  {
    seq(|s|, i requires 0 <= i < |s| => ByteOf(s[i]))
  }

  // ---- additional data ------------------------------------------------------------------------

  const AAD_LABEL: Bytes := Ascii("dioptron/v1")

  datatype Context = Context(schema: nat, kind: Byte, keyId: nat, keyspace: Bytes, recordKey: Bytes)

  /** The integer fields are 32 bits wide. */
  predicate InRange(c: Context) { c.schema < 0x1_0000_0000 && c.keyId < 0x1_0000_0000 }

  /** A component of at most 65535 bytes behind its 16-bit length. */
  method PushPrefixed(out: Bytes, component: Bytes) returns (r: Option<Bytes>)
    ensures r == if |component| < 0x1_0000 then Some(out + Prefixed(component, 2)) else None
  {
    if |component| >= 0x1_0000 {
      return None;
    }
    r := Some(out + Le(|component|, 2) + component);
    assert r.value == out + Prefixed(component, 2);
  }

  /** The fixed-width fields. */
  function Head(c: Context): Bytes { AAD_LABEL + Le(c.schema, 4) + [c.kind] + Le(c.keyId, 4) }

  function Aad(c: Context): Option<Bytes> {
    if |c.keyspace| >= 0x1_0000 || |c.recordKey| >= 0x1_0000 then None
    else Some(Head(c) + Prefixed(c.keyspace, 2) + Prefixed(c.recordKey, 2))
  }

  method BuildAad(c: Context) returns (r: Option<Bytes>)
    ensures r == Aad(c)
  {
    var aad := AAD_LABEL;
    aad := aad + Le(c.schema, 4);
    aad := aad + [c.kind];
    aad := aad + Le(c.keyId, 4);
    var named := PushPrefixed(aad, c.keyspace);
    if named.None? {
      return None;
    }
    r := PushPrefixed(named.value, c.recordKey);
  }

  lemma HeadInjective(a: Context, b: Context)
    requires InRange(a) && InRange(b) && Head(a) == Head(b)
    ensures a.schema == b.schema && a.kind == b.kind && a.keyId == b.keyId
  {
    Widths();
    Split(AAD_LABEL + Le(a.schema, 4) + [a.kind], Le(a.keyId, 4), AAD_LABEL + Le(b.schema, 4) + [b.kind],
          Le(b.keyId, 4));
    Split(AAD_LABEL + Le(a.schema, 4), [a.kind], AAD_LABEL + Le(b.schema, 4), [b.kind]);
    Split(AAD_LABEL, Le(a.schema, 4), AAD_LABEL, Le(b.schema, 4));
    LeInjective(a.schema, b.schema, 4);
    LeInjective(a.keyId, b.keyId, 4);
    assert [a.kind][0] == [b.kind][0];
  }

  lemma Assoc(a: Bytes, b: Bytes, c: Bytes)
    ensures a + b + c == a + (b + c)
  {
  }

  /** Different places give different additional data. */
  lemma AadInjective(a: Context, b: Context)
    requires InRange(a) && InRange(b) && Aad(a).Some? && Aad(a) == Aad(b)
    ensures a == b
  {
    Widths();
    Assoc(Head(a), Prefixed(a.keyspace, 2), Prefixed(a.recordKey, 2));
    Assoc(Head(b), Prefixed(b.keyspace, 2), Prefixed(b.recordKey, 2));
    Split(Head(a), Prefixed(a.keyspace, 2) + Prefixed(a.recordKey, 2), Head(b),
          Prefixed(b.keyspace, 2) + Prefixed(b.recordKey, 2));
    HeadInjective(a, b);
    PrefixSplit(a.keyspace, Prefixed(a.recordKey, 2), b.keyspace, Prefixed(b.recordKey, 2), 2);
    assert a.recordKey == Prefixed(a.recordKey, 2)[2..] && b.recordKey == Prefixed(b.recordKey, 2)[2..];
  }

  // ---- record-key inputs ---------------------------------------------------------------------------

  const KEY_LABEL: Bytes := Ascii("dioptron/v1/key/")

  /** The length a part's prefix carries: clamped at the 32-bit maximum. */
  function PartLen(part: Bytes): nat { if |part| < 0x1_0000_0000 then |part| else 0xFFFF_FFFF }

  function PartsText(parts: seq<Bytes>): Bytes
    decreases |parts|
  {
    if parts == [] then [] else Le(PartLen(parts[0]), 4) + parts[0] + PartsText(parts[1..])
  }

  function KeyInput(domain: Bytes, parts: seq<Bytes>): Bytes { KEY_LABEL + domain + PartsText(parts) }

  method BuildKeyInput(domain: Bytes, parts: seq<Bytes>) returns (input: Bytes)
    ensures input == KeyInput(domain, parts)
  {
    input := KEY_LABEL;
    input := input + domain;
    for i := 0 to |parts|
      invariant KeyInput(domain, parts) == input + PartsText(parts[i..])
    {
      assert parts[i..][0] == parts[i] && parts[i..][1..] == parts[i + 1..];
      input := input + Le(PartLen(parts[i]), 4);
      input := input + parts[i];
    }
  }

  ghost predicate PartsFit(parts: seq<Bytes>) { forall i :: 0 <= i < |parts| ==> |parts[i]| < 0x1_0000_0000 }

  lemma {:induction false} PartsInjective(a: seq<Bytes>, b: seq<Bytes>)
    requires PartsFit(a) && PartsFit(b) && PartsText(a) == PartsText(b)
    ensures a == b
    decreases |a|
  {
    if a != [] && b != [] {
      Widths();
      assert Prefixed(a[0], 4) == Le(PartLen(a[0]), 4) + a[0] && Prefixed(b[0], 4) == Le(PartLen(b[0]), 4) + b[0];
      PrefixSplit(a[0], PartsText(a[1..]), b[0], PartsText(b[1..]), 4);
      PartsInjective(a[1..], b[1..]);
      assert a == [a[0]] + a[1..] && b == [b[0]] + b[1..];
    }
  }

  /** Neither domain is a proper prefix of the other. */
  ghost predicate Separate(a: Bytes, b: Bytes) { a <= b || b <= a ==> a == b }

  lemma Prefixes(a: Bytes, b: Bytes, x: Bytes)
    requires a <= x && b <= x
    ensures a <= b || b <= a
  {
    if |a| <= |b| { assert a == b[..|a|]; } else { assert b == a[..|b|]; }
  }

  /** With domains that are not prefixes of each other, equal inputs have equal domains and parts. */
  lemma KeyInputInjective(domain: Bytes, parts: seq<Bytes>, domain': Bytes, parts': seq<Bytes>)
    requires Separate(domain, domain') && PartsFit(parts) && PartsFit(parts')
    requires KeyInput(domain, parts) == KeyInput(domain', parts')
    ensures domain == domain' && parts == parts'
  {
    Assoc(KEY_LABEL, domain, PartsText(parts));
    Assoc(KEY_LABEL, domain', PartsText(parts'));
    Split(KEY_LABEL, domain + PartsText(parts), KEY_LABEL, domain' + PartsText(parts'));
    DomainSplit(domain, PartsText(parts), domain', PartsText(parts'));
    PartsInjective(parts, parts');
  }

  lemma DomainSplit(a: Bytes, x: Bytes, b: Bytes, y: Bytes)
    requires Separate(a, b) && a + x == b + y
    ensures a == b && x == y
  {
    assert a <= a + x && b <= b + y;
    Prefixes(a, b, a + x);
    Split(a, x, b, y);
  }

  // ---- the key families --------------------------------------------------------------------------------

  type Id16 = b: Bytes | |b| == 16 witness seq(16, i => 0)

  type Id32 = b: Bytes | |b| == 32 witness seq(32, i => 0)

  /** Keys of records sealed under the store keys. */
  datatype StoreKey =
    | TenantKey(tenant: Id16) | DataKey(tenant: Id16, keyId: nat) | AddressKeys(tenant: Id16) | RekeyKey(tenant: Id16)
    | TombstoneKey(tenant: Id16) | GrantKey(grant: Id16) | RevocationKey(grant: Id16) | SessionKey(session: Id16)
    | InvocationKey(invocation: Id16) | GrantLedger(grant: Id16) 
    | SessionLedger(session: Id16) | TenantLedger(tenant: Id16)
    | LocatorKey(artifact: Id16)
  {
    function Domain(): string {
      match this
      case TenantKey(_) => "tenant"
      case DataKey(_, _) => "data-key"
      case AddressKeys(_) => "address-keys"
      case RekeyKey(_) => "rekey"
      case TombstoneKey(_) => "tombstone"
      case GrantKey(_) => "grant"
      case RevocationKey(_) => "revocation"
      case SessionKey(_) => "session"
      case InvocationKey(_) => "invocation"
      case GrantLedger(_) => "ledger/grant"
      case SessionLedger(_) => "ledger/session"
      case TenantLedger(_) => "ledger/tenant"
      case LocatorKey(_) => "locator"
    }

    function Parts(): seq<Bytes> {
      match this
      case TenantKey(t) => [t]
      case DataKey(t, k) => [t, Le(k, 4)]
      case AddressKeys(t) => [t]
      case RekeyKey(t) => [t]
      case TombstoneKey(t) => [t]
      case GrantKey(g) => [g]
      case RevocationKey(g) => [g]
      case SessionKey(s) => [s]
      case InvocationKey(i) => [i]
      case GrantLedger(g) => [g]
      case SessionLedger(s) => [s]
      case TenantLedger(t) => [t]
      case LocatorKey(a) => [a]
    }

    /** The first three letters and, for ledgers, the eighth tell the domains apart. */
    function Mark(): (char, char, char, char) {
      var d := Domain();
      (d[0], d[1], d[2], if d[0] == 'l' && d[1] == 'e' then d[7] else ' ')
    }
  }

  /** Keys of records sealed under one tenant's keys; the capability is its name. */
  datatype TenantScoped =
    | IdemKey(tenant: Id16, capability: Bytes, key: Bytes) | ArtifactKey(tenant: Id16, artifact: Id16)
    | PendingKey(tenant: Id16, invocation: Id16) | BlobKey(tenant: Id16, address: Id32)
    | SessionIndexKey(owner: Id16, session: Id16) | AuditKey(tenant: Id16)
  {
    function Domain(): string {
      match this
      case IdemKey(_, _, _) => "idem"
      case ArtifactKey(_, _) => "artifact"
      case PendingKey(_, _) => "pending"
      case BlobKey(_, _) => "blob"
      case SessionIndexKey(_, _) => "session-index"
      case AuditKey(_) => "audit"
    }

    function Parts(): seq<Bytes> {
      match this
      case IdemKey(t, c, k) => [t, c, k]
      case ArtifactKey(t, a) => [t, a]
      case PendingKey(t, i) => [t, i]
      case BlobKey(t, a) => [t, a]
      case SessionIndexKey(o, s) => [o, s]
      case AuditKey(t) => [t]
    }
  }

  lemma StoreDomainLetters(k: StoreKey)
    ensures forall i :: 0 <= i < |k.Domain()| ==> k.Domain()[i] as nat < 256
    ensures |k.Domain()| >= 5
  {
  }

  /** Store domains are prefix-free. */
  lemma StorePrefixFree(a: StoreKey, b: StoreKey)
    requires a.Domain() <= b.Domain()
    ensures a.Domain() == b.Domain()
  {
    assert a.Mark() == b.Mark();
    MarkDecides(a, b);
  }

  lemma MarkDecides(a: StoreKey, b: StoreKey)
    requires a.Mark() == b.Mark()
    ensures a.Domain() == b.Domain()
  {
    MarkOf(a);
    MarkOf(b);
  }

  ghost function MarkText(k: StoreKey): (char, char, char, char) {
    match k
    case TenantKey(_) => ('t', 'e', 'n', ' ')
    case DataKey(_, _) => ('d', 'a', 't', ' ')
    case AddressKeys(_) => ('a', 'd', 'd', ' ')
    case RekeyKey(_) => ('r', 'e', 'k', ' ')
    case TombstoneKey(_) => ('t', 'o', 'm', ' ')
    case GrantKey(_) => ('g', 'r', 'a', ' ')
    case RevocationKey(_) => ('r', 'e', 'v', ' ')
    case SessionKey(_) => ('s', 'e', 's', ' ')
    case InvocationKey(_) => ('i', 'n', 'v', ' ')
    case GrantLedger(_) => ('l', 'e', 'd', 'g')
    case SessionLedger(_) => ('l', 'e', 'd', 's')
    case TenantLedger(_) => ('l', 'e', 'd', 't')
    case LocatorKey(_) => ('l', 'o', 'c', ' ')
  }

  lemma MarkOf(k: StoreKey)
    ensures k.Mark() == MarkText(k)
  {
  }

  ghost predicate StoreKeyOk(k: StoreKey) { k.DataKey? ==> k.keyId < 0x1_0000_0000 }

  function StoreInput(k: StoreKey): Bytes {
    StoreDomainLetters(k);
    KeyInput(Ascii(k.Domain()), k.Parts())
  }

  lemma AsciiPrefix(a: string, b: string)
    requires forall i :: 0 <= i < |a| ==> a[i] as nat < 256
    requires forall i :: 0 <= i < |b| ==> b[i] as nat < 256
    requires Ascii(a) <= Ascii(b)
    ensures a <= b
  {
    forall i | 0 <= i < |a| ensures a[i] == b[i] { assert Ascii(a)[i] == Ascii(b)[i]; }
  }

  lemma StoreDomains(a: StoreKey, b: StoreKey)
    ensures forall i :: 0 <= i < |a.Domain()| ==> a.Domain()[i] as nat < 256
    ensures forall i :: 0 <= i < |b.Domain()| ==> b.Domain()[i] as nat < 256
    ensures Ascii(a.Domain()) <= Ascii(b.Domain()) ==> MarkText(a) == MarkText(b) && a.Domain() == b.Domain()
  {
    StoreDomainLetters(a);
    StoreDomainLetters(b);
    if Ascii(a.Domain()) <= Ascii(b.Domain()) {
      AsciiPrefix(a.Domain(), b.Domain());
      StorePrefixFree(a, b);
      MarkOf(a);
      MarkOf(b);
    }
  }

  lemma StoreFields(a: StoreKey, b: StoreKey)
    requires StoreKeyOk(a) && StoreKeyOk(b) && MarkText(a) == MarkText(b) && a.Parts() == b.Parts()
    ensures a == b
  {
    Widths();
    assert a.Parts()[0] == b.Parts()[0];
    if a.DataKey? { assert a.Parts()[1] == b.Parts()[1]; LeInjective(a.keyId, b.keyId, 4); }
  }

  /** Different store records have different key inputs. */
  lemma StoreInputInjective(a: StoreKey, b: StoreKey)
    requires StoreKeyOk(a) && StoreKeyOk(b) && StoreInput(a) == StoreInput(b)
    ensures a == b
  {
    StoreDomains(a, b);
    StoreDomains(b, a);
    StorePartsFit(a);
    StorePartsFit(b);
    KeyInputInjective(Ascii(a.Domain()), a.Parts(), Ascii(b.Domain()), b.Parts());
    StoreFields(a, b);
  }

  lemma StorePartsFit(k: StoreKey)
    ensures PartsFit(k.Parts())
  {
  }

  lemma TenantDomainLetters(k: TenantScoped)
    ensures forall i :: 0 <= i < |k.Domain()| ==> k.Domain()[i] as nat < 256
    ensures |k.Domain()| >= 4 && k.Domain()[0] == TenantMark(k).0 && k.Domain()[1] == TenantMark(k).1
  {
  }

  ghost function TenantMark(k: TenantScoped): (char, char) {
    match k
    case IdemKey(_, _, _) => ('i', 'd')
    case ArtifactKey(_, _) => ('a', 'r')
    case PendingKey(_, _) => ('p', 'e')
    case BlobKey(_, _) => ('b', 'l')
    case SessionIndexKey(_, _) => ('s', 'e')
    case AuditKey(_) => ('a', 'u')
  }

  function TenantInput(k: TenantScoped): Bytes {
    TenantDomainLetters(k);
    KeyInput(Ascii(k.Domain()), k.Parts())
  }

  ghost predicate TenantKeyOk(k: TenantScoped)
  {
    k.IdemKey? ==> |k.capability| < 0x1_0000_0000 && |k.key| < 0x1_0000_0000
  }

  lemma TenantDomains(a: TenantScoped, b: TenantScoped)
    ensures forall i :: 0 <= i < |a.Domain()| ==> a.Domain()[i] as nat < 256
    ensures forall i :: 0 <= i < |b.Domain()| ==> b.Domain()[i] as nat < 256
    ensures Ascii(a.Domain()) <= Ascii(b.Domain()) ==> TenantMark(a) == TenantMark(b)
  {
    TenantDomainLetters(a);
    TenantDomainLetters(b);
    if Ascii(a.Domain()) <= Ascii(b.Domain()) { AsciiPrefix(a.Domain(), b.Domain()); }
  }

  /** Different records of one tenant have different key inputs. */
  lemma TenantInputInjective(a: TenantScoped, b: TenantScoped)
    requires TenantKeyOk(a) && TenantKeyOk(b) && TenantInput(a) == TenantInput(b)
    ensures a == b
  {
    TenantDomains(a, b);
    TenantDomains(b, a);
    KeyInputInjective(Ascii(a.Domain()), a.Parts(), Ascii(b.Domain()), b.Parts());
    assert |a.Parts()| == |b.Parts()|;
    assert a.Parts()[0] == b.Parts()[0];
    assert |a.Parts()| > 1 ==> a.Parts()[1] == b.Parts()[1];
    assert |a.Parts()| > 2 ==> a.Parts()[2] == b.Parts()[2];
  }
}
