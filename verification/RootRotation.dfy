/**
 * Root key rotation: one transaction that moves every store-sealed record and
 * wrapped key to the keys of the next root key. Sealing, wrapping and keyed
 * hashing are ideal: a value opens under the root generation, kind and record
 * key it was made with, and different names hash to different record keys.
 */
module RootRotation {
  import opened Prelude
  import opened Budget
  import opened Vault

  // ---- logical names and contents ------------------------------------------------------

  datatype Space =
    | Tenants | Grants | Revocations | Sessions | Invocations | AuditStubs | Rekeys | Artifacts | Ledgers | Keys
    | Private(n: nat)

  /** What a stored entry is about. */
  datatype Name =
    | TenantN(tenant: TenantId) | TombstoneN(tenant: TenantId)
    | GrantN(grant: GrantId) | RevocationN(grant: GrantId)
    | SessionN(session: SessionId) | InvocationN(invocation: InvocationId)
    | StubN(seqNo: nat) | RekeyN(tenant: TenantId) | LocatorN(artifact: Id)
    | LedgerN(ledger: LedgerRef)
    | DataKeyN(tenant: TenantId, key: KeyId) | AddressN(tenant: TenantId)
    | TenantSealedN(space: Space, at: nat)
  {
    function Home(): Space {
      match this
      case TenantN(_) => Tenants
      case TombstoneN(_) => Tenants
      case GrantN(_) => Grants
      case RevocationN(_) => Revocations
      case SessionN(_) => Sessions
      case InvocationN(_) => Invocations
      case StubN(_) => AuditStubs
      case RekeyN(_) => Rekeys
      case LocatorN(_) => Artifacts
      case LedgerN(_) => Ledgers
      case DataKeyN(_, _) => Keys
      case AddressN(_) => Keys
      case TenantSealedN(space, _) => space
    }
  }

  /** The fields the rotation reads, and the rest of the record. */
  datatype Body = Row(rest: nat) | TenantRow(dataKey: KeyId, rest: nat) | RekeyRow(from: KeyId, done: bool, rest: nat)

  type Content = map<Name, Body>

  ghost predicate WellTyped(c: Content) {
    forall n :: n in c ==>
      match n
      case TenantN(_) => c[n].TenantRow?
      case RekeyN(_) => c[n].RekeyRow?
      case TenantSealedN(space, _) => space.Artifacts? || space.Private?
      case _ => c[n].Row?
  }

  // ---- the physical form -----------------------------------------------------------------

  /** A record key: hashed under a root generation's index subkey, a bare sequence, or a tenant's own. */
  datatype RecordKey = Hashed(root: nat, name: Name) | Sequence(n: nat) | TenantKeyed(n: nat)

  datatype Spot = Spot(space: Space, key: RecordKey)

  /** A ledger's plaintext does not name its owner; every other store-sealed plaintext carries its ids. */
  datatype Plain = Named(name: Name, body: Body) | Anonymous(body: Body)

  datatype Value =
    | StoreSealed(root: nat, at: RecordKey, plain: Plain)
    | Wrapped(root: nat, tenant: TenantId, material: Body)
    | TenantSealed(body: Body)

  type Disk = map<Spot, Value>

  function KeyOf(root: nat, n: Name): RecordKey {
    match n
    case StubN(i) => Sequence(i)
    case TenantSealedN(_, k) => TenantKeyed(k)
    case _ => Hashed(root, n)
  }

  function SpotOf(root: nat, n: Name): Spot { Spot(n.Home(), KeyOf(root, n)) }

  function NameAt(s: Spot): Name {
    match s.key
    case Hashed(_, n) => n
    case Sequence(i) => StubN(i)
    case TenantKeyed(k) => TenantSealedN(s.space, k)
  }

  function ValueOf(root: nat, n: Name, b: Body): Value {
    match n
    case TenantSealedN(_, _) => TenantSealed(b)
    case DataKeyN(t, _) => Wrapped(root, t, b)
    case AddressN(t) => Wrapped(root, t, b)
    case LedgerN(_) => StoreSealed(root, KeyOf(root, n), Anonymous(b))
    case _ => StoreSealed(root, KeyOf(root, n), Named(n, b))
  }

  /** `disk` holds exactly the content `c`, keyed and sealed under `root`. */
  ghost predicate Encodes(disk: Disk, c: Content, root: nat) {
    && (forall n {:trigger SpotOf(root, n)} :: n in c ==>
          SpotOf(root, n) in disk && disk[SpotOf(root, n)] == ValueOf(root, n, c[n]))
    && (forall s {:trigger NameAt(s)} :: s in disk ==> NameAt(s) in c && SpotOf(root, NameAt(s)) == s)
  }

  /** Reading a record by its logical name. */
  function Read(disk: Disk, root: nat, n: Name): Option<Body> {
    var s := SpotOf(root, n);
    if s !in disk then None else
      match disk[s]
      case StoreSealed(r, at, plain) => if r == root && at == s.key then Some(plain.body) else None
      case Wrapped(r, t, material) =>
        if r == root && (n.DataKeyN? || n.AddressN?) && t == n.tenant then Some(material) else None
      case TenantSealed(b) => Some(b)
  }

  /** Reading an encoding gives back its content. */
  lemma ReadsContent(disk: Disk, c: Content, root: nat, n: Name)
    requires Encodes(disk, c, root)
    ensures Read(disk, root, n) == if n in c then Some(c[n]) else None
  {
    var s := SpotOf(root, n);
    assert NameAt(s) == n;
  }

  // ---- moves --------------------------------------------------------------------------------

  datatype Move = Move(source: Spot, target: Spot, value: Value)

  ghost function MoveFor(c: Content, root: nat, next: nat, n: Name): Move
    requires n in c
  {
    Move(SpotOf(root, n), SpotOf(next, n), ValueOf(next, n, c[n]))
  }

  /** `moves` holds exactly the moves of `names`. */
  ghost predicate Stages(moves: seq<Move>, c: Content, root: nat, next: nat, names: set<Name>) {
    && names <= c.Keys
    && (forall m {:trigger NameAt(m.source)} :: m in moves ==>
          NameAt(m.source) in names && m == MoveFor(c, root, next, NameAt(m.source)))
    && (forall n {:trigger MoveFor(c, root, next, n)} :: n in names ==> MoveFor(c, root, next, n) in moves)
  }

  /** Every removal, then every insertion. */
  method ApplyMoves(disk: Disk, moves: seq<Move>) returns (r: Disk)
    ensures forall s :: s in r <==> Inserted(moves, s) || (s in disk && !Removed(moves, s))
    ensures forall s :: s in r && !Inserted(moves, s) ==> r[s] == disk[s]
    ensures forall s :: s in r && Inserted(moves, s) ==> exists m :: m in moves && m.target == s && r[s] == m.value
  {
    r := disk;
    for i := 0 to |moves|
      invariant forall s :: s in r <==> s in disk && !Removed(moves[..i], s)
      invariant forall s :: s in r ==> r[s] == disk[s]
    {
      assert moves[..i + 1] == moves[..i] + [moves[i]];
      r := r - {moves[i].source};
    }
    assert moves[..|moves|] == moves;
    ghost var kept := r;
    for i := 0 to |moves|
      invariant forall s :: s in r <==> Inserted(moves[..i], s) || s in kept
      invariant forall s :: s in r && !Inserted(moves[..i], s) ==> r[s] == disk[s]
      invariant forall s :: s in r && Inserted(moves[..i], s) ==>
                  exists m :: m in moves[..i] && m.target == s && r[s] == m.value
    {
      assert moves[..i + 1] == moves[..i] + [moves[i]];
      r := r[moves[i].target := moves[i].value];
    }
  }

  ghost predicate Removed(moves: seq<Move>, s: Spot) { exists m :: m in moves && m.source == s }

  ghost predicate Inserted(moves: seq<Move>, s: Spot) { exists m :: m in moves && m.target == s }

  /** The names the rotation moves: everything but the tenant-sealed records. */
  ghost function Movable(c: Content): set<Name> { set n | n in c && !n.TenantSealedN? }

  /** Applying a full set of moves turns an encoding under one root into the same content under the next. */
  lemma MovesEncode(disk: Disk, c: Content, root: nat, next: nat, moves: seq<Move>, r: Disk)
    requires Encodes(disk, c, root) && Stages(moves, c, root, next, Movable(c))
    requires forall s :: s in r <==> Inserted(moves, s) || (s in disk && !Removed(moves, s))
    requires forall s :: s in r && !Inserted(moves, s) ==> r[s] == disk[s]
    requires forall s :: s in r && Inserted(moves, s) ==> exists m :: m in moves && m.target == s && r[s] == m.value
    ensures Encodes(r, c, next)
  {
    forall n {:trigger SpotOf(next, n)} | n in c
      ensures SpotOf(next, n) in r && r[SpotOf(next, n)] == ValueOf(next, n, c[n])
    {
      var s := SpotOf(next, n);
      if n in Movable(c) {
        assert MoveFor(c, root, next, n) in moves;
        assert Inserted(moves, s);
        var m :| m in moves && m.target == s && r[s] == m.value;
        assert NameAt(m.source) == NameAt(m.target) == n;
      } else {
        assert s == SpotOf(root, n);
        forall m | m in moves ensures m.source != s && m.target != s { assert NameAt(m.source) in Movable(c); }
      }
    }
    forall s {:trigger NameAt(s)} | s in r ensures NameAt(s) in c && SpotOf(next, NameAt(s)) == s {
      if Inserted(moves, s) {
        var m :| m in moves && m.target == s;
        assert NameAt(m.source) == NameAt(m.target);
      } else {
        var n := NameAt(s);
        assert SpotOf(root, n) == s;
        if n in Movable(c) {
          assert MoveFor(c, root, next, n) in moves;
          assert Removed(moves, s);
        }
      }
    }
  }

  // ---- staging ---------------------------------------------------------------------------------

  datatype Kind =
    | TenantK | TombstoneK | GrantK | RevocationK | SessionK | InvocationK | StubK | RekeyK | LocatorK
    | LedgerK | OtherK

  function KindOf(plain: Plain): Kind {
    match plain
    case Anonymous(_) => LedgerK
    case Named(n, _) =>
      match n
      case TenantN(_) => TenantK
      case TombstoneN(_) => TombstoneK
      case GrantN(_) => GrantK
      case RevocationN(_) => RevocationK
      case SessionN(_) => SessionK
      case InvocationN(_) => InvocationK
      case StubN(_) => StubK
      case RekeyN(_) => RekeyK
      case LocatorN(_) => LocatorK
      case _ => OtherK
  }

  datatype Defect = Unopened(space: Space) | UnownedLedger | DataKeyMissing | UnownedKey | Unwrappable

  /** Opens a value read at `s` as one of `kinds` under `root`. */
  function TryOpen(root: nat, kinds: set<Kind>, s: Spot, v: Value): Option<Plain> {
    if v.StoreSealed? && v.root == root && v.at == s.key && KindOf(v.plain) in kinds then Some(v.plain) else None
  }

  /** The kinds a keyspace of named records holds. */
  function KindsOf(space: Space): set<Kind> {
    match space
    case Tenants => {TenantK, TombstoneK}
    case Grants => {GrantK}
    case Revocations => {RevocationK}
    case Sessions => {SessionK}
    case Invocations => {InvocationK}
    case AuditStubs => {StubK}
    case Rekeys => {RekeyK}
    case Artifacts => {LocatorK}
    case _ => {}
  }

  ghost function InSpace(c: Content, space: Space): set<Name> { set n | n in Movable(c) && n.Home() == space }

  /** The moves and records staged so far are exactly those of `names`. */
  ghost predicate Staged(moves: seq<Move>, records: map<Name, Body>, c: Content, root: nat, next: nat, names: set<Name>)
  {
    && Stages(moves, c, root, next, names)
    && records.Keys == names
    && (forall n :: n in records ==> records[n] == c[n])
  }

  /** The move of one entry of a keyspace of named records; only `Artifacts` also holds entries that stay. */
  function EntryMove(space: Space, root: nat, next: nat, s: Spot, v: Value): Result<Option<(Move, Name, Body)>, Defect>
  {
    match TryOpen(root, KindsOf(space), s, v)
    case Some(Named(n, b)) =>
      Ok(Some((Move(s, Spot(space, KeyOf(next, n)), StoreSealed(next, KeyOf(next, n), Named(n, b))), n, b)))
    case _ => if space.Artifacts? then Ok(None) else Err(Unopened(space))
  }

  method MoveSpace(disk: Disk, space: Space, root: nat, next: nat, ghost c: Content)
    returns (r: Result<seq<Move>, Defect>, records: map<Name, Body>)
    ensures Encodes(disk, c, root) && WellTyped(c) && KindsOf(space) != {} ==>
              r.Ok? && Staged(r.value, records, c, root, next, InSpace(c, space))
  {
    ghost var good := Encodes(disk, c, root) && WellTyped(c) && KindsOf(space) != {};
    var moves: seq<Move> := [];
    records := map[];
    var rest := set s | s in disk && s.space == space;
    if good { SpaceStart(disk, c, space, root, next); }
    while rest != {}
      invariant forall s :: s in rest ==> s in disk && s.space == space
      invariant good ==> SpaceSoFar(disk, c, space, root, next, rest, moves, records)
      decreases |rest|
    {
      var s :| s in rest;
      var defect;
      defect, moves, records := MoveEntry(disk, space, s, root, next, moves, records, c, rest);
      if defect.Some? {
        return Err(defect.value), map[];
      }
      rest := rest - {s};
    }
    if good { SpaceDone(disk, c, space, root, next, moves, records); }
    return Ok(moves), records;
  }

  ghost predicate SpaceSoFar(disk: Disk, c: Content, space: Space, root: nat, next: nat, rest: set<Spot>,
                             moves: seq<Move>,
                             records: map<Name, Body>)
  {
    && Encodes(disk, c, root) && WellTyped(c) && KindsOf(space) != {}
    && Staged(moves, records, c, root, next, Unvisited(c, space, root, rest))
  }

  method MoveEntry(disk: Disk, space: Space, s: Spot, root: nat, next: nat, moves: seq<Move>, records: map<Name, Body>,
                   ghost c: Content, ghost rest: set<Spot>)
    returns (r: Option<Defect>, staged: seq<Move>, found: map<Name, Body>)
    requires s in disk && s.space == space && s in rest
    ensures SpaceSoFar(disk, c, space, root, next, rest, moves, records) ==>
              r.None? && SpaceSoFar(disk, c, space, root, next, rest - {s}, staged, found)
  {
    if SpaceSoFar(disk, c, space, root, next, rest, moves, records) {
      EntryStaged(disk, space, root, next, c, moves, records, rest, s);
    }
    var entry := EntryMove(space, root, next, s, disk[s]);
    if entry.Err? {
      return Some(entry.error), moves, records;
    }
    if entry.value.None? {
      return None, moves, records;
    }
    return None, moves + [entry.value.value.0], records[entry.value.value.1 := entry.value.value.2];
  }

  lemma EntryStaged(disk: Disk, space: Space, root: nat, next: nat, c: Content, moves: seq<Move>,
                    records: map<Name, Body>,
                    rest: set<Spot>, s: Spot)
    requires Encodes(disk, c, root) && WellTyped(c) && KindsOf(space) != {} && s in disk && s.space == space
    requires s in rest
    requires Staged(moves, records, c, root, next, Unvisited(c, space, root, rest))
    ensures var entry := EntryMove(space, root, next, s, disk[s]);
            var names := Unvisited(c, space, root, rest - {s});
            && entry.Ok?
            && if entry.value.None? then Staged(moves, records, c, root, next, names)
               else Staged(moves + [entry.value.value.0], records[entry.value.value.1 := entry.value.value.2], c, root,
                           next, names)
  {
    VisitSpot(disk, c, space, root, rest, s);
    var n := NameAt(s);
    if !n.TenantSealedN? {
      StagedPush(moves, records, c, root, next, Unvisited(c, space, root, rest), n, MoveFor(c, root, next, n));
    }
  }

  lemma SpaceStart(disk: Disk, c: Content, space: Space, root: nat, next: nat)
    requires Encodes(disk, c, root) && WellTyped(c) && KindsOf(space) != {}
    ensures SpaceSoFar(disk, c, space, root, next, set s | s in disk && s.space == space, [], map[])
  {
    var rest := set s | s in disk && s.space == space;
    forall n | n in InSpace(c, space) ensures SpotOf(root, n) in rest { }
    assert Unvisited(c, space, root, rest) == {};
  }

  lemma SpaceDone(disk: Disk, c: Content, space: Space, root: nat, next: nat, moves: seq<Move>,
                  records: map<Name, Body>)
    requires SpaceSoFar(disk, c, space, root, next, {}, moves, records)
    ensures Staged(moves, records, c, root, next, InSpace(c, space))
  {
    assert Unvisited(c, space, root, {}) == InSpace(c, space);
  }

  lemma StagedPush(moves: seq<Move>, records: map<Name, Body>, c: Content, root: nat, next: nat, names: set<Name>,
                   n: Name, move: Move)
    requires Staged(moves, records, c, root, next, names) && n in c && move == MoveFor(c, root, next, n)
    ensures Staged(moves + [move], records[n := c[n]], c, root, next, names + {n})
  {
    StagesPush(moves, c, root, next, names, n, move);
  }

  /** Names of `space` whose entry is not in `rest`. */
  ghost function Unvisited(c: Content, space: Space, root: nat, rest: set<Spot>): set<Name> {
    set n | n in InSpace(c, space) && SpotOf(root, n) !in rest
  }

  lemma VisitSpot(disk: Disk, c: Content, space: Space, root: nat, rest: set<Spot>, s: Spot)
    requires Encodes(disk, c, root) && WellTyped(c) && KindsOf(space) != {} && s in disk && s.space == space
    requires s in rest
    ensures var n := NameAt(s);
            if n.TenantSealedN? then
              space.Artifacts? && TryOpen(root, KindsOf(space), s, disk[s]) == None
              && Unvisited(c, space, root, rest - {s}) == Unvisited(c, space, root, rest)
            else
              TryOpen(root, KindsOf(space), s, disk[s]) == Some(Named(n, c[n])) && SpotOf(root, n) == s
              && n in InSpace(c, space)
              && Unvisited(c, space, root, rest - {s}) == Unvisited(c, space, root, rest) + {n}
  {
    var n := NameAt(s);
    assert SpotOf(root, n) == s && n in c;
    assert disk[s] == ValueOf(root, n, c[n]);
    forall o | o in c && SpotOf(root, o) == s ensures o == n { assert NameAt(SpotOf(root, o)) == o; }
  }

  lemma StagesPush(moves: seq<Move>, c: Content, root: nat, next: nat, names: set<Name>, n: Name, move: Move)
    requires Stages(moves, c, root, next, names) && n in c && move == MoveFor(c, root, next, n)
    ensures Stages(moves + [move], c, root, next, names + {n})
  {
    assert NameAt(move.source) == n;
  }

  lemma StagesJoin(a: seq<Move>, b: seq<Move>, c: Content, root: nat, next: nat, x: set<Name>, y: set<Name>)
    requires Stages(a, c, root, next, x) && Stages(b, c, root, next, y)
    ensures Stages(a + b, c, root, next, x + y)
  {
  }

  // ---- ledgers and wrapped keys ------------------------------------------------------------------

  /** Takes the entry of `n` out of `left` and moves it; `None` when it has no entry there. */
  function TakeEntry(disk: Disk, left: set<Spot>, root: nat, next: nat, n: Name): Option<Result<Move, Defect>> {
    var s := SpotOf(root, n);
    if s !in left || s !in disk then None
    else if n.LedgerN? then
      match TryOpen(root, {LedgerK}, s, disk[s])
      case Some(plain) => Some(Ok(Move(s, SpotOf(next, n), StoreSealed(next, KeyOf(next, n), plain))))
      case None => Some(Err(Unopened(Ledgers)))
    else if (n.DataKeyN? || n.AddressN?) && disk[s].Wrapped? && disk[s].root == root && disk[s].tenant == n.tenant then
      Some(Ok(Move(s, SpotOf(next, n), Wrapped(next, n.tenant, disk[s].material))))
    else Some(Err(Unwrappable))
  }

  /** What is left of a keyspace once the entries of `names` are taken. */
  ghost predicate Left(disk: Disk, space: Space, root: nat, names: set<Name>, left: set<Spot>) {
    left == set s | s in disk && s.space == space && NameAt(s) !in names
  }

  lemma TakeExact(disk: Disk, c: Content, space: Space, root: nat, next: nat, moves: seq<Move>, names: set<Name>,
                  left: set<Spot>, n: Name)
    requires Encodes(disk, c, root) && WellTyped(c) && (n.LedgerN? || n.DataKeyN? || n.AddressN?) && n.Home() == space
    requires Stages(moves, c, root, next, names) && Left(disk, space, root, names, left)
    ensures n !in c || n in names ==> TakeEntry(disk, left, root, next, n) == None
    ensures n in c && n !in names ==>
              && TakeEntry(disk, left, root, next, n) == Some(Ok(MoveFor(c, root, next, n)))
              && Stages(moves + [MoveFor(c, root, next, n)], c, root, next, names + {n})
              && Left(disk, space, root, names + {n}, left - {SpotOf(root, n)})
  {
    var s := SpotOf(root, n);
    assert NameAt(s) == n;
    if n in c && n !in names {
      StagesPush(moves, c, root, next, names, n, MoveFor(c, root, next, n));
      forall o | o in left && NameAt(o) == n ensures o == s { assert SpotOf(root, NameAt(o)) == o; }
    }
  }

  lemma NothingLeft(disk: Disk, c: Content, space: Space, root: nat, names: set<Name>, left: set<Spot>)
    requires Encodes(disk, c, root) && Left(disk, space, root, names, left)
    ensures left == {} <==> forall n :: n in c && n.Home() == space ==> n in names
  {
    if left != {} {
      var s :| s in left;
      assert NameAt(s) in c && NameAt(s) !in names && NameAt(s).Home() == space;
    }
    forall n | n in c && n.Home() == space && n !in names ensures SpotOf(root, n) in left {
      assert NameAt(SpotOf(root, n)) == n;
    }
  }

  ghost predicate Taking(disk: Disk, c: Content, space: Space, root: nat, next: nat, moves: seq<Move>,
                         taken: set<Name>, left: set<Spot>)
  {
    && Encodes(disk, c, root) && WellTyped(c) && Stages(moves, c, root, next, taken)
    && Left(disk, space, root, taken, left)
  }

  /** Takes one entry out of `left` and stages its move. */
  method TakeOne(disk: Disk, left: set<Spot>, moves: seq<Move>, root: nat, next: nat, n: Name, ghost c: Content,
                 ghost taken: set<Name>)
    returns (r: Result<bool, Defect>, rest: set<Spot>, staged: seq<Move>)
    requires n.LedgerN? || n.DataKeyN? || n.AddressN?
    ensures Taking(disk, c, n.Home(), root, next, moves, taken, left) ==>
              && r == Ok(n in c && n !in taken)
              && Taking(disk, c, n.Home(), root, next, staged, if r.value then taken + {n} else taken, rest)
  {
    if Taking(disk, c, n.Home(), root, next, moves, taken, left) {
      TakeExact(disk, c, n.Home(), root, next, moves, taken, left, n);
    }
    var entry := TakeEntry(disk, left, root, next, n);
    if entry.None? {
      return Ok(false), left, moves;
    }
    if entry.value.Err? {
      return Err(entry.value.error), left, moves;
    }
    return Ok(true), left - {SpotOf(root, n)}, moves + [entry.value.value];
  }

  ghost function OwnedLedgers(c: Content, owners: set<LedgerRef>): set<Name> {
    set n | n in c && n.LedgerN? && n.ledger in owners
  }

  ghost predicate LedgersOwned(c: Content, owners: set<LedgerRef>) { forall l :: LedgerN(l) in c ==> l in owners }

  lemma OwnedNext(c: Content, seen: set<LedgerRef>, l: LedgerRef)
    ensures OwnedLedgers(c, seen + {l}) == OwnedLedgers(c, seen) + (if LedgerN(l) in c then {LedgerN(l)} else {})
    ensures LedgerN(l) in OwnedLedgers(c, seen) <==> LedgerN(l) in c && l in seen
  {
  }

  ghost predicate LedgersSoFar(disk: Disk, c: Content, root: nat, next: nat, seen: set<LedgerRef>, moves: seq<Move>,
                               left: set<Spot>)
  {
    Taking(disk, c, Ledgers, root, next, moves, OwnedLedgers(c, seen), left)
  }

  lemma LedgersStart(disk: Disk, c: Content, root: nat, next: nat, owners: set<LedgerRef>)
    requires Encodes(disk, c, root) && WellTyped(c)
    ensures LedgersSoFar(disk, c, root, next, owners - owners, [], set s | s in disk && s.space == Ledgers)
  {
  }

  /** Moves one owner's ledger, when it has one. */
  method MoveLedger(disk: Disk, l: LedgerRef, left: set<Spot>, moves: seq<Move>, root: nat, next: nat, ghost c: Content,
                    ghost seen: set<LedgerRef>)
    returns (r: Option<Defect>, rest: set<Spot>, staged: seq<Move>)
    ensures LedgersSoFar(disk, c, root, next, seen, moves, left) && l !in seen ==>
              r.None? && LedgersSoFar(disk, c, root, next, seen + {l}, staged, rest)
  {
    var took;
    took, rest, staged := TakeOne(disk, left, moves, root, next, LedgerN(l), c, OwnedLedgers(c, seen));
    if took.Err? {
      return Some(took.error), rest, staged;
    }
    OwnedNext(c, seen, l);
    return None, rest, staged;
  }

  /** Moves the ledger of each owner; a ledger no owner claims fails the rotation. */
  method MoveLedgers(disk: Disk, owners: set<LedgerRef>, root: nat, next: nat, ghost c: Content)
    returns (r: Result<seq<Move>, Defect>)
    ensures Encodes(disk, c, root) && WellTyped(c) ==>
              && (r.Ok? <==> LedgersOwned(c, owners))
              && (r.Ok? ==> Stages(r.value, c, root, next, InSpace(c, Ledgers)))
  {
    ghost var good := Encodes(disk, c, root) && WellTyped(c);
    var moves: seq<Move> := [];
    var left := set s | s in disk && s.space == Ledgers;
    var rest := owners;
    if good { LedgersStart(disk, c, root, next, owners); }
    while rest != {}
      invariant rest <= owners
      invariant good ==> LedgersSoFar(disk, c, root, next, owners - rest, moves, left)
      decreases |rest|
    {
      var l :| l in rest;
      var defect;
      defect, left, moves := MoveLedger(disk, l, left, moves, root, next, c, owners - rest);
      if defect.Some? {
        return Err(defect.value);
      }
      assert owners - (rest - {l}) == owners - rest + {l};
      rest := rest - {l};
    }
    assert owners - rest == owners;
    if good { LedgersTaken(disk, c, root, next, owners, moves, left); }
    if left != {} {
      return Err(UnownedLedger);
    }
    return Ok(moves);
  }

  lemma LedgersTaken(disk: Disk, c: Content, root: nat, next: nat, owners: set<LedgerRef>, moves: seq<Move>,
                     left: set<Spot>)
    requires LedgersSoFar(disk, c, root, next, owners, moves, left)
    ensures left == {} <==> LedgersOwned(c, owners)
    ensures left == {} ==> Stages(moves, c, root, next, InSpace(c, Ledgers))
  {
    NothingLeft(disk, c, Ledgers, root, OwnedLedgers(c, owners), left);
    if left == {} {
      forall l | LedgerN(l) in c ensures l in owners { assert LedgerN(l).Home() == Ledgers; }
      assert OwnedLedgers(c, owners) == InSpace(c, Ledgers);
    }
  }

  // ---- wrapped keys -------------------------------------------------------------------------------

  /** The unfinished rotations of `t` among the rekey records. */
  function Retirings(rekeys: map<Name, Body>, t: TenantId): Option<KeyId> {
    if RekeyN(t) in rekeys && rekeys[RekeyN(t)].RekeyRow? && !rekeys[RekeyN(t)].done then
      Some(rekeys[RekeyN(t)].from)
    else None
  }

  /** The wrapped keys a live tenant names. */
  ghost function KeysOf(c: Content, t: TenantId): set<Name>
    requires TenantN(t) in c && c[TenantN(t)].TenantRow?
  {
    {DataKeyN(t, c[TenantN(t)].dataKey)}
    + (if Retirings(c, t).Some? then {DataKeyN(t, Retirings(c, t).value)} else {})
    + (if AddressN(t) in c then {AddressN(t)} else {})
  }

  /** Every live tenant's active and retiring keys are stored and differ. */
  ghost predicate KeysPresent(c: Content, t: TenantId) {
    TenantN(t) in c && c[TenantN(t)].TenantRow? ==>
      && DataKeyN(t, c[TenantN(t)].dataKey) in c
      && (Retirings(c, t).Some? ==>
            DataKeyN(t, Retirings(c, t).value) in c && Retirings(c, t).value != c[TenantN(t)].dataKey)
  }

  /** A stored key is one its live tenant names. */
  ghost predicate KeyNamed(c: Content, n: Name)
    requires n.DataKeyN? || n.AddressN?
  {
    TenantN(n.tenant) in c && c[TenantN(n.tenant)].TenantRow? && n in KeysOf(c, n.tenant)
  }

  ghost predicate KeysOwned(c: Content) {
    && (forall t {:trigger KeysPresent(c, t)} :: TenantN(t) in c ==> KeysPresent(c, t))
    && (forall n {:trigger n in c} :: n in c && (n.DataKeyN? || n.AddressN?) ==> KeyNamed(c, n))
  }

  ghost function KeysOfAll(c: Content, ts: set<TenantId>): set<Name>
    requires forall t :: t in ts ==> TenantN(t) in c && c[TenantN(t)].TenantRow?
  {
    set n | n in c && (n.DataKeyN? || n.AddressN?) && n.tenant in ts && n in KeysOf(c, n.tenant)
  }

  /** Moves one tenant's active key, its retiring key and its addressing subkeys. */
  method MoveTenantKeys(disk: Disk, t: TenantId, dataKey: KeyId, retiring: Option<KeyId>, left: set<Spot>,
                        moves: seq<Move>,
                        root: nat, next: nat, ghost c: Content, ghost taken: set<Name>)
    returns (r: Option<Defect>, rest: set<Spot>, staged: seq<Move>)
    ensures Taking(disk, c, Keys, root, next, moves, taken, left) && TenantN(t) in c && c[TenantN(t)].TenantRow?
            && dataKey == c[TenantN(t)].dataKey && retiring == Retirings(c, t) && taken !! KeysOf(c, t) ==>
              && (r.None? <==> KeysPresent(c, t))
              && (r.None? ==> Taking(disk, c, Keys, root, next, staged, taken + KeysOf(c, t), rest))
  {
    ghost var gone := taken + {DataKeyN(t, dataKey)};
    r, rest, staged := TakeRequired(disk, left, moves, root, next, DataKeyN(t, dataKey), c, taken);
    if r.Some? {
      return;
    }
    if retiring.Some? {
      r, rest, staged := TakeRequired(disk, rest, staged, root, next, DataKeyN(t, retiring.value), c, gone);
      if r.Some? {
        return;
      }
      gone := gone + {DataKeyN(t, retiring.value)};
    }
    var took;
    took, rest, staged := TakeOne(disk, rest, staged, root, next, AddressN(t), c, gone);
    if took.Err? {
      return Some(took.error), rest, staged;
    }
    return None, rest, staged;
  }

  method TakeRequired(disk: Disk, left: set<Spot>, moves: seq<Move>, root: nat, next: nat, n: Name, ghost c: Content,
                      ghost taken: set<Name>)
    returns (r: Option<Defect>, rest: set<Spot>, staged: seq<Move>)
    requires n.DataKeyN?
    ensures Taking(disk, c, Keys, root, next, moves, taken, left) ==>
              && (r.None? <==> n in c && n !in taken)
              && (r.None? ==> Taking(disk, c, Keys, root, next, staged, taken + {n}, rest))
  {
    var took;
    took, rest, staged := TakeOne(disk, left, moves, root, next, n, c, taken);
    if took != Ok(true) {
      return Some(if took.Err? then took.error else Defect.DataKeyMissing), rest, staged;
    }
    return None, rest, staged;
  }

  /** Rewraps every live tenant's keys; a wrapped key no live tenant names fails the rotation. */
  method MoveWrappedKeys(disk: Disk, tenants: map<Name, Body>, rekeys: map<Name, Body>, root: nat, next: nat,
                         ghost c: Content)
    returns (r: Result<seq<Move>, Defect>)
    ensures KeysInput(disk, c, root, tenants, rekeys) ==>
              && (r.Ok? <==> KeysOwned(c))
              && (r.Ok? ==> Stages(r.value, c, root, next, InSpace(c, Keys)))
  {
    ghost var good := KeysInput(disk, c, root, tenants, rekeys);
    var moves: seq<Move> := [];
    var left := set s | s in disk && s.space == Keys;
    var live := set n | n in tenants && n.TenantN? && tenants[n].TenantRow? :: n.tenant;
    var rest := live;
    if good { LiveTenants(disk, c, root, tenants, rekeys, live); }
    while rest != {}
      invariant rest <= live
      invariant good ==> KeysSoFar(disk, c, root, next, live, rest, moves, left)
      decreases |rest|
    {
      var t :| t in rest;
      ghost var taken := if good then KeysOfAll(c, live - rest) else {};
      if good { TenantTurn(disk, c, root, tenants, rekeys, live, rest, t); }
      var defect;
      defect, left, moves := MoveTenantKeys(disk, t, tenants[TenantN(t)].dataKey, Retirings(rekeys, t), left, moves,
                                            root, next, c, taken);
      if defect.Some? {
        return Err(defect.value);
      }
      if good { KeysNext(c, live, rest, t); }
      rest := rest - {t};
    }
    if good { KeysTaken(disk, c, root, next, live, moves, left); }
    if left != {} {
      return Err(UnownedKey);
    }
    return Ok(moves);
  }

  /** The tenant and rekey records handed over are those of the content. */
  ghost predicate KeysInput(disk: Disk, c: Content, root: nat, tenants: map<Name, Body>, rekeys: map<Name, Body>) {
    && Encodes(disk, c, root) && WellTyped(c)
    && tenants.Keys == InSpace(c, Tenants) && (forall n :: n in tenants ==> tenants[n] == c[n])
    && rekeys.Keys == InSpace(c, Rekeys) && (forall n :: n in rekeys ==> rekeys[n] == c[n])
  }

  ghost predicate LiveOf(c: Content, live: set<TenantId>) {
    && (forall t :: t in live <==> TenantN(t) in c)
    && (forall t :: t in live ==> c[TenantN(t)].TenantRow?)
  }

  ghost predicate KeysSoFar(disk: Disk, c: Content, root: nat, next: nat, live: set<TenantId>, rest: set<TenantId>,
                            moves: seq<Move>, left: set<Spot>)
  {
    && LiveOf(c, live)
    && Taking(disk, c, Keys, root, next, moves, KeysOfAll(c, live - rest), left)
    && (forall t :: t in live && t !in rest ==> KeysPresent(c, t))
  }

  lemma LiveTenants(disk: Disk, c: Content, root: nat, tenants: map<Name, Body>, rekeys: map<Name, Body>,
                    live: set<TenantId>)
    requires KeysInput(disk, c, root, tenants, rekeys)
    requires live == set n | n in tenants && n.TenantN? && tenants[n].TenantRow? :: n.tenant
    ensures LiveOf(c, live)
  {
    forall t | TenantN(t) in c ensures t in live { assert TenantN(t) in InSpace(c, Tenants); }
  }

  lemma TenantTurn(disk: Disk, c: Content, root: nat, tenants: map<Name, Body>, rekeys: map<Name, Body>,
                   live: set<TenantId>,
                   rest: set<TenantId>, t: TenantId)
    requires KeysInput(disk, c, root, tenants, rekeys) && LiveOf(c, live) && rest <= live && t in rest
    ensures TenantN(t) in tenants && tenants[TenantN(t)] == c[TenantN(t)] && Retirings(rekeys, t) == Retirings(c, t)
    ensures KeysOfAll(c, live - rest) !! KeysOf(c, t)
  {
    assert TenantN(t) in InSpace(c, Tenants);
    assert RekeyN(t) in c ==> RekeyN(t) in InSpace(c, Rekeys);
  }

  lemma KeysNext(c: Content, live: set<TenantId>, rest: set<TenantId>, t: TenantId)
    requires LiveOf(c, live) && rest <= live && t in rest && KeysPresent(c, t)
    ensures KeysOfAll(c, live - (rest - {t})) == KeysOfAll(c, live - rest) + KeysOf(c, t)
  {
  }

  lemma KeysAllNamed(c: Content, live: set<TenantId>)
    requires WellTyped(c) && LiveOf(c, live) && KeysOfAll(c, live) == InSpace(c, Keys)
    ensures forall n {:trigger n in c} :: n in c && (n.DataKeyN? || n.AddressN?) ==> KeyNamed(c, n)
  {
    forall n {:trigger n in c} | n in c && (n.DataKeyN? || n.AddressN?) ensures KeyNamed(c, n) {
      assert n in KeysOfAll(c, live);
    }
  }

  lemma KeysTaken(disk: Disk, c: Content, root: nat, next: nat, live: set<TenantId>, moves: seq<Move>, left: set<Spot>)
    requires KeysSoFar(disk, c, root, next, live, {}, moves, left)
    ensures left == {} <==> KeysOwned(c)
    ensures left == {} ==> Stages(moves, c, root, next, InSpace(c, Keys))
  {
    var taken := KeysOfAll(c, live - {});
    NothingLeft(disk, c, Keys, root, taken, left);
    if left == {} {
      assert live - {} == live;
      KeysAllNamed(c, live);
    }
    if KeysOwned(c) {
      forall n | n in c && n.Home() == Keys ensures n in taken { assert KeyNamed(c, n); }
    }
  }

  // ---- the rotation -----------------------------------------------------------------------------------

  /** The keyspaces of named records, in staging order. */
  const NAMED_SPACES := [Tenants, Grants, Revocations, Sessions, Invocations, AuditStubs, Rekeys, Artifacts]

  ghost function NamedIn(c: Content, k: nat): set<Name>
    requires k <= |NAMED_SPACES|
  {
    set n | n in Movable(c) && n.Home() in NAMED_SPACES[..k]
  }

  lemma StagedJoin(a: seq<Move>, b: seq<Move>, x: map<Name, Body>, y: map<Name, Body>, c: Content, root: nat,
                   next: nat, k: nat)
    requires k < |NAMED_SPACES| && Staged(a, x, c, root, next, NamedIn(c, k))
    requires Staged(b, y, c, root, next, InSpace(c, NAMED_SPACES[k]))
    ensures Staged(a + b, x + y, c, root, next, NamedIn(c, k + 1))
  {
    StagesJoin(a, b, c, root, next, NamedIn(c, k), InSpace(c, NAMED_SPACES[k]));
    assert NAMED_SPACES[..k + 1] == NAMED_SPACES[..k] + [NAMED_SPACES[k]];
    assert NamedIn(c, k + 1) == NamedIn(c, k) + InSpace(c, NAMED_SPACES[k]);
  }

  method StageNamed(disk: Disk, root: nat, next: nat, ghost c: Content)
    returns (r: Result<seq<Move>, Defect>, records: map<Name, Body>)
    ensures Encodes(disk, c, root) && WellTyped(c) ==>
              r.Ok? && Staged(r.value, records, c, root, next, NamedIn(c, |NAMED_SPACES|))
  {
    ghost var good := Encodes(disk, c, root) && WellTyped(c);
    var moves: seq<Move> := [];
    records := map[];
    for k := 0 to |NAMED_SPACES|
      invariant good ==> Staged(moves, records, c, root, next, NamedIn(c, k))
    {
      var part, found := MoveSpace(disk, NAMED_SPACES[k], root, next, c);
      if part.Err? {
        return part, map[];
      }
      if good {
        assert KindsOf(NAMED_SPACES[k]) != {};
        StagedJoin(moves, part.value, records, found, c, root, next, k);
      }
      moves, records := moves + part.value, records + found;
    }
    return Ok(moves), records;
  }

  /** Some record that can own ledger `l` exists. */
  predicate OwnerStored(c: map<Name, Body>, l: LedgerRef) {
    match l
    case OfGrant(g) => GrantN(g) in c
    case OfSession(s) => SessionN(s) in c
    case OfTenant(t) => TenantN(t) in c || TombstoneN(t) in c
  }

  /** The ledger a record of this name owns. */
  function LedgerOwned(n: Name): Option<LedgerRef> {
    match n
    case TenantN(t) => Some(OfTenant(t))
    case TombstoneN(t) => Some(OfTenant(t))
    case GrantN(g) => Some(OfGrant(g))
    case SessionN(s) => Some(OfSession(s))
    case _ => None
  }

  function Owners(records: map<Name, Body>): set<LedgerRef> {
    set n | n in records && LedgerOwned(n).Some? :: LedgerOwned(n).value
  }

  ghost predicate EveryLedgerOwned(c: Content) {
    forall l {:trigger LedgerN(l)} :: LedgerN(l) in c ==> OwnerStored(c, l)
  }

  ghost function OwnerName(c: Content, l: LedgerRef): (n: Name)
    requires OwnerStored(c, l)
    ensures n in c && LedgerOwned(n) == Some(l)
  {
    match l
    case OfGrant(g) => GrantN(g)
    case OfSession(s) => SessionN(s)
    case OfTenant(t) => if TenantN(t) in c then TenantN(t) else TombstoneN(t)
  }

  lemma OwnersExact(c: Content, records: map<Name, Body>)
    requires records.Keys == NamedIn(c, |NAMED_SPACES|)
    ensures LedgersOwned(c, Owners(records)) <==> EveryLedgerOwned(c)
  {
    forall l ensures l in Owners(records) <==> OwnerStored(c, l) {
      if OwnerStored(c, l) {
        var n := OwnerName(c, l);
        HomeListed(n);
        assert n in records && LedgerOwned(n) == Some(l);
      }
    }
  }

  /** Every ledger has an owner and the wrapped keys are exactly those live tenants name. */
  ghost predicate Rotatable(c: Content) { EveryLedgerOwned(c) && KeysOwned(c) }

  lemma KeysGiven(disk: Disk, c: Content, root: nat, records: map<Name, Body>, tenants: map<Name, Body>,
                  rekeys: map<Name, Body>)
    requires Encodes(disk, c, root) && WellTyped(c)
    requires records.Keys == NamedIn(c, |NAMED_SPACES|) && forall n :: n in records ==> records[n] == c[n]
    requires tenants == map n | n in records && n.Home() == Tenants :: records[n]
    requires rekeys == map n | n in records && n.Home() == Rekeys :: records[n]
    ensures KeysInput(disk, c, root, tenants, rekeys)
  {
    assert Tenants in NAMED_SPACES[..|NAMED_SPACES|] by { assert NAMED_SPACES[0] == Tenants; }
    assert Rekeys in NAMED_SPACES[..|NAMED_SPACES|] by { assert NAMED_SPACES[6] == Rekeys; }
  }

  /** Stages the move of every store-keyed record and wrapped key. */
  method StageRootMoves(disk: Disk, root: nat, next: nat, ghost c: Content) returns (r: Result<seq<Move>, Defect>)
    ensures Encodes(disk, c, root) && WellTyped(c) ==>
              && (r.Ok? <==> Rotatable(c))
              && (r.Ok? ==> Stages(r.value, c, root, next, Movable(c)))
  {
    ghost var good := Encodes(disk, c, root) && WellTyped(c);
    var named, records := StageNamed(disk, root, next, c);
    if named.Err? {
      return named;
    }
    if good { OwnersExact(c, records); }
    var ledgers := MoveLedgers(disk, Owners(records), root, next, c);
    if ledgers.Err? {
      return ledgers;
    }
    var tenants := map n | n in records && n.Home() == Tenants :: records[n];
    var rekeys := map n | n in records && n.Home() == Rekeys :: records[n];
    if good { KeysGiven(disk, c, root, records, tenants, rekeys); }
    var keys := MoveWrappedKeys(disk, tenants, rekeys, root, next, c);
    if keys.Err? {
      return keys;
    }
    if good && keys.Ok? { JoinAll(named.value, ledgers.value, keys.value, c, root, next); }
    return Ok(named.value + ledgers.value + keys.value);
  }

  lemma JoinAll(named: seq<Move>, ledgers: seq<Move>, keys: seq<Move>, c: Content, root: nat, next: nat)
    requires WellTyped(c) && Stages(named, c, root, next, NamedIn(c, |NAMED_SPACES|))
    requires Stages(ledgers, c, root, next, InSpace(c, Ledgers)) && Stages(keys, c, root, next, InSpace(c, Keys))
    ensures Stages(named + ledgers + keys, c, root, next, Movable(c))
  {
    StagesJoin(named, ledgers, c, root, next, NamedIn(c, |NAMED_SPACES|), InSpace(c, Ledgers));
    StagesJoin(named + ledgers, keys, c, root, next, NamedIn(c, |NAMED_SPACES|) + InSpace(c, Ledgers),
               InSpace(c, Keys));
    forall n | n in Movable(c) ensures n in NamedIn(c, |NAMED_SPACES|) + InSpace(c, Ledgers) + InSpace(c, Keys) {
      HomeListed(n);
    }
    assert NamedIn(c, |NAMED_SPACES|) + InSpace(c, Ledgers) + InSpace(c, Keys) == Movable(c);
  }

  lemma HomeListed(n: Name)
    requires !n.TenantSealedN?
    ensures n.Home() in NAMED_SPACES[..|NAMED_SPACES|] || n.Home() == Ledgers || n.Home() == Keys
  {
    var all := NAMED_SPACES[..|NAMED_SPACES|];
    match n {
      case TenantN(_) => assert all[0] == Tenants;
      case TombstoneN(_) => assert all[0] == Tenants;
      case GrantN(_) => assert all[1] == Grants;
      case RevocationN(_) => assert all[2] == Revocations;
      case SessionN(_) => assert all[3] == Sessions;
      case InvocationN(_) => assert all[4] == Invocations;
      case StubN(_) => assert all[5] == AuditStubs;
      case RekeyN(_) => assert all[6] == Rekeys;
      case LocatorN(_) => assert all[7] == Artifacts;
      case _ =>
    }
  }

  datatype RotateError = StoreLocked | RootIdsExhausted | Inconsistent(defect: Defect) | Crashed

  class RootStore {
    var root: nat
    var disk: Disk

    /**
     * Rotates the root key in one transaction; `unlocks` says whether the given
     * current key opens the store, and the flags place a crash before or after
     * the commit. Either the whole content is readable under the next root or
     * nothing has changed; an error other than a crash leaves it unchanged.
     */
    method RotateRoot(unlocks: bool, crashBefore: bool, crashAfter: bool, ghost c: Content)
      returns (r: Result<nat, RotateError>)
      modifies this
      ensures Encodes(old(disk), c, old(root)) && WellTyped(c) ==> Encodes(disk, c, root)
      ensures Encodes(old(disk), c, old(root)) && WellTyped(c) ==>
                (root == old(root) + 1 <==> unlocks && old(root) < KEY_ID_MAX && Rotatable(c) && !crashBefore)
      ensures root == old(root) + 1 || (root == old(root) && disk == old(disk))
      ensures r.Ok? <==> root == old(root) + 1 && !crashAfter
      ensures r.Ok? ==> r.value == root
    {
      if !unlocks {
        return Err(StoreLocked);
      }
      if root >= KEY_ID_MAX {
        return Err(RootIdsExhausted);
      }
      var moves := StageRootMoves(disk, root, root + 1, c);
      if moves.Err? {
        return Err(Inconsistent(moves.error));
      }
      var moved := ApplyMoves(disk, moves.value);
      if Encodes(disk, c, root) && WellTyped(c) {
        MovesEncode(disk, c, root, root + 1, moves.value, moved);
      }
      if crashBefore {
        return Err(Crashed);
      }
      disk, root := moved, root + 1;
      if crashAfter {
        return Err(Crashed);
      }
      return Ok(root);
    }
  }

  /** Reading any record by its logical name gives the same answer before and after a rotation. */
  lemma RotationPreservesReads(disk: Disk, next: Disk, c: Content, root: nat, n: Name)
    requires Encodes(disk, c, root) && Encodes(next, c, root + 1)
    ensures Read(next, root + 1, n) == Read(disk, root, n)
  {
    ReadsContent(disk, c, root, n);
    ReadsContent(next, c, root + 1, n);
  }
}
