/**
 * Budget reservation and settlement arithmetic: six independent dimensions of
 * 64-bit amounts, a reservation that debits the declared maximum from every
 * ledger, and a settlement that keeps the consumption and returns the rest.
 */
module Budget {
  import opened Prelude

  const U64_MAX: nat := 0xFFFF_FFFF_FFFF_FFFF

  type U64 = n: nat | n <= U64_MAX

  datatype Dimension = WallTimeMs | Fetches | BytesTransferred | OutputBytes | Tokens | OpsBand

  /** Every dimension, in the order refusals are reported. */
  const ALL: seq<Dimension> := [WallTimeMs, Fetches, BytesTransferred, OutputBytes, Tokens, OpsBand]

  datatype Cost = Cost(wallTimeMs: U64, fetches: U64, bytesTransferred: U64, outputBytes: U64, tokens: U64,
                       opsBand: U64)
  {
    function Get(d: Dimension): U64 {
      match d
      case WallTimeMs => wallTimeMs
      case Fetches => fetches
      case BytesTransferred => bytesTransferred
      case OutputBytes => outputBytes
      case Tokens => tokens
      case OpsBand => opsBand
    }
  }

  const ZERO: Cost := Cost(0, 0, 0, 0, 0, 0)

  datatype Ceilings = Ceilings(wallTimeMs: Option<U64>, fetches: Option<U64>, bytesTransferred: Option<U64>,
                               outputBytes: Option<U64>, tokens: Option<U64>, opsBand: Option<U64>)
  {
    function Get(d: Dimension): Option<U64> {
      match d
      case WallTimeMs => wallTimeMs
      case Fetches => fetches
      case BytesTransferred => bytesTransferred
      case OutputBytes => outputBytes
      case Tokens => tokens
      case OpsBand => opsBand
    }
  }

  const NO_CEILINGS: Ceilings := Ceilings(None, None, None, None, None, None)

  /** A budget ledger: a grant's, a session's, or a tenant's. */
  datatype LedgerRef = OfGrant(grant: GrantId) | OfSession(session: SessionId) | OfTenant(tenant: TenantId)

  /** One ledger as the planner sees it; `own` marks the caller's ledgers. */
  datatype LedgerState = LedgerState(id: LedgerRef, ceilings: Ceilings, used: Cost, own: bool)

  datatype BudgetCheck =
    | Fits(cost: Cost, ledgers: seq<LedgerRef>)
    | OwnShort(ledger: LedgerRef, dimension: Dimension)
    | UpstreamShort

  function Pos(d: Dimension): (i: nat)
    ensures i < |ALL| && ALL[i] == d
  {
    match d
    case WallTimeMs => 0
    case Fetches => 1
    case BytesTransferred => 2
    case OutputBytes => 3
    case Tokens => 4
    case OpsBand => 5
  }

  // ---- planning -----------------------------------------------------------

  predicate Overflows(l: LedgerState, declared: Cost, d: Dimension) {
    l.ceilings.Get(d).None? && l.used.Get(d) + declared.Get(d) > U64_MAX
  }

  predicate Covers(l: LedgerState, declared: Cost, d: Dimension) {
    match l.ceilings.Get(d)
    case None => true
    case Some(ceiling) => l.used.Get(d) + declared.Get(d) <= ceiling
  }

  /** The first dimension at or after position `i` that `bad` marks. */
  function FirstDim(bad: Dimension -> bool, i: nat): (r: Option<Dimension>)
    requires i <= |ALL|
    ensures r.None? <==> forall d :: Pos(d) >= i ==> !bad(d)
    ensures r.Some? ==> bad(r.value) && forall d :: i <= Pos(d) < Pos(r.value) ==> !bad(d)
    decreases |ALL| - i
  {
    if i == |ALL| then None else if bad(ALL[i]) then Some(ALL[i]) else FirstDim(bad, i + 1)
  }

  function OverflowDim(l: LedgerState, declared: Cost): (r: Option<Dimension>)
    ensures r.None? <==> forall d :: !Overflows(l, declared, d)
  {
    FirstDim(d => Overflows(l, declared, d), 0)
  }

  function ShortDim(l: LedgerState, declared: Cost): (r: Option<Dimension>)
    ensures r.None? <==> forall d :: Covers(l, declared, d)
    ensures r.Some? ==> !Covers(l, declared, r.value)
  {
    FirstDim(d => !Covers(l, declared, d), 0)
  }

  /** The first overflowing dimension of an uncapped ledger, in ledger order. */
  function FirstOverflow(ledgers: seq<LedgerState>, declared: Cost): (r: Option<Dimension>)
    ensures r.None? <==> forall i, d :: 0 <= i < |ledgers| ==> !Overflows(ledgers[i], declared, d)
  {
    if ledgers == [] then None else
      var here := OverflowDim(ledgers[0], declared);
      if here.Some? then here else FirstOverflow(ledgers[1..], declared)
  }

  /** The first own ledger, and its first dimension, that falls short. */
  function FirstOwnShort(ledgers: seq<LedgerState>, declared: Cost): (r: Option<(LedgerRef, Dimension)>)
    ensures r.None? <==> forall i, d :: 0 <= i < |ledgers| && ledgers[i].own ==> Covers(ledgers[i], declared, d)
    ensures r.Some? ==> exists i :: 0 <= i < |ledgers| && ledgers[i].own && ledgers[i].id == r.value.0
                                    && !Covers(ledgers[i], declared, r.value.1)
  {
    if ledgers == [] then None else
      assert forall i :: 1 <= i < |ledgers| ==> ledgers[i] == ledgers[1..][i - 1];
      var here := ShortDim(ledgers[0], declared);
      if ledgers[0].own && here.Some? then Some((ledgers[0].id, here.value)) else FirstOwnShort(ledgers[1..], declared)
  }

  predicate SomeUpstreamShort(ledgers: seq<LedgerState>, declared: Cost)
    ensures SomeUpstreamShort(ledgers, declared) <==>
            exists i, d :: 0 <= i < |ledgers| && !ledgers[i].own && !Covers(ledgers[i], declared, d)
  {
    ledgers != [] &&
    assert forall i :: 1 <= i < |ledgers| ==> ledgers[i] == ledgers[1..][i - 1];
    ((!ledgers[0].own && ShortDim(ledgers[0], declared).Some?) || SomeUpstreamShort(ledgers[1..], declared))
  }

  function LedgerIds(ledgers: seq<LedgerState>): (ids: seq<LedgerRef>)
    ensures |ids| == |ledgers|
    ensures forall i :: 0 <= i < |ids| ==> ids[i] == ledgers[i].id
  {
    seq(|ledgers|, i requires 0 <= i < |ledgers| => ledgers[i].id)
  }

  /** Plans a reservation of `declared`; `Err` names a dimension that would overflow. */
  function PlanReservation(ledgers: seq<LedgerState>, declared: Cost): (r: Result<BudgetCheck, Dimension>)
    ensures r.Err? <==> exists i, d :: 0 <= i < |ledgers| && Overflows(ledgers[i], declared, d)
    ensures r.Ok? && r.value.Fits? ==> r.value.cost == declared && r.value.ledgers == LedgerIds(ledgers)
    ensures r.Ok? ==> (r.value.Fits? <==> forall i, d :: 0 <= i < |ledgers| ==> Covers(ledgers[i], declared, d))
    ensures r.Ok? && r.value.UpstreamShort? ==>
              forall i, d :: 0 <= i < |ledgers| && ledgers[i].own ==> Covers(ledgers[i], declared, d)
  {
    var overflow := FirstOverflow(ledgers, declared);
    if overflow.Some? then Err(overflow.value) else
      var own := FirstOwnShort(ledgers, declared);
      if own.Some? then Ok(OwnShort(own.value.0, own.value.1))
      else if SomeUpstreamShort(ledgers, declared) then Ok(UpstreamShort)
      else Ok(Fits(declared, LedgerIds(ledgers)))
  }

  /** One ledger's pass over the dimensions. */
  method ScanLedger(l: LedgerState, declared: Cost) returns (overflow: Option<Dimension>, short: Option<Dimension>)
    ensures overflow == OverflowDim(l, declared)
    ensures overflow.None? ==> short == ShortDim(l, declared)
  {
    ghost var over := (d: Dimension) => Overflows(l, declared, d);
    ghost var bad := (d: Dimension) => !Covers(l, declared, d);
    short := None;
    for j := 0 to |ALL|
      invariant FirstDim(over, 0) == FirstDim(over, j)
      invariant FirstDim(bad, 0) == if short.Some? then short else FirstDim(bad, j)
    {
      if Overflows(l, declared, ALL[j]) {
        return Some(ALL[j]), short;
      }
      if !Covers(l, declared, ALL[j]) && short.None? {
        short := Some(ALL[j]);
      }
    }
    overflow := None;
  }

  /** The planner's scan; it reports exactly what `PlanReservation` specifies. */
  method PlanReservationScan(ledgers: seq<LedgerState>, declared: Cost) returns (r: Result<BudgetCheck, Dimension>)
    ensures r == PlanReservation(ledgers, declared)
  {
    var ownRefusal: Option<(LedgerRef, Dimension)> := None;
    var upstream := false;
    for i := 0 to |ledgers|
      invariant FirstOverflow(ledgers, declared) == FirstOverflow(ledgers[i..], declared)
      invariant FirstOwnShort(ledgers, declared) ==
                if ownRefusal.Some? then ownRefusal else FirstOwnShort(ledgers[i..], declared)
      invariant SomeUpstreamShort(ledgers, declared) == (upstream || SomeUpstreamShort(ledgers[i..], declared))
    {
      assert ledgers[i..][0] == ledgers[i] && ledgers[i..][1..] == ledgers[i + 1..];
      var overflow, short := ScanLedger(ledgers[i], declared);
      if overflow.Some? {
        return Err(overflow.value);
      }
      if short.Some? && ledgers[i].own && ownRefusal.None? {
        ownRefusal := Some((ledgers[i].id, short.value));
      }
      if short.Some? && !ledgers[i].own {
        upstream := true;
      }
    }
    if ownRefusal.Some? {
      return Ok(OwnShort(ownRefusal.value.0, ownRefusal.value.1));
    }
    return Ok(if upstream then UpstreamShort else Fits(declared, LedgerIds(ledgers)));
  }

  // ---- the smallest remaining ceiling among own ledgers ---------------------

  function Monus(a: nat, b: nat): nat { if a < b then 0 else a - b }

  /** Smaller of two optional amounts, where absence sets no bound. */
  function MinOpt(a: Option<U64>, b: Option<U64>): Option<U64> {
    if a.None? then b else if b.None? then a else if a.value <= b.value then a else b
  }

  function OwnLeft(ledgers: seq<LedgerState>, d: Dimension): (r: Option<U64>)
    ensures r.Some? ==> exists i :: 0 <= i < |ledgers| && ledgers[i].own && ledgers[i].ceilings.Get(d).Some?
                                    && r.value == Monus(ledgers[i].ceilings.Get(d).value, ledgers[i].used.Get(d))
    ensures forall i :: 0 <= i < |ledgers| && ledgers[i].own && ledgers[i].ceilings.Get(d).Some? ==>
              r.Some? && r.value <= Monus(ledgers[i].ceilings.Get(d).value, ledgers[i].used.Get(d))
  {
    if ledgers == [] then None else
      assert forall i :: 1 <= i < |ledgers| ==> ledgers[i] == ledgers[1..][i - 1];
      var l := ledgers[0];
      var here := if l.own && l.ceilings.Get(d).Some?
                  then Some(Monus(l.ceilings.Get(d).value, l.used.Get(d)))
                  else None;
      MinOpt(here, OwnLeft(ledgers[1..], d))
  }

  function OwnRemaining(ledgers: seq<LedgerState>): Ceilings {
    Ceilings(OwnLeft(ledgers, WallTimeMs), OwnLeft(ledgers, Fetches), OwnLeft(ledgers, BytesTransferred),
             OwnLeft(ledgers, OutputBytes), OwnLeft(ledgers, Tokens), OwnLeft(ledgers, OpsBand))
  }

  // ---- moving a ledger ------------------------------------------------------

  datatype Settlement = Settlement(debit: Cost, release: Cost)

  function CostFrom(f: Dimension -> U64): (c: Cost)
    ensures forall d :: c.Get(d) == f(d)
  {
    Cost(f(WallTimeMs), f(Fetches), f(BytesTransferred), f(OutputBytes), f(Tokens), f(OpsBand))
  }

  function Min(a: U64, b: U64): U64 { if a <= b then a else b }

  /** The settlement of `actual` against `reserved`; an overrun is clamped to the reservation. */
  function Settle(reserved: Cost, actual: Cost): (s: Settlement)
    ensures forall d :: s.debit.Get(d) + s.release.Get(d) == reserved.Get(d)
    ensures forall d :: s.debit.Get(d) <= actual.Get(d)
    ensures forall d :: actual.Get(d) <= reserved.Get(d) ==> s.debit.Get(d) == actual.Get(d)
  {
    var debit := CostFrom(d => Min(reserved.Get(d), actual.Get(d)));
    Settlement(debit, CostFrom(d => Monus(reserved.Get(d), debit.Get(d))))
  }

  datatype Overrun = Overrun(dimension: Dimension, reserved: U64, actual: U64, settlement: Settlement)

  /** Settling reports the first overrun dimension, with the clamped settlement its callers apply. */
  function SettleReported(reserved: Cost, actual: Cost): (r: Result<Settlement, Overrun>)
    ensures r.Ok? <==> forall d :: actual.Get(d) <= reserved.Get(d)
    ensures (if r.Ok? then r.value else r.error.settlement) == Settle(reserved, actual)
    ensures r.Err? ==>
              && r.error.actual == actual.Get(r.error.dimension) > reserved.Get(r.error.dimension) == r.error.reserved
              && (forall d :: Pos(d) < Pos(r.error.dimension) ==> actual.Get(d) <= reserved.Get(d))
  {
    var over := FirstDim(d => actual.Get(d) > reserved.Get(d), 0);
    if over.None? then Ok(Settle(reserved, actual))
    else Err(Overrun(over.value, reserved.Get(over.value), actual.Get(over.value), Settle(reserved, actual)))
  }

  function UnknownEffectSettlement(reserved: Cost): Settlement {
    Settlement(reserved, ZERO)
  }

  function FullRelease(reserved: Cost): Settlement {
    Settlement(ZERO, reserved)
  }

  function Reserve(used: Cost, amount: Cost): (r: Result<Cost, Dimension>)
    ensures r.Ok? <==> forall d :: used.Get(d) + amount.Get(d) <= U64_MAX
    ensures r.Ok? ==> forall d :: r.value.Get(d) == used.Get(d) + amount.Get(d)
  {
    var bad := FirstDim(d => used.Get(d) + amount.Get(d) > U64_MAX, 0);
    if bad.Some? then Err(bad.value)
    else Ok(CostFrom(d => if used.Get(d) + amount.Get(d) <= U64_MAX then used.Get(d) + amount.Get(d) else 0))
  }

  function Release(used: Cost, amount: Cost): (r: Result<Cost, Dimension>)
    ensures r.Ok? <==> forall d :: amount.Get(d) <= used.Get(d)
    ensures r.Ok? ==> forall d :: r.value.Get(d) == used.Get(d) - amount.Get(d)
  {
    var bad := FirstDim(d => amount.Get(d) > used.Get(d), 0);
    if bad.Some? then Err(bad.value) else Ok(CostFrom(d => Monus(used.Get(d), amount.Get(d))))
  }

  /** Two costs agree when they agree on every dimension. */
  lemma CostEq(a: Cost, b: Cost)
    requires forall d :: a.Get(d) == b.Get(d)
    ensures a == b
  {
    assert a.Get(WallTimeMs) == b.Get(WallTimeMs) && a.Get(Fetches) == b.Get(Fetches);
    assert a.Get(BytesTransferred) == b.Get(BytesTransferred) && a.Get(OutputBytes) == b.Get(OutputBytes);
    assert a.Get(Tokens) == b.Get(Tokens) && a.Get(OpsBand) == b.Get(OpsBand);
  }

  /**
   * Reserving and then applying any settlement of the reservation leaves the
   * ledger exactly the debit above where it started.
   */
  lemma ReserveThenSettle(used: Cost, reserved: Cost, s: Settlement)
    requires Reserve(used, reserved).Ok?
    requires forall d :: s.debit.Get(d) + s.release.Get(d) == reserved.Get(d)
    ensures Release(Reserve(used, reserved).value, s.release).Ok?
    ensures Reserve(used, s.debit) == Release(Reserve(used, reserved).value, s.release)
  {
    var mid := Reserve(used, reserved).value;
    forall d ensures s.release.Get(d) <= mid.Get(d) && used.Get(d) + s.debit.Get(d) <= U64_MAX {
      assert mid.Get(d) == used.Get(d) + reserved.Get(d);
      assert s.debit.Get(d) + s.release.Get(d) == reserved.Get(d);
    }
    CostEq(Reserve(used, s.debit).value, Release(mid, s.release).value);
  }
}
