/**
 * The audit log: one global sequence of stubs, each tenant's entries in its
 * own partition under the same sequence, the query that merges partitions, and
 * the pages a reader follows while the log grows.
 */
module Audit {
  import opened Prelude
  import opened Budget

  // ---- the least elements of a set -----------------------------------------------------------

  ghost predicate IsLeast(s: set<nat>, k: nat) { k in s && forall o :: o in s ==> k <= o }

  lemma {:induction false} LeastExists(s: set<nat>)
    requires s != {}
    ensures exists k :: IsLeast(s, k)
    decreases |s|
  {
    var x :| x in s;
    if s == {x} {
      assert IsLeast(s, x);
    } else {
      LeastExists(s - {x});
      var k :| IsLeast(s - {x}, k);
      assert s == (s - {x}) + {x};
      assert IsLeast(s, if x < k then x else k);
    }
  }

  ghost function Least(s: set<nat>): (k: nat)
    requires s != {}
    ensures IsLeast(s, k)
  {
    LeastExists(s);
    var k :| IsLeast(s, k);
    k
  }

  /** The `n` least elements of `s`, in order. */
  ghost function First(s: set<nat>, n: nat): seq<nat>
    decreases n
  {
    if n == 0 || s == {} then [] else [Least(s)] + First(s - {Least(s)}, n - 1)
  }

  lemma {:induction false} FirstMeaning(s: set<nat>, n: nat)
    ensures |First(s, n)| == if |s| < n then |s| else n
    ensures forall k :: k in First(s, n) ==> k in s
    ensures |s| <= n ==> forall k :: k in s ==> k in First(s, n)
    decreases n
  {
    if n > 0 && s != {} {
      var least := Least(s);
      FirstMeaning(s - {least}, n - 1);
      assert First(s, n) == [least] + First(s - {least}, n - 1);
    }
  }

  /** They are in order, and cut the set: an element is among them exactly when it is not above the last. */
  lemma {:induction false} FirstCuts(s: set<nat>, n: nat)
    ensures forall i, j :: 0 <= i < j < |First(s, n)| ==> First(s, n)[i] < First(s, n)[j]
    ensures First(s, n) != [] ==> forall k :: k in s ==> (k in First(s, n) <==> k <= First(s, n)[|First(s, n)| - 1])
    decreases n
  {
    if n > 0 && s != {} {
      var least := Least(s);
      var rest := First(s - {least}, n - 1);
      FirstCuts(s - {least}, n - 1);
      FirstMeaning(s - {least}, n - 1);
      assert First(s, n) == [least] + rest;
      forall i | 0 <= i < |rest| ensures least < rest[i] { assert rest[i] in rest; }
      if rest != [] {
        var last := rest[|rest| - 1];
        assert last in rest;
        forall k | k in s ensures k in [least] + rest <==> k <= last { if k != least { assert k in s - {least}; } }
      }
    }
  }

  /** Asking for fewer gives a prefix. */
  lemma {:induction false} FirstPrefix(s: set<nat>, m: nat, n: nat)
    requires m <= n
    ensures First(s, m) == First(s, n)[..if m < |First(s, n)| then m else |First(s, n)|]
    decreases m
  {
    if m > 0 && s != {} {
      FirstPrefix(s - {Least(s)}, m - 1, n - 1);
    }
  }

  /** Any candidate set that kept the first `n` of `all` has the same first `n`. */
  lemma {:induction false} FirstOfKept(all: set<nat>, kept: set<nat>, n: nat)
    requires kept <= all && forall k :: k in First(all, n) ==> k in kept
    ensures First(kept, n) == First(all, n)
    decreases n
  {
    if n > 0 && all != {} {
      var k := Least(all);
      var rest := First(all - {k}, n - 1);
      assert First(all, n) == [k] + rest && First(all, n)[0] == k;
      assert k in kept && IsLeast(kept, k) && Least(kept) == k;
      FirstMeaning(all - {k}, n - 1);
      forall x | x in rest ensures x in kept - {k} { assert x in [k] + rest; }
      FirstOfKept(all - {k}, kept - {k}, n - 1);
    }
  }

  /** What is among the first `n` of the whole is among the first `n` of its part. */
  lemma {:induction false} FirstOfPart(all: set<nat>, part: set<nat>, n: nat, x: nat)
    requires part <= all && x in part && x in First(all, n)
    ensures x in First(part, n)
    decreases n
  {
    var k := Least(all);
    if k in part {
      assert IsLeast(part, k) && Least(part) == k;
      if x != k { FirstOfPart(all - {k}, part - {k}, n - 1, x); }
    } else {
      FirstOfPart(all - {k}, part, n - 1, x);
      FirstPrefix(part, n - 1, n);
    }
  }

  /** Two sets apart concatenate. */
  lemma {:induction false} FirstJoin(a: set<nat>, b: set<nat>, n: nat)
    requires forall x, y :: x in a && y in b ==> x < y
    ensures First(a + b, |a| + n) == First(a, |a|) + First(b, n)
    decreases |a|
  {
    if a == {} {
      assert a + b == b;
    } else {
      var k := Least(a);
      assert IsLeast(a + b, k) && Least(a + b) == k;
      assert (a + b) - {k} == (a - {k}) + b;
      FirstJoin(a - {k}, b, n);
    }
  }

  // ---- the log ----------------------------------------------------------------------------------

  datatype Entry = Entry(seqNo: nat, tenant: TenantId, session: Option<SessionId>, detail: nat)

  datatype Stub = Stub(seqNo: nat, detail: nat)

  type Stubs = map<nat, Stub>
  type Partitions = map<(TenantId, nat), Entry>

  /** Stubs are exactly 1 to n, and each entry shares its stub's sequence in its tenant's partition. */
  ghost predicate Holds(stubs: Stubs, parts: Partitions, log: seq<Entry>) {
    && |log| <= U64_MAX
    && (forall i :: i in stubs <==> 1 <= i <= |log|)
    && (forall i :: 0 <= i < |log| ==> log[i].seqNo == i + 1 && stubs[i + 1] == Stub(i + 1, log[i].detail))
    && (forall k :: k in parts ==> 1 <= k.1 <= |log| && log[k.1 - 1].tenant == k.0 && parts[k] == log[k.1 - 1])
    && (forall i :: 0 <= i < |log| ==> (log[i].tenant, i + 1) in parts)
  }

  datatype AppendError = SequenceExhausted | NoKeys

  /** One past the last stub. */
  method NextSeq(stubs: Stubs) returns (last: nat)
    ensures last in stubs || (last == 0 && stubs == map[])
    ensures forall k :: k in stubs ==> k <= last
  {
    last := 0;
    var rest := stubs.Keys;
    while rest != {}
      invariant rest <= stubs.Keys
      invariant forall k :: k in stubs && k !in rest ==> k <= last
      invariant last in stubs || (last == 0 && rest == stubs.Keys)
      decreases |rest|
    {
      var k :| k in rest;
      if k > last || last !in stubs {
        last := k;
      }
      rest := rest - {k};
    }
  }

  /** Appends an entry and its stub under the next sequence. */
  method Append(stubs: Stubs, parts: Partitions, tenant: TenantId, session: Option<SessionId>, detail: nat,
                live: set<TenantId>,
                ghost log: seq<Entry>)
    returns (r: Result<nat, AppendError>, stubs': Stubs, parts': Partitions)
    requires Holds(stubs, parts, log)
    ensures r.Ok? <==> |log| < U64_MAX && tenant in live
    ensures r.Ok? ==> r.value == |log| + 1 && Holds(stubs', parts', log + [Entry(r.value, tenant, session, detail)])
    ensures r.Err? ==> stubs' == stubs && parts' == parts
  {
    var last := NextSeq(stubs);
    assert |log| > 0 ==> |log| in stubs;
    assert last == |log|;
    if last >= U64_MAX {
      return Err(SequenceExhausted), stubs, parts;
    }
    if tenant !in live {
      return Err(NoKeys), stubs, parts;
    }
    var n := last + 1;
    return Ok(n), stubs[n := Stub(n, detail)], parts[(tenant, n) := Entry(n, tenant, session, detail)];
  }

  // ---- the query -----------------------------------------------------------------------------------

  datatype Scope = All | OwnAndOwned

  datatype Query = Query(actor: TenantId, scope: Scope, session: Option<SessionId>, after: Option<nat>)

  predicate Selected(q: Query, owners: map<SessionId, TenantId>, e: Entry) {
    && (q.session.Some? ==> e.session == q.session)
    && (q.scope.All? || e.tenant == q.actor
        || (e.session.Some? && e.session.value in owners && owners[e.session.value] == q.actor))
  }

  predicate Beyond(after: Option<nat>, n: nat) { after.None? || after.value < n }

  /** Sequences of the records a query selects from the partitions of `live`. */
  ghost function Matches(log: seq<Entry>, q: Query, live: set<TenantId>, owners: map<SessionId, TenantId>): set<nat> {
    set n | 1 <= n <= |log| && log[n - 1].tenant in live && Beyond(q.after, n) && Selected(q, owners, log[n - 1])
  }

  /** `events` are the first of `all`, the rest of them still to come from `rest`. */
  ghost predicate ScanSoFar(all: set<nat>, limit: nat, events: seq<nat>, rest: set<nat>) {
    |events| <= limit && First(all, limit) == events + First(all * rest, limit - |events|)
  }

  lemma ScanStep(all: set<nat>, limit: nat, events: seq<nat>, rest: set<nat>, n: nat)
    requires ScanSoFar(all, limit, events, rest) && |events| < limit
    requires n in rest && forall o :: o in rest ==> n <= o
    ensures ScanSoFar(all, limit, if n in all then events + [n] else events, rest - {n})
  {
    LeastTaken(all, rest, n, limit - |events|);
  }

  /** Walks the sequences of one partition in order, keeping the selected ones up to `limit`. */
  method Scan(parts: Partitions, t: TenantId, q: Query, owners: map<SessionId, TenantId>, keys: set<nat>, limit: nat)
    returns (events: seq<nat>)
    requires forall n :: n in keys ==> (t, n) in parts
    ensures events == First(Kept(parts, t, q, owners, keys), limit)
  {
    events := [];
    var rest := keys;
    ghost var all := Kept(parts, t, q, owners, keys);
    assert all * rest == all;
    while rest != {} && |events| < limit
      invariant rest <= keys && ScanSoFar(all, limit, events, rest)
      decreases |rest|
    {
      LeastExists(rest);
      var n :| n in rest && forall o :: o in rest ==> n <= o;
      ScanStep(all, limit, events, rest, n);
      assert n in all <==> Selected(q, owners, parts[(t, n)]);
      if Selected(q, owners, parts[(t, n)]) {
        events := events + [n];
      }
      rest := rest - {n};
    }
  }

  ghost function Kept(parts: Partitions, t: TenantId, q: Query, owners: map<SessionId, TenantId>,
                      keys: set<nat>): set<nat>
    requires forall n :: n in keys ==> (t, n) in parts
  {
    set n | n in keys && Selected(q, owners, parts[(t, n)])
  }

  /** Up to `limit` selected records of one partition, in order. */
  method Partition(parts: Partitions, t: TenantId, q: Query, owners: map<SessionId, TenantId>, limit: nat,
                   ghost stubs: Stubs, ghost log: seq<Entry>)
    returns (events: seq<nat>)
    requires Holds(stubs, parts, log)
    ensures events == First(Matches(log, q, {t}, owners), limit)
  {
    if q.after.Some? && q.after.value >= U64_MAX {
      assert Matches(log, q, {t}, owners) == {};
      return [];
    }
    var start := if q.after.None? then 0 else q.after.value + 1;
    var keys := set k | k in parts && k.0 == t && k.1 >= start :: k.1;
    events := Scan(parts, t, q, owners, keys, limit);
    assert Kept(parts, t, q, owners, keys) == Matches(log, q, {t}, owners);
  }

  lemma LeastTaken(all: set<nat>, rest: set<nat>, n: nat, k: nat)
    requires n in rest && (forall o :: o in rest ==> n <= o) && k > 0
    ensures First(all * rest, k)
            == if n in all then [n] + First(all * (rest - {n}), k - 1) else First(all * (rest - {n}), k)
  {
    if n in all {
      assert IsLeast(all * rest, n) && Least(all * rest) == n;
      assert all * rest - {n} == all * (rest - {n});
    } else {
      assert all * rest == all * (rest - {n});
    }
  }

  /** Sorts distinct sequences. */
  method Sort(events: seq<nat>) returns (r: seq<nat>)
    requires Distinct(events)
    ensures r == First(Elems(events), |events|)
  {
    r := [];
    var rest := set x | x in events;
    ElemsSize(events);
    while rest != {}
      invariant |r| + |rest| == |events|
      invariant First(Elems(events), |events|) == r + First(rest, |rest|)
      decreases |rest|
    {
      LeastExists(rest);
      var n :| n in rest && forall o :: o in rest ==> n <= o;
      assert IsLeast(rest, n) && Least(rest) == n;
      r, rest := r + [n], rest - {n};
    }
  }

  ghost function Elems(s: seq<nat>): set<nat> { set x | x in s }

  lemma {:induction false} ElemsSize(s: seq<nat>)
    requires Distinct(s)
    ensures |Elems(s)| == |s|
    decreases |s|
  {
    if s != [] {
      var init, last := s[..|s| - 1], s[|s| - 1];
      ElemsSize(init);
      assert s == init + [last];
      assert Elems(s) == Elems(init) + {last};
    }
  }

  // ---- merging partitions -----------------------------------------------------------------------

  /** The records of the partitions of `seen` that their own limit let through. */
  ghost function Gathered(log: seq<Entry>, q: Query, seen: set<TenantId>, owners: map<SessionId, TenantId>,
                          limit: nat): set<nat>
  {
    set n | n in Matches(log, q, seen, owners) && n in First(Matches(log, q, {log[n - 1].tenant}, owners), limit)
  }

  /** Limiting each partition loses nothing the merged limit would keep. */
  lemma GatheredFirst(log: seq<Entry>, q: Query, live: set<TenantId>, owners: map<SessionId, TenantId>, limit: nat)
    ensures First(Gathered(log, q, live, owners, limit), limit) == First(Matches(log, q, live, owners), limit)
  {
    var all := Matches(log, q, live, owners);
    FirstMeaning(all, limit);
    forall n | n in First(all, limit) ensures n in Gathered(log, q, live, owners, limit) {
      FirstOfPart(all, Matches(log, q, {log[n - 1].tenant}, owners), limit, n);
    }
    FirstOfKept(all, Gathered(log, q, live, owners, limit), limit);
  }

  lemma GatheredNext(log: seq<Entry>, q: Query, seen: set<TenantId>, t: TenantId, owners: map<SessionId, TenantId>,
                     limit: nat)
    requires t !in seen
    ensures Gathered(log, q, seen + {t}, owners, limit)
            == Gathered(log, q, seen, owners, limit) + Elems(First(Matches(log, q, {t}, owners), limit))
    ensures forall n :: n in Gathered(log, q, seen, owners, limit) ==> n !in First(Matches(log, q, {t}, owners), limit)
  {
    FirstMeaning(Matches(log, q, {t}, owners), limit);
  }

  lemma JoinDistinct(a: seq<nat>, b: seq<nat>)
    requires Distinct(a) && Distinct(b) && forall n :: n in a ==> n !in b
    ensures Distinct(a + b) && Elems(a + b) == Elems(a) + Elems(b)
  {
    var c := a + b;
    forall i, j | 0 <= i < j < |c| ensures c[i] != c[j] {
      if i < |a| <= j { assert c[i] in a && c[j] in b; }
    }
  }

  /**
   * Keeps at most `limit` matches of each live tenant's partition, merges,
   * sorts and truncates: exactly the first `limit` selected records of the
   * whole log in global order.
   */
  method AuditQuery(parts: Partitions, live: set<TenantId>, q: Query, owners: map<SessionId, TenantId>, limit: nat,
                    ghost stubs: Stubs, ghost log: seq<Entry>)
    returns (r: seq<nat>)
    requires Holds(stubs, parts, log)
    ensures r == First(Matches(log, q, live, owners), limit)
  {
    var events: seq<nat> := [];
    var rest := live;
    assert live - rest == {};
    while rest != {}
      invariant rest <= live
      invariant Distinct(events) && Elems(events) == Gathered(log, q, live - rest, owners, limit)
      decreases |rest|
    {
      var t :| t in rest;
      var part := Partition(parts, t, q, owners, limit, stubs, log);
      GatheredNext(log, q, live - rest, t, owners, limit);
      FirstCuts(Matches(log, q, {t}, owners), limit);
      forall n | n in events ensures n !in part { assert n in Elems(events); }
      JoinDistinct(events, part);
      assert live - (rest - {t}) == (live - rest) + {t};
      events, rest := events + part, rest - {t};
    }
    assert live - rest == live;
    r := Sort(events);
    ElemsSize(events);
    Truncated(Elems(events), |events|, limit);
    r := if |r| > limit then r[..limit] else r;
    GatheredFirst(log, q, live, owners, limit);
  }

  lemma Truncated(s: set<nat>, n: nat, limit: nat)
    requires n == |s|
    ensures |First(s, n)| == n
    ensures First(s, limit) == if n > limit then First(s, n)[..limit] else First(s, n)
  {
    FirstMeaning(s, n);
    FirstMeaning(s, limit);
    if limit < n { FirstPrefix(s, limit, n); } else { FirstPrefix(s, n, limit); }
  }

  // ---- pages -----------------------------------------------------------------------------------------

  const U32_MAX: nat := 0xFFFF_FFFF
  const AUDIT_RECORD_BYTES: nat := 160

  /** A page holds at most what the caller asks for and the reply frame has room for. */
  function PageLimit(requested: nat, budget: nat): (limit: nat)
    requires budget <= U32_MAX
    ensures limit < U32_MAX
  {
    if requested < budget / AUDIT_RECORD_BYTES then requested else budget / AUDIT_RECORD_BYTES
  }

  datatype Page = Page(records: seq<nat>, nextAfter: Option<nat>)

  /** One record beyond the limit tells whether more remain. */
  ghost function PageOf(matches: set<nat>, limit: nat): Page {
    var found := First(matches, limit + 1);
    var more := |found| > limit;
    var records := if more then found[..limit] else found;
    Page(records, if more && records != [] then Some(records[|records| - 1]) else None)
  }

  lemma PageMeaning(matches: set<nat>, limit: nat)
    requires limit >= 1
    ensures var page := PageOf(matches, limit);
            && page.records == First(matches, limit)
            && (page.nextAfter.None? <==> |matches| <= limit)
            && (page.nextAfter.None? ==> Elems(page.records) == matches)
            && (page.nextAfter.Some? ==>
                  && page.nextAfter.value in matches
                  && Elems(page.records) == set n | n in matches && n <= page.nextAfter.value)
  {
    FirstPrefix(matches, limit, limit + 1);
    FirstMeaning(matches, limit + 1);
    FirstMeaning(matches, limit);
    if |matches| > limit {
      CutAtLast(matches, limit);
    } else {
      assert PageOf(matches, limit).records == First(matches, limit + 1);
    }
  }

  /** The first `limit` of more than that are those not above the last of them. */
  lemma CutAtLast(matches: set<nat>, limit: nat)
    requires 1 <= limit < |matches|
    ensures |First(matches, limit)| == limit
    ensures var last := First(matches, limit)[limit - 1];
            last in matches && Elems(First(matches, limit)) == set n | n in matches && n <= last
  {
    FirstMeaning(matches, limit);
    FirstCuts(matches, limit);
    var last := First(matches, limit)[limit - 1];
    assert last in First(matches, limit);
  }

  /** With a limit of zero the page is empty and ends the reading, whatever remains. */
  lemma ZeroLimitPage(matches: set<nat>)
    ensures PageOf(matches, 0) == Page([], None)
  {
    FirstMeaning(matches, 1);
  }

  /**
   * A page tells whether records remain exactly when the caller asks for one
   * and the frame has room for one, or none remain.
   */
  lemma PageHonest(matches: set<nat>, requested: nat, budget: nat)
    requires budget <= U32_MAX
    ensures var page := PageOf(matches, PageLimit(requested, budget));
            (page.nextAfter.None? <==> Elems(page.records) == matches)
            <==> (requested >= 1 && budget >= AUDIT_RECORD_BYTES) || matches == {}
  {
    var limit := PageLimit(requested, budget);
    if limit >= 1 {
      PageMeaning(matches, limit);
      if |matches| > limit {
        FirstMeaning(matches, limit);
        FirstDistinctElems(matches, limit);
      }
    } else {
      ZeroLimitPage(matches);
    }
  }

  lemma FirstDistinctElems(s: set<nat>, n: nat)
    ensures |Elems(First(s, n))| == |First(s, n)|
  {
    FirstCuts(s, n);
    ElemsSize(First(s, n));
  }

  /** What a reader has collected, where it resumes, and whether it was told to stop. */
  datatype Reading = Reading(collected: seq<nat>, after: Option<nat>, done: bool)

  /** A reader that follows `nextAfter`; page `k` is answered from `logs[k]`. */
  ghost function Read(logs: seq<seq<Entry>>, q: Query, live: set<TenantId>, owners: map<SessionId, TenantId>,
                      limit: nat, k: nat): Reading
    requires k <= |logs|
    decreases k
  {
    if k == 0 then Reading([], q.after, false) else
      var before := Read(logs, q, live, owners, limit, k - 1);
      if before.done then before else
        var page := PageOf(Matches(logs[k - 1], q.(after := before.after), live, owners), limit);
        Reading(before.collected + page.records, if page.nextAfter.Some? then page.nextAfter else before.after,
                page.nextAfter.None?)
  }

  ghost predicate Growing(logs: seq<seq<Entry>>) { forall i, j :: 0 <= i <= j < |logs| ==> logs[i] <= logs[j] }

  /** Sequences up to where a reader has come. */
  ghost function UpTo(s: set<nat>, after: Option<nat>): set<nat> { set n | n in s && after.Some? && n <= after.value }

  /** The reader's progress: everything selected up to where it resumes, in order, each once. */
  ghost predicate Progress(log: seq<Entry>, q: Query, live: set<TenantId>, owners: map<SessionId, TenantId>, r: Reading)
  {
    var all := Matches(log, q, live, owners);
    var got := if r.done then all else UpTo(all, r.after);
    && r.collected == First(got, |got|)
    && (q.after.Some? ==> r.after.Some? && q.after.value <= r.after.value)
    && (r.after.Some? && r.after != q.after ==> r.after.value <= |log|)
  }

  lemma NothingYet(log: seq<Entry>, q: Query, live: set<TenantId>, owners: map<SessionId, TenantId>)
    ensures Progress(log, q, live, owners, Reading([], q.after, false))
  {
    assert UpTo(Matches(log, q, live, owners), q.after) == {};
  }

  /** Entries appended later do not change what was selected up to a point already in the log. */
  lemma ProgressGrows(log: seq<Entry>, longer: seq<Entry>, q: Query, live: set<TenantId>,
                      owners: map<SessionId, TenantId>, r: Reading)
    requires log <= longer && !r.done && Progress(log, q, live, owners, r)
    ensures Progress(longer, q, live, owners, r)
  {
    assert UpTo(Matches(log, q, live, owners), r.after) == UpTo(Matches(longer, q, live, owners), r.after);
  }

  lemma ProgressPage(log: seq<Entry>, q: Query, live: set<TenantId>, owners: map<SessionId, TenantId>, limit: nat,
                     r: Reading)
    requires limit >= 1 && !r.done && Progress(log, q, live, owners, r)
    ensures var page := PageOf(Matches(log, q.(after := r.after), live, owners), limit);
            Progress(log, q, live, owners,
                     Reading(r.collected + page.records, if page.nextAfter.Some? then page.nextAfter else r.after,
                             page.nextAfter.None?))
  {
    var ahead := Matches(log, q.(after := r.after), live, owners);
    var got := UpTo(Matches(log, q, live, owners), r.after);
    MatchesSplit(log, q, live, owners, r.after);
    PageJoin(got, ahead, limit);
    PageMeaning(ahead, limit);
  }

  /** A resumed query selects what lies ahead of its point and nothing else changes. */
  lemma MatchesSplit(log: seq<Entry>, q: Query, live: set<TenantId>, owners: map<SessionId, TenantId>,
                     after: Option<nat>)
    requires q.after.Some? ==> after.Some? && q.after.value <= after.value
    ensures var all, ahead := Matches(log, q, live, owners), Matches(log, q.(after := after), live, owners);
            && all == UpTo(all, after) + ahead
            && (forall x, y :: x in UpTo(all, after) && y in ahead ==> x < y)
            && (forall n :: n in ahead ==>
                  && UpTo(all, Some(n)) == UpTo(all, after) + (set m | m in ahead && m <= n)
                  && Beyond(after, n) && n <= |log|)
  {
    var all, ahead := Matches(log, q, live, owners), Matches(log, q.(after := after), live, owners);
    forall n ensures n in all <==> n in UpTo(all, after) || n in ahead {
      if 1 <= n <= |log| {
        assert Selected(q.(after := after), owners, log[n - 1]) <==> Selected(q, owners, log[n - 1]);
      }
    }
    forall n | n in ahead ensures UpTo(all, Some(n)) == UpTo(all, after) + (set m | m in ahead && m <= n) { }
  }

  lemma PageJoin(got: set<nat>, ahead: set<nat>, limit: nat)
    requires limit >= 1 && forall x, y :: x in got && y in ahead ==> x < y
    ensures var page := PageOf(ahead, limit);
            var next := got + (if page.nextAfter.None? then ahead else set n | n in ahead && n <= page.nextAfter.value);
            First(got, |got|) + page.records == First(next, |next|)
  {
    PageMeaning(ahead, limit);
    var part := Elems(First(ahead, limit));
    ListedAgain(ahead, limit);
    PartOf(ahead, limit);
    JoinPart(got, part);
  }

  lemma PartOf(s: set<nat>, n: nat)
    ensures Elems(First(s, n)) <= s
  {
    FirstMeaning(s, n);
  }

  lemma JoinPart(a: set<nat>, b: set<nat>)
    requires forall x, y :: x in a && y in b ==> x < y
    ensures First(a, |a|) + First(b, |b|) == First(a + b, |a + b|)
  {
    Apart(a, b);
    FirstJoin(a, b, |b|);
  }

  /** Listing what was listed gives the same list. */
  lemma ListedAgain(s: set<nat>, n: nat)
    ensures First(Elems(First(s, n)), |Elems(First(s, n))|) == First(s, n)
  {
    var part := Elems(First(s, n));
    FirstMeaning(s, n);
    FirstDistinctElems(s, n);
    FirstOfKept(s, part, n);
    FirstPrefix(part, |part|, n);
  }

  lemma Apart(a: set<nat>, b: set<nat>)
    requires a !! b
    ensures |a + b| == |a| + |b|
  {
  }

  /**
   * Following `nextAfter` with a limit of at least 1 over a log that grows
   * between pages returns the selected records in order, each once; when the
   * reader is told to stop it has all of them.
   */
  lemma {:induction false} PagingExact(logs: seq<seq<Entry>>, q: Query, live: set<TenantId>,
                                       owners: map<SessionId, TenantId>,
                                       limit: nat, k: nat)
    requires Growing(logs) && limit >= 1 && 0 < k <= |logs| && !Read(logs, q, live, owners, limit, k - 1).done
    ensures Progress(logs[k - 1], q, live, owners, Read(logs, q, live, owners, limit, k))
    decreases k
  {
    var before := Read(logs, q, live, owners, limit, k - 1);
    if k == 1 {
      NothingYet(logs[0], q, live, owners);
    } else {
      PagingExact(logs, q, live, owners, limit, k - 1);
      ProgressGrows(logs[k - 2], logs[k - 1], q, live, owners, before);
    }
    ProgressPage(logs[k - 1], q, live, owners, limit, before);
  }

  // ---- a reader alone -------------------------------------------------------------------------------

  /** The log after a reader has been answered `k` times and nothing else was recorded: each read is audited. */
  ghost function Grown(log: seq<Entry>, q: Query, detail: nat -> nat, k: nat): seq<Entry> {
    log + seq(k, i requires 0 <= i => Entry(|log| + i + 1, q.actor, q.session, detail(i)))
  }

  /** What each of the first `n` pages is answered from. */
  ghost function Solo(log: seq<Entry>, q: Query, detail: nat -> nat, n: nat): seq<seq<Entry>> {
    seq(n, k requires 0 <= k => Grown(log, q, detail, k))
  }

  lemma GrownNext(log: seq<Entry>, q: Query, detail: nat -> nat, k: nat)
    ensures Grown(log, q, detail, 0) == log
    ensures Grown(log, q, detail, k + 1)
            == Grown(log, q, detail, k) + [Entry(|log| + k + 1, q.actor, q.session, detail(k))]
  {
  }

  /** A page that leaves records behind leaves `limit` fewer, and its own record joins them. */
  lemma OwnRecordJoins(log: seq<Entry>, q: Query, live: set<TenantId>, owners: map<SessionId, TenantId>, limit: nat,
                       own: Entry)
    requires q.actor in live && own.tenant == q.actor && own.session == q.session
    requires 1 <= limit < |Matches(log, q, live, owners)|
    ensures var page := PageOf(Matches(log, q, live, owners), limit);
            && page.nextAfter.Some?
            && |Matches(log + [own], q.(after := page.nextAfter), live, owners)| + limit
               == |Matches(log, q, live, owners)| + 1
  {
    var all := Matches(log, q, live, owners);
    PageMeaning(all, limit);
    FirstMeaning(all, limit);
    FirstDistinctElems(all, limit);
    var page := PageOf(all, limit);
    var taken := Elems(page.records);
    var next := q.(after := page.nextAfter);
    var ahead := Matches(log + [own], next, live, owners);
    forall n ensures n in ahead <==> n in (all - taken) + {|log| + 1} {
      if 1 <= n <= |log| {
        assert (log + [own])[n - 1] == log[n - 1];
        assert Selected(next, owners, log[n - 1]) <==> Selected(q, owners, log[n - 1]);
      } else if n == |log| + 1 {
        assert (log + [own])[n - 1] == own && Selected(next, owners, own);
      }
    }
    assert ahead == (all - taken) + {|log| + 1};
    assert all == (all - taken) + taken;
  }

  /** The records ahead of a reader that resumes at `after`. */
  ghost function Ahead(log: seq<Entry>, q: Query, live: set<TenantId>, owners: map<SessionId, TenantId>,
                       after: Option<nat>): nat
  {
    |Matches(log, q.(after := after), live, owners)|
  }

  lemma SoloStep(log: seq<Entry>, q: Query, live: set<TenantId>, owners: map<SessionId, TenantId>, limit: nat,
                 own: Entry, after: Option<nat>)
    requires q.actor in live && own.tenant == q.actor && own.session == q.session && limit >= 1
    ensures var page := PageOf(Matches(log, q.(after := after), live, owners), limit);
            if page.nextAfter.None? then Ahead(log, q, live, owners, after) <= limit
            else Ahead(log + [own], q, live, owners, page.nextAfter) + limit == Ahead(log, q, live, owners, after) + 1
  {
    var here := q.(after := after);
    PageMeaning(Matches(log, here, live, owners), limit);
    if Ahead(log, q, live, owners, after) > limit {
      OwnRecordJoins(log, here, live, owners, limit, own);
    }
  }

  /** A reader that goes on resumes where its last page says. */
  lemma ReadOn(logs: seq<seq<Entry>>, q: Query, live: set<TenantId>, owners: map<SessionId, TenantId>, limit: nat,
               k: nat)
    requires 0 < k <= |logs| && !Read(logs, q, live, owners, limit, k).done
    ensures var before := Read(logs, q, live, owners, limit, k - 1);
            var page := PageOf(Matches(logs[k - 1], q.(after := before.after), live, owners), limit);
            !before.done && page.nextAfter.Some? && Read(logs, q, live, owners, limit, k).after == page.nextAfter
  {
  }

  /** How many records lie ahead of a lone reader that was not told to stop. */
  lemma {:induction false} SoloAhead(log: seq<Entry>, q: Query, live: set<TenantId>, owners: map<SessionId, TenantId>,
                                     limit: nat, detail: nat -> nat, n: nat, k: nat)
    requires q.actor in live && limit >= 1 && k <= n && !Read(Solo(log, q, detail, n), q, live, owners, limit, k).done
    ensures var after := Read(Solo(log, q, detail, n), q, live, owners, limit, k).after;
            var ahead := Ahead(Grown(log, q, detail, k), q, live, owners, after);
            var first := |Matches(log, q, live, owners)|;
            if limit == 1 then ahead == first else ahead + k <= first
    decreases k
  {
    if k == 0 {
      GrownNext(log, q, detail, 0);
    } else {
      ReadOn(Solo(log, q, detail, n), q, live, owners, limit, k);
      SoloAhead(log, q, live, owners, limit, detail, n, k - 1);
      GrownNext(log, q, detail, k - 1);
      SoloStep(Grown(log, q, detail, k - 1), q, live, owners, limit,
               Entry(|log| + k, q.actor, q.session, detail(k - 1)),
               Read(Solo(log, q, detail, n), q, live, owners, limit, k - 1).after);
    }
  }

  /** One page more than the records first selected. */
  lemma SoloStops(log: seq<Entry>, q: Query, live: set<TenantId>, owners: map<SessionId, TenantId>, limit: nat,
                  detail: nat -> nat)
    requires q.actor in live && limit >= 1
    requires limit >= 2 || |Matches(log, q, live, owners)| <= 1
    ensures var n := |Matches(log, q, live, owners)| + 1; Read(Solo(log, q, detail, n), q, live, owners, limit, n).done
  {
    var first := |Matches(log, q, live, owners)|;
    var logs := Solo(log, q, detail, first + 1);
    if !Read(logs, q, live, owners, limit, first).done {
      SoloAhead(log, q, live, owners, limit, detail, first + 1, first);
      var after := Read(logs, q, live, owners, limit, first).after;
      PageMeaning(Matches(logs[first], q.(after := after), live, owners), limit);
    }
  }

  lemma {:induction false} SoloGoesOn(log: seq<Entry>, q: Query, live: set<TenantId>, owners: map<SessionId, TenantId>,
                                      detail: nat -> nat, n: nat, k: nat)
    requires q.actor in live && |Matches(log, q, live, owners)| > 1 && k <= n
    ensures !Read(Solo(log, q, detail, n), q, live, owners, 1, k).done
    decreases k
  {
    if k > 0 {
      SoloGoesOn(log, q, live, owners, detail, n, k - 1);
      SoloAhead(log, q, live, owners, 1, detail, n, k - 1);
      var logs := Solo(log, q, detail, n);
      var after := Read(logs, q, live, owners, 1, k - 1).after;
      PageMeaning(Matches(logs[k - 1], q.(after := after), live, owners), 1);
    }
  }

  /**
   * Every read is itself audited, and its reader selects that record. With no
   * other writer a reader is told to stop after some number of pages exactly
   * unless its limit is 1 and more than one record was selected at first.
   */
  lemma SoloReader(log: seq<Entry>, q: Query, live: set<TenantId>, owners: map<SessionId, TenantId>, limit: nat,
                   detail: nat -> nat)
    requires q.actor in live
    ensures (exists n: nat :: Read(Solo(log, q, detail, n), q, live, owners, limit, n).done)
            <==> limit != 1 || |Matches(log, q, live, owners)| <= 1
  {
    if limit == 0 {
      ZeroLimitPage(Matches(log, q, live, owners));
      GrownNext(log, q, detail, 0);
      assert Read(Solo(log, q, detail, 1), q, live, owners, limit, 1).done;
    } else if limit >= 2 || |Matches(log, q, live, owners)| <= 1 {
      SoloStops(log, q, live, owners, limit, detail);
    } else {
      forall n: nat ensures !Read(Solo(log, q, detail, n), q, live, owners, limit, n).done {
        SoloGoesOn(log, q, live, owners, detail, n, n);
      }
    }
  }
}
