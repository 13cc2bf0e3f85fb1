/**
 * What the target-scope relations mean: the printed form of an origin parses
 * back, `Covers` is exactly inclusion of the matched targets, and scope
 * coverage is sound and transitive.
 */
module OriginLaws {
  import opened Prelude
  import opened Origin

  // ---- printing ---------------------------------------------------------------

  function Decimal(n: nat): string {
    if n < 10 then [n as char + '0'] else Decimal(n / 10) + [(n % 10) as char + '0']
  }

  function HostText(h: Host): string {
    match h
    case Domain(name) => name
    case Ipv4(a, b, c, d) => Decimal(a) + "." + (Decimal(b) + "." + (Decimal(c) + "." + Decimal(d)))
  }

  function OriginText(o: Origin): string {
    o.scheme.Text() + "://" + (HostText(o.host) + ":" + Decimal(o.port))
  }

  lemma {:induction false} DecimalFacts(n: nat)
    ensures Decimal(n) != [] && AllChars(Decimal(n), IsDigit)
    ensures DecimalValue(Decimal(n)) == n
    ensures n == 0 <==> Decimal(n)[0] == '0'
    ensures n < 10 ==> |Decimal(n)| == 1
    ensures n < 100 ==> |Decimal(n)| <= 2
    ensures n < 1000 ==> |Decimal(n)| <= 3
    ensures n == 0 ==> Decimal(n) == "0"
  {
    if n >= 10 {
      DecimalFacts(n / 10);
      assert Decimal(n)[..|Decimal(n)| - 1] == Decimal(n / 10);
    }
  }

  lemma {:induction false} FoldPortSnoc(s: string, c: char, acc: Port)
    requires AllChars(s, IsDigit) && IsDigit(c)
    requires FoldPort(s, acc).Some? && FoldPort(s, acc).value * 10 + (c - '0') as nat <= 65535
    ensures AllChars(s + [c], IsDigit)
    ensures FoldPort(s + [c], acc) == Some(FoldPort(s, acc).value * 10 + (c - '0') as nat)
    decreases |s|
  {
    if s == [] {
      assert (s + [c])[1..] == [];
    } else {
      var next := acc * 10 + (s[0] - '0') as nat;
      FoldPortSnoc(s[1..], c, next);
      assert (s + [c])[1..] == s[1..] + [c];
    }
  }

  lemma {:induction false} FoldPortDecimal(n: Port)
    ensures AllChars(Decimal(n), IsDigit) && FoldPort(Decimal(n), 0) == Some(n)
  {
    DecimalFacts(n);
    if n < 10 {
      assert Decimal(n)[1..] == [];
    } else {
      FoldPortDecimal(n / 10);
      FoldPortSnoc(Decimal(n / 10), (n % 10) as char + '0', 0);
    }
  }

  ghost predicate NoDot(s: string) { forall i :: 0 <= i < |s| ==> s[i] != '.' }

  lemma LabelsCons(front: string, rest: string)
    requires NoDot(front)
    ensures Labels(front + "." + rest) == [front] + Labels(rest)
  {
    var s := front + "." + rest;
    var dot := (c: char) => c == '.';
    FindCharUnique(s, dot, |front|);
    assert s[..|front|] == front && s[|front| + 1..] == rest;
  }

  lemma LabelsOne(s: string)
    requires NoDot(s)
    ensures Labels(s) == [s]
  {
    FindCharUnique(s, c => c == '.', |s|);
  }

  lemma OctetRoundTrip(n: Byte)
    ensures ParseOctet(Decimal(n)) == Some(n) && NoDot(Decimal(n)) && EndsInNumber(Decimal(n))
  {
    DecimalFacts(n);
    forall i | 0 <= i < |Decimal(n)| ensures Decimal(n)[i] != '.' { assert IsDigit(Decimal(n)[i]); }
  }

  /** A host character can occur in no other part of a printed origin. */
  predicate HostChar(c: char) { IsAlnum(c) || c == '-' || c == '.' }

  lemma LabelChars(l: string)
    requires IsLdhLabel(l)
    ensures AllChars(l, HostChar)
  {
    forall k | 0 <= k < |l| ensures HostChar(l[k]) { assert IsAlnum(l[k]) || l[k] == '-'; }
  }

  /** Splitting at the first dot. */
  lemma LabelsSplit(d: string) returns (i: nat)
    ensures i <= |d| && Labels(d)[0] == d[..i]
    ensures i < |d| ==> d[i] == '.' && Labels(d) == [d[..i]] + Labels(d[i + 1..])
  {
    i := FindChar(d, c => c == '.');
  }

  lemma {:induction false} DomainChars(d: string)
    requires forall i :: 0 <= i < |Labels(d)| ==> IsLdhLabel(Labels(d)[i])
    ensures AllChars(d, HostChar)
    decreases |d|
  {
    var i := LabelsSplit(d);
    LabelChars(Labels(d)[0]);
    forall k | 0 <= k < i ensures HostChar(d[k]) { assert d[k] == d[..i][k]; }
    if i < |d| {
      var rest := d[i + 1..];
      forall k | 0 <= k < |Labels(rest)| ensures IsLdhLabel(Labels(rest)[k]) {
        assert Labels(rest)[k] == Labels(d)[k + 1];
      }
      DomainChars(rest);
      forall k | i < k < |d| ensures HostChar(d[k]) { assert d[k] == rest[k - i - 1]; }
    }
  }

  lemma OctetChars(n: Byte)
    ensures 1 <= |Decimal(n)| <= 3 && AllChars(Decimal(n), HostChar)
  {
    DecimalFacts(n);
    forall i | 0 <= i < |Decimal(n)| ensures HostChar(Decimal(n)[i]) { assert IsDigit(Decimal(n)[i]); }
  }

  /** One more label in front of a host text. */
  lemma JoinLabel(front: string, rest: string)
    requires NoDot(front) && AllChars(front, HostChar) && AllChars(rest, HostChar)
    ensures Labels(front + "." + rest) == [front] + Labels(rest)
    ensures AllChars(front + "." + rest, HostChar)
    ensures |front + "." + rest| == |front| + 1 + |rest|
  {
    LabelsCons(front, rest);
    var s := front + "." + rest;
    forall i | 0 <= i < |s| ensures HostChar(s[i]) {
      if i < |front| { assert s[i] == front[i]; } else if i > |front| { assert s[i] == rest[i - |front| - 1]; }
    }
  }

  lemma FourLabels(a: string, b: string, c: string, d: string)
    requires NoDot(a) && NoDot(b) && NoDot(c) && NoDot(d)
    requires AllChars(a, HostChar) && AllChars(b, HostChar) && AllChars(c, HostChar) && AllChars(d, HostChar)
    ensures var text := a + "." + (b + "." + (c + "." + d));
            && Labels(text) == [a, b, c, d]
            && |text| == |a| + |b| + |c| + |d| + 3
            && AllChars(text, HostChar)
  {
    LabelsOne(d);
    JoinLabel(c, d);
    JoinLabel(b, c + "." + d);
    JoinLabel(a, b + "." + (c + "." + d));
  }

  lemma Ipv4Labels(a: Byte, b: Byte, c: Byte, d: Byte)
    ensures var text := HostText(Ipv4(a, b, c, d));
            && Labels(text) == [Decimal(a), Decimal(b), Decimal(c), Decimal(d)]
            && 1 <= |text| <= 15
            && AllChars(text, HostChar)
  {
    OctetRoundTrip(a); OctetRoundTrip(b); OctetRoundTrip(c); OctetRoundTrip(d);
    OctetChars(a); OctetChars(b); OctetChars(c); OctetChars(d);
    FourLabels(Decimal(a), Decimal(b), Decimal(c), Decimal(d));
  }

  lemma HostRoundTrip(h: Host)
    requires ValidHost(h)
    ensures ParseHost(HostText(h)) == Some(h)
    ensures HostText(h) != [] && AllChars(HostText(h), HostChar)
  {
    match h {
      case Domain(name) =>
        DomainChars(name);
      case Ipv4(a, b, c, d) =>
        Ipv4Labels(a, b, c, d);
        OctetRoundTrip(a); OctetRoundTrip(b); OctetRoundTrip(c); OctetRoundTrip(d);
        assert ParseIpv4(Labels(HostText(h))) == Some(h);
    }
  }

  /** The authority part splits back into its host and port. */
  lemma AuthorityRoundTrip(host: string, port: Port)
    requires AllChars(host, HostChar) && port != 0
    ensures var rest := host + ":" + Decimal(port);
            && AllChars(rest, IsGraphic)
            && FindChar(rest, IsAuthorityEnd) == |rest|
            && SplitPort(rest) == Some((host, Some(port)))
  {
    var digits := Decimal(port);
    var rest := host + ":" + digits;
    DecimalFacts(port);
    FoldPortDecimal(port);
    forall i | 0 <= i < |rest| ensures IsGraphic(rest[i]) && !IsAuthorityEnd(rest[i]) {
      if i < |host| { assert HostChar(host[i]); }
      else if i > |host| { assert IsDigit(digits[i - |host| - 1]); }
    }
    FindCharUnique(rest, IsAuthorityEnd, |rest|);
    forall i | 0 <= i < |host| ensures rest[i] != ':' { assert HostChar(host[i]); }
    FindCharUnique(rest, c => c == ':', |host|);
    assert rest[..|host|] == host && rest[|host| + 1..] == digits;
  }

  lemma ParseOriginFrom(text: string, at: nat, rest: string, hostText: string, o: Origin)
    requires AllChars(text, IsGraphic) && FindSeparator(text) == Some(at)
    requires ParseScheme(text[..at]) == Some(o.scheme) && text[at + 3..] == rest
    requires FindChar(rest, IsAuthorityEnd) == |rest|
    requires SplitPort(rest) == Some((hostText, Some(o.port)))
    requires ParseHost(hostText) == Some(o.host)
    ensures ParseOrigin(text) == Some(o)
  {
    assert rest[..|rest|] == rest;
  }

  lemma GraphicText(scheme: string, rest: string)
    requires AllChars(scheme, c => 'a' <= c <= 'z') && AllChars(rest, IsGraphic)
    ensures AllChars(scheme + "://" + rest, IsGraphic)
  {
  }

  lemma SchemeText(s: Scheme)
    ensures AllChars(s.Text(), c => 'a' <= c <= 'z') && ParseScheme(s.Text()) == Some(s)
  {
    assert Lower(s.Text()) == s.Text();
  }

  lemma Cut(a: string, b: string)
    ensures (a + "://" + b)[..|a|] == a && (a + "://" + b)[|a| + 3..] == b
  {
  }

  /** Printing a valid origin and parsing it back is the identity. */
  lemma OriginRoundTrip(o: Origin)
    requires ValidOrigin(o)
    ensures ParseOrigin(OriginText(o)) == Some(o)
  {
    var scheme, host := o.scheme.Text(), HostText(o.host);
    HostRoundTrip(o.host);
    AuthorityRoundTrip(host, o.port);
    SchemeText(o.scheme);
    RoundTripText(o, scheme, host, host + ":" + Decimal(o.port));
  }

  lemma RoundTripText(o: Origin, scheme: string, host: string, rest: string)
    requires AllChars(scheme, c => 'a' <= c <= 'z') && ParseScheme(scheme) == Some(o.scheme)
    requires AllChars(rest, IsGraphic) && FindChar(rest, IsAuthorityEnd) == |rest|
    requires SplitPort(rest) == Some((host, Some(o.port))) && ParseHost(host) == Some(o.host)
    ensures ParseOrigin(scheme + "://" + rest) == Some(o)
  {
    SeparatorOf(scheme, rest);
    GraphicText(scheme, rest);
    Cut(scheme, rest);
    ParseOriginFrom(scheme + "://" + rest, |scheme|, rest, host, o);
  }

  lemma SeparatorOf(scheme: string, rest: string)
    requires AllChars(scheme, c => 'a' <= c <= 'z')
    ensures FindSeparator(scheme + "://" + rest) == Some(|scheme|)
  {
    var text := scheme + "://" + rest;
    assert SeparatorAt(text, |scheme|);
    forall k: nat | k < |scheme| ensures !SeparatorAt(text, k) { assert text[k] == scheme[k]; }
  }

  // ---- coverage is inclusion ----------------------------------------------------

  /** A wildcard domain this long leaves no room for a further label. */
  predicate NoRoom(q: OriginPattern) { q.host.Subdomains? && |q.host.domain| > MAX_HOST_LEN - 2 }

  /** Every target `inner` admits, `outer` admits. */
  ghost predicate AdmitsAll(outer: OriginPattern, inner: OriginPattern) {
    forall t: string :: ParseOrigin(t).Some? && inner.Matches(ParseOrigin(t).value)
                        ==> outer.Matches(ParseOrigin(t).value)
  }

  lemma CoversSound(p: OriginPattern, q: OriginPattern, o: Origin)
    requires p.Covers(q) && q.Matches(o)
    ensures p.Matches(o)
  {
    if p.host.Subdomains? && q.host.Subdomains? && p.host.domain != q.host.domain {
      SubdomainTrans(o.host.name, q.host.domain, p.host.domain);
    }
  }

  lemma SubdomainTrans(name: string, mid: string, outer: string)
    requires IsProperSubdomain(name, mid) && IsProperSubdomain(mid, outer)
    ensures IsProperSubdomain(name, outer)
  {
    var n, m, k := |name|, |mid|, |outer|;
    assert name[n - m..][m - k..] == name[n - k..];
    assert name[n - m..][m - k - 1] == name[n - k - 1];
  }

  lemma LowerJoin(front: string, rest: string)
    requires Lower(front) == front && Lower(rest) == rest
    ensures Lower(front + "." + rest) == front + "." + rest
  {
    var s := front + "." + rest;
    forall i | 0 <= i < |s| ensures LowerChar(s[i]) == s[i] {
      if i < |front| { assert Lower(front)[i] == front[i]; }
      else if i > |front| { assert Lower(rest)[i - |front| - 1] == rest[i - |front| - 1]; }
    }
  }

  lemma LongerLabels(front: char, d: string)
    requires 'a' <= front <= 'z' && (forall i :: 0 <= i < |Labels(d)| ==> IsLdhLabel(Labels(d)[i]))
    ensures var labels := Labels([front] + "." + d);
            && (forall i :: 0 <= i < |labels| ==> IsLdhLabel(labels[i]))
            && labels[|labels| - 1] == Labels(d)[|Labels(d)| - 1]
  {
    LabelsCons([front], d);
    var labels, rest := Labels([front] + "." + d), Labels(d);
    assert labels == [[front]] + rest;
    assert IsLdhLabel([front]);
    forall i | 0 <= i < |labels| ensures IsLdhLabel(labels[i]) {
      if i > 0 { assert labels[i] == rest[i - 1]; }
    }
  }

  lemma LongerIsSubdomain(front: char, d: string)
    ensures IsProperSubdomain([front] + "." + d, d)
  {
    var name := [front] + "." + d;
    assert name[|name| - |d|..] == d;
  }

  /** One more label before the domain `d` is a valid proper subdomain of it. */
  lemma LongerDomainValid(front: char, d: string)
    requires 'a' <= front <= 'z' && ValidDomain(d) && |d| <= MAX_HOST_LEN - 2
    ensures ValidDomain([front] + "." + d) && IsProperSubdomain([front] + "." + d, d)
  {
    LongerLabels(front, d);
    LowerJoin([front], d);
    LongerIsSubdomain(front, d);
  }

  lemma DomainStart(d: string)
    requires ValidDomain(d)
    ensures d[0] != '.'
  {
    var i := FindChar(d, c => c == '.');
    assert Labels(d)[0] == d[..i];
  }

  /** A host `q` admits and `p` does not, when `p`'s host part does not cover `q`'s. */
  ghost function OutsideHost(p: HostPattern, q: HostPattern): Host {
    match q
    case Exact(h) => h
    case AnyHost => if p == Exact(Ipv4(0, 0, 0, 0)) then Ipv4(1, 0, 0, 0) else Ipv4(0, 0, 0, 0)
    case Subdomains(d) => if p == Exact(Domain("a." + d)) then Domain("b." + d) else Domain("a." + d)
  }

  lemma WildcardWitness(outer: string, d: string)
    requires ValidDomain(d) && IsProperSubdomain("a." + d, outer)
    ensures d == outer || IsProperSubdomain(d, outer)
  {
    var name := "a." + d;
    DomainStart(d);
    assert name[|name| - |outer|..] == outer;
    if |outer| == |d| {
      assert name[2..] == d;
    } else {
      assert d[|d| - |outer|..] == name[|name| - |outer|..];
      assert d[|d| - |outer| - 1] == name[|name| - |outer| - 1];
    }
  }

  /** The witnesses for a wildcard are valid and under it. */
  lemma WildcardHosts(d: string)
    requires ValidDomain(d) && |d| <= MAX_HOST_LEN - 2
    ensures ValidDomain("a." + d) && IsProperSubdomain("a." + d, d)
    ensures ValidDomain("b." + d) && IsProperSubdomain("b." + d, d)
    ensures "a." + d != "b." + d
  {
    assert "a." + d == ['a'] + "." + d && "b." + d == ['b'] + "." + d;
    LongerDomainValid('a', d);
    LongerDomainValid('b', d);
    assert ("a." + d)[0] != ("b." + d)[0];
  }

  lemma OutsideWildcard(p: HostPattern, d: string)
    requires ValidDomain(d) && |d| <= MAX_HOST_LEN - 2
    requires "a." + d != "b." + d
    ensures var h := OutsideHost(p, Subdomains(d));
            h.Domain? && match p
                         case AnyHost => true
                         case Exact(e) => e != h
                         case Subdomains(outer) =>
                           IsProperSubdomain(h.name, outer) ==> d == outer || IsProperSubdomain(d, outer)
  {
    if p.Subdomains? && IsProperSubdomain("a." + d, p.domain) {
      WildcardWitness(p.domain, d);
    }
  }

  lemma OutsideHostWorks(p: OriginPattern, q: OriginPattern, s: Scheme)
    requires ValidPattern(p) && ValidPattern(q) && !NoRoom(q) && q.AdmitsScheme(s)
    ensures var o := Origin(s, OutsideHost(p.host, q.host), q.PortFor(s));
            && ValidOrigin(o)
            && q.Matches(o)
            && (p.Matches(o) && p.CoversScheme(q, Http) && p.CoversScheme(q, Https) ==> p.Covers(q))
  {
    if q.host.Subdomains? {
      WildcardHosts(q.host.domain);
      OutsideWildcard(p.host, q.host.domain);
    }
  }

  /**
   * `Covers` is exactly inclusion of the admitted targets, except for a
   * wildcard so long that it admits none.
   */
  lemma CoversExact(p: OriginPattern, q: OriginPattern)
    requires ValidPattern(p) && ValidPattern(q)
    ensures p.Covers(q) || NoRoom(q) <==> AdmitsAll(p, q)
  {
    if p.Covers(q) {
      forall t: string | ParseOrigin(t).Some? && q.Matches(ParseOrigin(t).value)
        ensures p.Matches(ParseOrigin(t).value) { CoversSound(p, q, ParseOrigin(t).value); }
    } else if NoRoom(q) {
      forall t: string | ParseOrigin(t).Some? ensures !q.Matches(ParseOrigin(t).value) { ParseOriginValid(t); }
    } else {
      var s := if q.AdmitsScheme(Http) && !p.CoversScheme(q, Http) then Http
               else if q.AdmitsScheme(Https) && !p.CoversScheme(q, Https) then Https
               else if q.AdmitsScheme(Http) then Http else Https;
      var o := Origin(s, OutsideHost(p.host, q.host), q.PortFor(s));
      OutsideHostWorks(p, q, s);
      OriginRoundTrip(o);
      var t := OriginText(o);
      assert ParseOrigin(t).Some? && q.Matches(ParseOrigin(t).value) && !p.Matches(ParseOrigin(t).value);
    }
  }

  /** A wildcard admits no target at all exactly when its domain leaves no room for a label. */
  lemma NoRoomAdmitsNothing(q: OriginPattern)
    requires ValidPattern(q)
    ensures NoRoom(q) <==> forall t: string :: ParseOrigin(t).Some? ==> !q.Matches(ParseOrigin(t).value)
  {
    if NoRoom(q) {
      forall t: string | ParseOrigin(t).Some? ensures !q.Matches(ParseOrigin(t).value) { ParseOriginValid(t); }
    } else {
      var s := if q.AdmitsScheme(Http) then Http else Https;
      var o := Origin(s, OutsideHost(q.host, q.host), q.PortFor(s));
      OutsideHostWorks(q, q, s);
      OriginRoundTrip(o);
      assert q.Matches(ParseOrigin(OriginText(o)).value);
    }
  }

  /** A text of host characters and stars has no scheme and no port. */
  lemma PlainPattern(text: string)
    requires AllChars(text, c => HostChar(c) || c == '*')
    ensures AllChars(text, IsGraphic) && FindSeparator(text).None? && SplitPort(text) == Some((text, None))
  {
  }

  lemma DomainParses(d: string)
    requires ValidDomain(d)
    ensures ParseHost(d) == Some(Domain(d))
    ensures ParseHostPattern("*." + d) == Some(Subdomains(d))
  {
    assert ("*." + d)[..2] == "*." && ("*." + d)[2..] == d;
  }

  lemma WildcardParses(d: string)
    requires ValidDomain(d)
    ensures ParsePattern("*." + d) == Some(OriginPattern(None, Subdomains(d), None))
  {
    DomainChars(d);
    var text := "*." + d;
    forall i | 0 <= i < |text| ensures HostChar(text[i]) || text[i] == '*' { if i >= 2 { assert text[i] == d[i - 2]; } }
    PlainPattern(text);
    DomainParses(d);
  }

  function Letters(n: nat): string { seq(n, i => 'a') }

  lemma LettersLabel(n: nat)
    requires 1 <= n <= MAX_LABEL_LEN
    ensures IsLdhLabel(Letters(n)) && !EndsInNumber(Letters(n)) && NoDot(Letters(n)) && Lower(Letters(n)) == Letters(n)
  {
    assert Letters(n)[0] == 'a';
  }

  lemma FourLabelDomain(a: string, b: string)
    requires IsLdhLabel(a) && NoDot(a) && Lower(a) == a
    requires IsLdhLabel(b) && NoDot(b) && Lower(b) == b && !EndsInNumber(b)
    requires 3 * |a| + |b| + 3 <= MAX_HOST_LEN
    ensures ValidDomain(a + "." + (a + "." + (a + "." + b)))
  {
    LabelChars(a);
    LabelChars(b);
    FourLabels(a, a, a, b);
    LowerJoin(a, b);
    LowerJoin(a, a + "." + b);
    LowerJoin(a, a + "." + (a + "." + b));
  }

  /** A domain one byte too long for a label to fit in front of it. */
  function LongDomain(): (d: string)
    ensures |d| == MAX_HOST_LEN - 1
  {
    var a := Letters(63);
    a + "." + (a + "." + (a + "." + Letters(60)))
  }

  lemma LongDomainValid()
    ensures ValidDomain(LongDomain())
  {
    LettersLabel(63);
    LettersLabel(60);
    FourLabelDomain(Letters(63), Letters(60));
  }

  lemma ShortPattern()
    ensures ParsePattern("a") == Some(OriginPattern(None, Exact(Domain("a")), None)) && ValidDomain("a")
  {
    LettersLabel(1);
    assert Letters(1) == "a";
    LabelsOne("a");
    DomainParses("a");
    PlainPattern("a");
  }

  /**
   * `Covers` alone is not inclusion: the pattern "a" admits everything the
   * over-long wildcard admits, which is nothing, and does not cover it.
   */
  lemma CoversNotInclusion()
    ensures var p, q := ParsePattern("a"), ParsePattern("*." + LongDomain());
            p.Some? && q.Some? && NoRoom(q.value) && AdmitsAll(p.value, q.value) && !p.value.Covers(q.value)
  {
    LongDomainValid();
    WildcardParses(LongDomain());
    ShortPattern();
    CoversExact(ParsePattern("a").value, ParsePattern("*." + LongDomain()).value);
  }

  // ---- scopes -------------------------------------------------------------------

  lemma ScopeCoversSound(outer: TargetScope, inner: TargetScope, o: Origin)
    requires ScopeCovers(outer, inner) && ScopeMatches(inner, o)
    ensures ScopeMatches(outer, o)
  {
    var i :| 0 <= i < |inner| && inner[i].Matches(o);
    var j :| 0 <= j < |outer| && outer[j].Covers(inner[i]);
    CoversSound(outer[j], inner[i], o);
  }

  lemma CoversTrans(p: OriginPattern, q: OriginPattern, r: OriginPattern)
    requires p.Covers(q) && q.Covers(r)
    ensures p.Covers(r)
  {
    if p.host.Subdomains? && q.host.Subdomains? && p.host.domain != q.host.domain {
      if r.host.Exact? {
        SubdomainTrans(r.host.host.name, q.host.domain, p.host.domain);
      } else if r.host.domain != q.host.domain {
        SubdomainTrans(r.host.domain, q.host.domain, p.host.domain);
      }
    }
  }

  lemma ScopeCoversTrans(a: TargetScope, b: TargetScope, c: TargetScope)
    requires ScopeCovers(a, b) && ScopeCovers(b, c)
    ensures ScopeCovers(a, c)
  {
    forall i | 0 <= i < |c| ensures SomeCovers(a, c[i]) {
      var k :| 0 <= k < |b| && b[k].Covers(c[i]);
      var j :| 0 <= j < |a| && a[j].Covers(b[k]);
      CoversTrans(a[j], b[k], c[i]);
    }
  }

  lemma ScopeCoversRefl(a: TargetScope)
    ensures ScopeCovers(a, a)
  {
    forall i | 0 <= i < |a| ensures SomeCovers(a, a[i]) { assert a[i].Covers(a[i]); }
  }
}
