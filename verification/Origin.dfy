/**
 * Origins and origin patterns for target-scope authorization: strict parsing
 * of a target's scheme, host and port, pattern matching, and the coverage
 * relation delegation relies on.
 */
module Origin {
  import opened Prelude

  const MAX_HOST_LEN := 253
  const MAX_LABEL_LEN := 63

  type Port = n: nat | n <= 65535

  datatype Scheme = Http | Https {
    function DefaultPort(): Port {
      match this
      case Http => 80
      case Https => 443
    }
    function Text(): string {
      match this
      case Http => "http"
      case Https => "https"
    }
  }

  datatype Host = Domain(name: string) | Ipv4(a: Byte, b: Byte, c: Byte, d: Byte)

  datatype Origin = Origin(scheme: Scheme, host: Host, port: Port)

  datatype HostPattern = AnyHost | Exact(host: Host) | Subdomains(domain: string)

  datatype OriginPattern = OriginPattern(scheme: Option<Scheme>, host: HostPattern, port: Option<Port>)
  {
    predicate AdmitsScheme(s: Scheme) { scheme.None? || scheme.value == s }

    function PortFor(s: Scheme): Port { if port.None? then s.DefaultPort() else port.value }

    predicate Matches(o: Origin) {
      && AdmitsScheme(o.scheme)
      && PortFor(o.scheme) == o.port
      && match host
         case AnyHost => true
         case Exact(h) => h == o.host
         case Subdomains(d) => o.host.Domain? && IsProperSubdomain(o.host.name, d)
    }

    predicate CoversScheme(inner: OriginPattern, s: Scheme) {
      inner.AdmitsScheme(s) ==> AdmitsScheme(s) && PortFor(s) == inner.PortFor(s)
    }

    predicate Covers(inner: OriginPattern) {
      && CoversScheme(inner, Http)
      && CoversScheme(inner, Https)
      && match (host, inner.host)
         case (AnyHost, _) => true
         case (_, AnyHost) => false
         case (Exact(_), Subdomains(_)) => false
         case (Exact(outer), Exact(h)) => outer == h
         case (Subdomains(outer), Exact(h)) => h.Domain? && IsProperSubdomain(h.name, outer)
         case (Subdomains(outer), Subdomains(d)) => d == outer || IsProperSubdomain(d, outer)
    }
  }

  /** `name` is `domain` with at least one more label in front. */
  predicate IsProperSubdomain(name: string, domain: string) {
    && |name| >= |domain| + 2
    && name[|name| - |domain|..] == domain
    && name[|name| - |domain| - 1] == '.'
  }

  type TargetScope = seq<OriginPattern>

  predicate ScopeMatches(scope: TargetScope, o: Origin) {
    exists i :: 0 <= i < |scope| && scope[i].Matches(o)
  }

  predicate SomeCovers(outer: TargetScope, q: OriginPattern) {
    exists j :: 0 <= j < |outer| && outer[j].Covers(q)
  }

  predicate ScopeCovers(outer: TargetScope, inner: TargetScope) {
    forall i :: 0 <= i < |inner| ==> SomeCovers(outer, inner[i])
  }

  // ---- characters -----------------------------------------------------------

  predicate IsGraphic(c: char) { '!' <= c <= '~' }
  predicate IsDigit(c: char) { '0' <= c <= '9' }
  predicate IsUpper(c: char) { 'A' <= c <= 'Z' }
  predicate IsAlnum(c: char) { IsDigit(c) || IsUpper(c) || 'a' <= c <= 'z' }
  predicate IsHexDigit(c: char) { IsDigit(c) || 'a' <= c <= 'f' || 'A' <= c <= 'F' }

  function LowerChar(c: char): char { if IsUpper(c) then c - 'A' + 'a' else c }

  function Lower(s: string): (r: string)
    ensures |r| == |s|
    ensures forall i :: 0 <= i < |s| ==> r[i] == LowerChar(s[i])
  {
    seq(|s|, i requires 0 <= i < |s| => LowerChar(s[i]))
  }

  predicate AllChars(s: string, p: char -> bool) { forall i :: 0 <= i < |s| ==> p(s[i]) }

  /** Position of the first character `p` accepts, or the length. */
  function FindChar(s: string, p: char -> bool): (i: nat)
    ensures i <= |s|
    ensures forall k :: 0 <= k < i ==> !p(s[k])
    ensures i < |s| ==> p(s[i])
  {
    if s == [] || p(s[0]) then 0 else
      assert forall k :: 1 <= k < |s| ==> s[k] == s[1..][k - 1];
      1 + FindChar(s[1..], p)
  }

  predicate SeparatorAt(s: string, k: nat) {
    k + 3 <= |s| && s[k] == ':' && s[k + 1] == '/' && s[k + 2] == '/'
  }

  /** Position of the first "://", if any. */
  function FindSeparator(s: string): (r: Option<nat>)
    ensures r.Some? ==> SeparatorAt(s, r.value) && forall k: nat :: k < r.value ==> !SeparatorAt(s, k)
    ensures r.None? ==> forall k: nat :: !SeparatorAt(s, k)
  {
    if s == [] then None
    else if SeparatorAt(s, 0) then Some(0)
    else
      assert forall k: nat :: k > 0 ==> (SeparatorAt(s, k) <==> SeparatorAt(s[1..], k - 1));
      match FindSeparator(s[1..])
      case None => None
      case Some(k) => Some(k + 1)
  }

  /** The dot-separated labels of `s`. */
  function Labels(s: string): (r: seq<string>)
    ensures |r| > 0
    decreases |s|
  {
    var i := FindChar(s, c => c == '.');
    if i == |s| then [s] else [s[..i]] + Labels(s[i + 1..])
  }

  // ---- parsing --------------------------------------------------------------

  function ParseScheme(text: string): Option<Scheme> {
    if Lower(text) == "http" then Some(Http)
    else if Lower(text) == "https" then Some(Https)
    else None
  }

  /** Reads decimal digits; `None` once the value would pass 65535. */
  function FoldPort(digits: string, acc: Port): Option<Port>
    requires AllChars(digits, IsDigit)
  {
    if digits == [] then Some(acc) else
      var next := acc * 10 + (digits[0] - '0') as nat;
      if next > 65535 then None else FoldPort(digits[1..], next)
  }

  function SplitPort(authority: string): (r: Option<(string, Option<Port>)>)
    ensures r.Some? ==> r.value.1 != Some(0)
  {
    var i := FindChar(authority, c => c == ':');
    if i == |authority| then Some((authority, None)) else
      var digits := authority[i + 1..];
      if digits == [] || !AllChars(digits, IsDigit) then None else
        match FoldPort(digits, 0)
        case None => None
        case Some(port) => if port == 0 then None else Some((authority[..i], Some(port)))
  }

  predicate EndsInNumber(lbl: string) {
    || (lbl != [] && AllChars(lbl, IsDigit))
    || (|lbl| >= 2 && lbl[0] == '0' && (lbl[1] == 'x' || lbl[1] == 'X') && AllChars(lbl[2..], IsHexDigit))
  }

  predicate IsLdhLabel(lbl: string) {
    && 1 <= |lbl| <= MAX_LABEL_LEN
    && AllChars(lbl, c => IsAlnum(c) || c == '-')
    && lbl[0] != '-'
    && lbl[|lbl| - 1] != '-'
  }

  function DecimalValue(digits: string): nat
    requires AllChars(digits, IsDigit)
  {
    if digits == [] then 0
    else DecimalValue(digits[..|digits| - 1]) * 10 + (digits[|digits| - 1] - '0') as nat
  }

  function ParseOctet(lbl: string): Option<Byte> {
    if !(1 <= |lbl| <= 3 && AllChars(lbl, IsDigit) && (lbl == "0" || lbl[0] != '0')) then None
    else if DecimalValue(lbl) > 255 then None
    else Some(DecimalValue(lbl))
  }

  function ParseIpv4(labels: seq<string>): Option<Host> {
    if |labels| != 4 then None else
      var a, b, c, d := ParseOctet(labels[0]), ParseOctet(labels[1]), ParseOctet(labels[2]), ParseOctet(labels[3]);
      if a.None? || b.None? || c.None? || d.None? then None
      else Some(Ipv4(a.value, b.value, c.value, d.value))
  }

  function ParseHost(text: string): Option<Host> {
    if text == [] || |text| > MAX_HOST_LEN then None else
      var labels := Labels(text);
      if EndsInNumber(labels[|labels| - 1]) then ParseIpv4(labels)
      else if forall i :: 0 <= i < |labels| ==> IsLdhLabel(labels[i]) then Some(Domain(Lower(text)))
      else None
  }

  predicate IsAuthorityEnd(c: char) { c == '/' || c == '?' || c == '#' || c == '\\' }

  function ParseOrigin(target: string): Option<Origin> {
    if !AllChars(target, IsGraphic) then None else
      var at := FindSeparator(target);
      if at.None? then None else
        var scheme := ParseScheme(target[..at.value]);
        var rest := target[at.value + 3..];
        var split := SplitPort(rest[..FindChar(rest, IsAuthorityEnd)]);
        if scheme.None? || split.None? then None else
          var host := ParseHost(split.value.0);
          if host.None? then None else
            Some(Origin(scheme.value, host.value,
                        if split.value.1.Some? then split.value.1.value else scheme.value.DefaultPort()))
  }

  function ParseHostPattern(text: string): Option<HostPattern> {
    if text == "*" then Some(AnyHost)
    else if |text| >= 2 && text[..2] == "*." then
      var host := ParseHost(text[2..]);
      if host.Some? && host.value.Domain? then Some(Subdomains(host.value.name)) else None
    else
      var host := ParseHost(text);
      if host.Some? then Some(Exact(host.value)) else None
  }

  function ParsePattern(text: string): Option<OriginPattern> {
    if !AllChars(text, IsGraphic) then None else
      var at := FindSeparator(text);
      var scheme := if at.Some? then ParseScheme(text[..at.value]) else None;
      if at.Some? && scheme.None? then None else
        var split := SplitPort(if at.Some? then text[at.value + 3..] else text);
        if split.None? then None else
          var host := ParseHostPattern(split.value.0);
          if host.None? then None else Some(OriginPattern(scheme, host.value, split.value.1))
  }

  /** Parses every pattern; one bad pattern refuses the scope. */
  function ParseScope(texts: seq<string>): Option<TargetScope> {
    if texts == [] then Some([]) else
      var first, rest := ParsePattern(texts[0]), ParseScope(texts[1..]);
      if first.None? || rest.None? then None else Some([first.value] + rest.value)
  }

  // ---- what parsing accepts -------------------------------------------------

  ghost predicate ValidDomain(d: string) {
    && 1 <= |d| <= MAX_HOST_LEN
    && (forall i :: 0 <= i < |Labels(d)| ==> IsLdhLabel(Labels(d)[i]))
    && !EndsInNumber(Labels(d)[|Labels(d)| - 1])
    && Lower(d) == d
  }

  ghost predicate ValidHost(h: Host) { h.Domain? ==> ValidDomain(h.name) }

  ghost predicate ValidOrigin(o: Origin) { ValidHost(o.host) && o.port != 0 }

  ghost predicate ValidPattern(p: OriginPattern) {
    && p.port != Some(0)
    && match p.host
       case AnyHost => true
       case Exact(h) => ValidHost(h)
       case Subdomains(d) => ValidDomain(d)
  }

  lemma LowerLdh(l: string)
    requires IsLdhLabel(l)
    ensures IsLdhLabel(Lower(l))
  {
    forall i | 0 <= i < |l| ensures IsAlnum(Lower(l)[i]) || Lower(l)[i] == '-' {
      assert IsAlnum(l[i]) || l[i] == '-';
    }
  }

  lemma LowerDigits(l: string)
    ensures AllChars(Lower(l), IsDigit) <==> AllChars(l, IsDigit)
    ensures AllChars(Lower(l), IsHexDigit) <==> AllChars(l, IsHexDigit)
  {
    forall i | 0 <= i < |l|
      ensures IsDigit(Lower(l)[i]) == IsDigit(l[i]) && IsHexDigit(Lower(l)[i]) == IsHexDigit(l[i])
    {
    }
  }

  lemma LowerNumber(l: string)
    ensures EndsInNumber(Lower(l)) == EndsInNumber(l)
  {
    LowerDigits(l);
    if |l| >= 2 {
      LowerDigits(l[2..]);
      assert Lower(l)[2..] == Lower(l[2..]);
    }
  }

  lemma LowerTwice(l: string)
    ensures Lower(Lower(l)) == Lower(l)
  {
  }

  lemma FindCharUnique(s: string, p: char -> bool, i: nat)
    requires i <= |s|
    requires forall k :: 0 <= k < i ==> !p(s[k])
    requires i < |s| ==> p(s[i])
    ensures FindChar(s, p) == i
  {
  }

  /** Splitting at the first dot, wherever it is. */
  lemma LabelsAt(s: string, i: nat)
    requires i <= |s| && (forall k :: 0 <= k < i ==> s[k] != '.') && (i < |s| ==> s[i] == '.')
    ensures Labels(s) == if i == |s| then [s] else [s[..i]] + Labels(s[i + 1..])
  {
    FindCharUnique(s, c => c == '.', i);
  }

  lemma LowerDot(s: string, k: nat)
    requires k < |s|
    ensures Lower(s)[k] == '.' <==> s[k] == '.'
  {
  }

  /** Lower-casing moves no dot. */
  lemma LowerSplit(s: string, i: nat)
    requires i <= |s| && (forall k :: 0 <= k < i ==> s[k] != '.') && (i < |s| ==> s[i] == '.')
    ensures Labels(Lower(s)) == if i == |s| then [Lower(s)] else [Lower(s[..i])] + Labels(Lower(s[i + 1..]))
  {
    forall k | 0 <= k < |s| ensures Lower(s)[k] == '.' <==> s[k] == '.' { LowerDot(s, k); }
    LabelsAt(Lower(s), i);
    if i < |s| {
      assert Lower(s)[i + 1..] == Lower(s[i + 1..]);
      assert Lower(s)[..i] == Lower(s[..i]);
    }
  }

  /** Lower-casing acts label by label. */
  lemma {:induction false} LowerLabels(s: string)
    ensures |Labels(Lower(s))| == |Labels(s)|
    ensures forall k :: 0 <= k < |Labels(s)| ==> Labels(Lower(s))[k] == Lower(Labels(s)[k])
    decreases |s|
  {
    var i := FindChar(s, c => c == '.');
    LabelsAt(s, i);
    LowerSplit(s, i);
    if i < |s| { LowerLabels(s[i + 1..]); }
  }

  lemma LowerDomain(text: string, labels: seq<string>)
    requires 1 <= |text| <= MAX_HOST_LEN && labels == Labels(text) && !EndsInNumber(labels[|labels| - 1])
    requires forall i :: 0 <= i < |labels| ==> IsLdhLabel(labels[i])
    ensures ValidDomain(Lower(text))
  {
    LowerLabels(text);
    var lowered := Labels(Lower(text));
    forall i | 0 <= i < |lowered| ensures IsLdhLabel(lowered[i]) { LowerLdh(labels[i]); }
    LowerNumber(labels[|labels| - 1]);
    LowerTwice(text);
  }

  lemma ParseHostValid(text: string)
    requires ParseHost(text).Some?
    ensures ValidHost(ParseHost(text).value)
  {
    var labels := Labels(text);
    if !EndsInNumber(labels[|labels| - 1]) { LowerDomain(text, labels); }
  }

  lemma HostPatternValid(text: string)
    requires ParseHostPattern(text).Some?
    ensures match ParseHostPattern(text).value
            case AnyHost => true
            case Exact(h) => ValidHost(h)
            case Subdomains(d) => ValidDomain(d)
  {
    if ParseHost(text).Some? { ParseHostValid(text); }
    if |text| >= 2 && ParseHost(text[2..]).Some? { ParseHostValid(text[2..]); }
  }

  lemma ParsePatternValid(text: string)
    requires ParsePattern(text).Some?
    ensures ValidPattern(ParsePattern(text).value)
  {
    var at := FindSeparator(text);
    var split := SplitPort(if at.Some? then text[at.value + 3..] else text);
    HostPatternValid(split.value.0);
  }

  lemma ParseOriginValid(target: string)
    requires ParseOrigin(target).Some?
    ensures ValidOrigin(ParseOrigin(target).value)
  {
    var at := FindSeparator(target).value;
    var rest := target[at + 3..];
    ParseHostValid(SplitPort(rest[..FindChar(rest, IsAuthorityEnd)]).value.0);
  }
}
