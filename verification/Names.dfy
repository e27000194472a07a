/**
 Every object the operator makes for a tenant has a name computed from the tenant's
 name alone.  This module holds those names, the rule for acceptable tenant names, and
 the argument that two tenants' wildcard hostnames have no host in common.
 Strings are sequences of bytes, as in Go.
 */
module Names {
  import opened Wrappers

  const MAX_TENANT_NAME_LENGTH: nat := 40
  const TENANT_NAMESPACE_PREFIX := "kubespaces-tenant-"
  const TLS_ROUTE_PREFIX := "tenant-api-"
  const TENANT_LISTENER_PREFIX := "t-"
  const TENANT_APPS_CERT_SUFFIX := "-apps-tls"
  const QUOTA_SUFFIX := "-quota"
  const LIMIT_RANGE_SUFFIX := "-limits"

  function TargetNamespace(tenant: string, requested: string): string {
    if requested != "" then requested else TENANT_NAMESPACE_PREFIX + tenant
  }

  function TlsRouteName(tenant: string): string { TLS_ROUTE_PREFIX + tenant }

  function TenantListenerName(tenant: string): string { TENANT_LISTENER_PREFIX + tenant }

  function TenantAppsCertName(tenant: string): string { tenant + TENANT_APPS_CERT_SUFFIX }

  function QuotaName(tenant: string): string { tenant + QUOTA_SUFFIX }

  function LimitRangeName(tenant: string): string { tenant + LIMIT_RANGE_SUFFIX }

  function KubeconfigSecretName(tenant: string): string { "vc-" + tenant }

  function HostFor(tenant: string, apiDomain: string): string { tenant + ".api." + apiDomain }

  function UrlFor(tenant: string, apiDomain: string): string { "https://" + HostFor(tenant, apiDomain) + ":443" }

  function AppsSuffix(tenant: string, domain: string): string { tenant + ".apps." + domain }

  function WildcardFor(tenant: string, domain: string): string { "*." + AppsSuffix(tenant, domain) }

  lemma PrefixInjective(p: string, a: string, b: string)
    ensures p + a == p + b ==> a == b
  {
    assert (p + a)[|p|..] == a && (p + b)[|p|..] == b;
  }

  lemma SuffixInjective(a: string, b: string, s: string)
    ensures a + s == b + s ==> a == b
  {
    if a + s == b + s {
      assert |a + s| == |a| + |s| && |b + s| == |b| + |s|;
      assert (a + s)[..|a|] == a && (b + s)[..|b|] == b;
    }
  }

  /** Distinct tenants never share an object name of any kind. */
  lemma NamesInjective(a: string, b: string)
    ensures TlsRouteName(a) == TlsRouteName(b) ==> a == b
    ensures TenantListenerName(a) == TenantListenerName(b) ==> a == b
    ensures TenantAppsCertName(a) == TenantAppsCertName(b) ==> a == b
    ensures QuotaName(a) == QuotaName(b) ==> a == b
    ensures LimitRangeName(a) == LimitRangeName(b) ==> a == b
    ensures TargetNamespace(a, "") == TargetNamespace(b, "") ==> a == b
    ensures KubeconfigSecretName(a) == KubeconfigSecretName(b) ==> a == b
    ensures forall domain :: HostFor(a, domain) == HostFor(b, domain) ==> a == b
  {
    PrefixInjective("vc-", a, b);
    forall domain ensures HostFor(a, domain) == HostFor(b, domain) ==> a == b {
      SuffixInjective(a, b, ".api." + domain);
      assert a + (".api." + domain) == HostFor(a, domain) && b + (".api." + domain) == HostFor(b, domain);
    }
    PrefixInjective(TLS_ROUTE_PREFIX, a, b);
    PrefixInjective(TENANT_LISTENER_PREFIX, a, b);
    PrefixInjective(TENANT_NAMESPACE_PREFIX, a, b);
    SuffixInjective(a, b, TENANT_APPS_CERT_SUFFIX);
    SuffixInjective(a, b, QUOTA_SUFFIX);
    SuffixInjective(a, b, LIMIT_RANGE_SUFFIX);
  }

  // ---------- Acceptable tenant names ----------

  datatype NameError = NameRequired | NameTooLong | NotALabel

  predicate AlphaNum(c: char) { 'a' <= c <= 'z' || '0' <= c <= '9' }

  predicate LabelChar(c: char) { c == '-' || AlphaNum(c) }

  predicate IsLabel(s: string) {
    |s| > 0 && AlphaNum(s[0]) && AlphaNum(s[|s| - 1]) && forall i | 0 <= i < |s| :: LabelChar(s[i])
  }

  function ValidateTenantName(name: string): Option<NameError> {
    if name == "" then Some(NameRequired)
    else if |name| > MAX_TENANT_NAME_LENGTH then Some(NameTooLong)
    else if !IsLabel(name) then Some(NotALabel)
    else None
  }

  /** The regular expressions the name rule is written in, with their usual meaning. */
  datatype Regex = Class(chars: set<char>) | Cat(first: Regex, second: Regex) | Opt(body: Regex) | Star(body: Regex)

  ghost predicate Matches(r: Regex, s: string)
    decreases r, |s|
  {
    match r
    case Class(chars) => |s| == 1 && s[0] in chars
    case Cat(a, b) => exists i | 0 <= i <= |s| :: Matches(a, s[..i]) && Matches(b, s[i..])
    case Opt(a) => s == "" || Matches(a, s)
    case Star(a) => s == "" || exists i | 0 < i <= |s| :: Matches(a, s[..i]) && Matches(r, s[i..])
  }

  // ^[a-z0-9]([-a-z0-9]*[a-z0-9])?$
  const ALNUM := Class(set c: char | AlphaNum(c))
  const LABEL_CHARS := Class(set c: char | LabelChar(c))
  const DNS1123_LABEL := Cat(ALNUM, Opt(Cat(Star(LABEL_CHARS), ALNUM)))

  lemma {:induction false} StarOfClass(s: string)
    ensures Matches(Star(LABEL_CHARS), s) <==> forall i | 0 <= i < |s| :: LabelChar(s[i])
    decreases |s|
  {
    if s != "" {
      StarOfClass(s[1..]);
      if Matches(Star(LABEL_CHARS), s) {
        var i :| 0 < i <= |s| && Matches(LABEL_CHARS, s[..i]) && Matches(Star(LABEL_CHARS), s[i..]);
        assert i == 1 && s[..1][0] == s[0];
        assert forall k | 1 <= k < |s| :: s[k] == s[1..][k - 1];
      }
      if forall i | 0 <= i < |s| :: LabelChar(s[i]) {
        assert Matches(LABEL_CHARS, s[..1]);
        assert Matches(Star(LABEL_CHARS), s[1..]);
      }
    }
  }

  lemma LabelTailOnly(s: string)
    requires s != "" && Matches(Cat(Star(LABEL_CHARS), ALNUM), s)
    ensures AlphaNum(s[|s| - 1]) && Matches(Star(LABEL_CHARS), s[..|s| - 1])
  {
    var i :| 0 <= i <= |s| && Matches(Star(LABEL_CHARS), s[..i]) && Matches(ALNUM, s[i..]);
    assert i == |s| - 1;
  }

  lemma LabelTail(s: string)
    requires s != ""
    ensures Matches(Cat(Star(LABEL_CHARS), ALNUM), s)
       <==> AlphaNum(s[|s| - 1]) && forall i | 0 <= i < |s| - 1 :: LabelChar(s[i])
  {
    var k := |s| - 1;
    StarOfClass(s[..k]);
    if Matches(Cat(Star(LABEL_CHARS), ALNUM), s) { LabelTailOnly(s); }
    if AlphaNum(s[k]) && Matches(Star(LABEL_CHARS), s[..k]) {
      assert s[k..] == [s[k]];
      assert Matches(ALNUM, s[k..]);
    }
  }

  lemma LabelIsTheRegex(s: string)
    ensures Matches(DNS1123_LABEL, s) <==> IsLabel(s)
  {
    var tail := Opt(Cat(Star(LABEL_CHARS), ALNUM));
    if |s| > 1 { LabelTail(s[1..]); }
    if Matches(DNS1123_LABEL, s) {
      var i :| 0 <= i <= |s| && Matches(ALNUM, s[..i]) && Matches(tail, s[i..]);
      assert i == 1 && s[..1][0] == s[0];
      assert forall k | 1 <= k < |s| :: s[k] == s[1..][k - 1];
    }
    if IsLabel(s) {
      assert Matches(ALNUM, s[..1]);
      assert s[1..] == "" || Matches(Cat(Star(LABEL_CHARS), ALNUM), s[1..]);
      assert Matches(tail, s[1..]);
    }
  }

  /** Exactly the non-empty names of at most 40 bytes in the label language are accepted. */
  lemma AcceptedNames(name: string)
    ensures ValidateTenantName(name) == None <==> |name| <= 40 && Matches(DNS1123_LABEL, name)
  {
    LabelIsTheRegex(name);
  }

  /** An accepted name gives a default namespace that is itself a label and fits Kubernetes' 63-byte limit. */
  lemma DefaultNamespaceIsLabel(name: string)
    requires ValidateTenantName(name) == None
    ensures IsLabel(TargetNamespace(name, "")) && |TargetNamespace(name, "")| <= 58
  {
    var p := TENANT_NAMESPACE_PREFIX;
    assert |p| == 18;
    assert forall i | 0 <= i < |p| :: LabelChar(p[i]);
    assert forall i | |p| <= i < |p + name| :: (p + name)[i] == name[i - |p|];
  }

  // ---------- Hostname isolation ----------

  predicate EndsWith(s: string, suffix: string) {
    |suffix| <= |s| && s[|s| - |suffix|..] == suffix
  }

  /** Gateway API matching of a wildcard hostname: one or more whole labels stand for the star. */
  predicate HostMatches(wildcard: string, host: string) {
    |wildcard| > 2 && wildcard[..2] == "*." && |host| > |wildcard| - 1 && EndsWith(host, wildcard[1..])
  }

  lemma WildcardHosts(tenant: string, domain: string, host: string)
    ensures HostMatches(WildcardFor(tenant, domain), host)
       <==> |host| > |AppsSuffix(tenant, domain)| + 1 && EndsWith(host, "." + AppsSuffix(tenant, domain))
  {
    var w := WildcardFor(tenant, domain);
    assert w[1..] == "." + AppsSuffix(tenant, domain);
    assert |domain| >= 0 && |w| >= 8;
  }

  lemma SuffixesNest(s: string, x: string, y: string)
    requires EndsWith(s, x) && EndsWith(s, y) && |x| <= |y|
    ensures EndsWith(y, x)
  {
    assert y == s[|s| - |y|..];
    assert y[|y| - |x|..] == s[|s| - |x|..];
  }

  lemma CommonTail(x: string, y: string, t: string)
    ensures EndsWith(y + t, x + t) <==> EndsWith(y, x)
  {
    var n := |y + t|;
    if |x| <= |y| {
      assert (y + t)[n - |x + t|..] == y[|y| - |x|..] + t;
      if y[|y| - |x|..] + t == x + t { SuffixInjective(y[|y| - |x|..], x, t); }
    }
  }

  lemma SuffixTrans(s: string, x: string, y: string)
    requires EndsWith(s, y) && EndsWith(y, x)
    ensures EndsWith(s, x)
  {
    assert y == s[|s| - |y|..];
    assert y[|y| - |x|..] == s[|s| - |x|..];
  }

  lemma NestedSuffixesOverlap(a: string, b: string, domain: string, host: string)
    requires EndsWith(b, "." + a) && HostMatches(WildcardFor(b, domain), host)
    ensures HostMatches(WildcardFor(a, domain), host)
  {
    WildcardHosts(a, domain, host);
    WildcardHosts(b, domain, host);
    var sa, sb := AppsSuffix(a, domain), AppsSuffix(b, domain);
    assert EndsWith(sb, "." + sa) by {
      CommonTail("." + a, b, ".apps." + domain);
      assert ("." + a) + (".apps." + domain) == "." + sa;
      assert b + (".apps." + domain) == sb;
    }
    assert EndsWith("." + sb, sb);
    SuffixTrans(host, sb, "." + sb);
    SuffixTrans(host, "." + sa, sb);
  }

  lemma OverlapOneWay(a: string, b: string, domain: string, host: string)
    requires HostMatches(WildcardFor(a, domain), host) && HostMatches(WildcardFor(b, domain), host)
    requires |a| <= |b|
    ensures a == b || EndsWith(b, "." + a)
  {
    WildcardHosts(a, domain, host);
    WildcardHosts(b, domain, host);
    var t := ".apps." + domain;
    var sa, sb := "." + a, "." + b;
    assert "." + AppsSuffix(a, domain) == sa + t && "." + AppsSuffix(b, domain) == sb + t;
    SuffixesNest(host, sa + t, sb + t);
    CommonTail(sa, sb, t);
    if |a| == |b| {
      assert sb[0..] == sa;
      assert sa[1..] == a && sb[1..] == b;
    } else {
      assert sb[|sb| - |sa|..] == b[|b| - |sa|..];
    }
  }

  /** The exact condition, for names of any form: some host is matched by both wildcards iff
      the names are equal or one is a dotted extension of the other. */
  lemma WildcardsOverlap(a: string, b: string, domain: string)
    ensures (exists host :: HostMatches(WildcardFor(a, domain), host) && HostMatches(WildcardFor(b, domain), host))
       <==> (a == b || EndsWith(a, "." + b) || EndsWith(b, "." + a))
  {
    if host :| HostMatches(WildcardFor(a, domain), host) && HostMatches(WildcardFor(b, domain), host) {
      if |a| <= |b| { OverlapOneWay(a, b, domain, host); } else { OverlapOneWay(b, a, domain, host); }
    }
    var ha, hb := "x." + AppsSuffix(a, domain), "x." + AppsSuffix(b, domain);
    assert ha[1..] == "." + AppsSuffix(a, domain) && hb[1..] == "." + AppsSuffix(b, domain);
    WildcardHosts(a, domain, ha);
    WildcardHosts(b, domain, hb);
    if EndsWith(b, "." + a) { NestedSuffixesOverlap(a, b, domain, hb); }
    if EndsWith(a, "." + b) { NestedSuffixesOverlap(b, a, domain, ha); }
  }

  lemma LabelHasNoDottedEnd(a: string, b: string)
    requires IsLabel(a)
    ensures !EndsWith(a, "." + b)
  {
    if |b| < |a| { assert a[|a| - |b| - 1..][0] != ("." + b)[0]; }
  }

  /** Hostname isolation: a host under the wildcards of two accepted names forces the names equal. */
  lemma HostnameIsolation(a: string, b: string, domain: string, host: string)
    requires ValidateTenantName(a) == None && ValidateTenantName(b) == None
    requires HostMatches(WildcardFor(a, domain), host) && HostMatches(WildcardFor(b, domain), host)
    ensures a == b
  {
    WildcardsOverlap(a, b, domain);
    LabelHasNoDottedEnd(a, b);
    LabelHasNoDottedEnd(b, a);
  }
}
