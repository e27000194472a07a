/**
 The chart values of a tenant's vCluster: values generated from the request, with the
 user's overrides merged on top.  Overrides contain no null values.
 */
module HelmValues {
  import opened Wrappers

  datatype Value =
    | Text(text: string)
    | Flag(flag: bool)
    | Items(items: seq<Value>)
    | Table(fields: map<string, Value>)

  datatype Request = Request(
    releaseName: string,
    namespace: string,
    chartVersion: string,
    kubernetesVersion: string,
    overrides: map<string, Value>,
    publicApiHost: string,
    publicApiUrl: string,
    syncGatewayApi: bool,
    appsGatewayNamespace: string,
    appsGatewayName: string)

  /** Helm's table merge: overrides win, and tables on both sides are merged key by key. */
  function Merge(over: Value, base: Value): Value
    decreases over
  {
    match over
    case Table(o) =>
      (match base
       case Table(b) =>
         Table(map k | k in o.Keys + b.Keys ::
           if k !in o then b[k] else if k !in b then o[k] else Merge(o[k], b[k]))
       case _ => over)
    case _ => over
  }

  /** The non-table value at a path, if there is one. */
  function LeafAt(v: Value, path: seq<string>): Option<Value> {
    if path == [] then (if v.Table? then None else Some(v))
    else if v.Table? && path[0] in v.fields then LeafAt(v.fields[path[0]], path[1..])
    else None
  }

  /** The overrides decide a path: they hold something there, or a plain value on the way to it. */
  predicate Claims(over: Value, path: seq<string>) {
    path == [] || !over.Table? || (path[0] in over.fields && Claims(over.fields[path[0]], path[1..]))
  }

  /** Every claimed path is as in the overrides, every other as in the base, and nothing else appears. */
  lemma {:induction false} MergeLeaves(over: Value, base: Value, path: seq<string>)
    ensures LeafAt(Merge(over, base), path) == if Claims(over, path) then LeafAt(over, path) else LeafAt(base, path)
    decreases |path|
  {
    if path != [] && over.Table? && base.Table? && path[0] in over.fields && path[0] in base.fields {
      MergeLeaves(over.fields[path[0]], base.fields[path[0]], path[1..]);
    }
    if path != [] && over.Table? && base.Table? && path[0] in over.fields && path[0] !in base.fields {
      UnclaimedIsEmpty(over.fields[path[0]], path[1..]);
    }
    if path != [] && over.Table? && !base.Table? { UnclaimedIsEmpty(over, path); }
  }

  lemma {:induction false} UnclaimedIsEmpty(over: Value, path: seq<string>)
    ensures !Claims(over, path) ==> LeafAt(over, path) == None
  {
    if path != [] && over.Table? && path[0] in over.fields { UnclaimedIsEmpty(over.fields[path[0]], path[1..]); }
  }

  lemma {:induction false} MergeSelf(v: Value)
    ensures Merge(v, v) == v
  {
    if v.Table? {
      forall k | k in v.fields ensures Merge(v.fields[k], v.fields[k]) == v.fields[k] { MergeSelf(v.fields[k]); }
      assert Merge(v, v).fields == v.fields;
    }
  }

  /** Applying the same overrides again changes nothing. */
  lemma {:induction false} MergeTwice(over: Value, base: Value)
    ensures Merge(over, Merge(over, base)) == Merge(over, base)
    decreases over
  {
    if over.Table? {
      var once := Merge(over, base);
      if base.Table? {
        forall k | k in over.fields ensures Merge(over.fields[k], once.fields[k]) == once.fields[k] {
          if k in base.fields { MergeTwice(over.fields[k], base.fields[k]); } else { MergeSelf(over.fields[k]); }
        }
        assert Merge(over, once).fields == once.fields;
      } else {
        MergeSelf(over);
      }
    }
  }

  // ---------- The generated values ----------

  function Single(key: string, v: Value): Value { Table(map[key := v]) }

  function Distro(version: string): Value { Single("k8s", Single("image", Single("tag", Text(version)))) }

  function Proxy(host: string): Value { Single("extraSANs", Items([Text(host)])) }

  function Put(m: map<string, Value>, present: bool, key: string, v: Value): map<string, Value> {
    if present then m[key := v] else m
  }

  function ControlPlane(req: Request): map<string, Value> {
    Put(Put(map[], req.kubernetesVersion != "", "distro", Distro(req.kubernetesVersion)),
        req.publicApiHost != "", "proxy", Proxy(req.publicApiHost))
  }

  function HostRef(req: Request): string { req.appsGatewayNamespace + "/" + req.appsGatewayName }

  function HostGatewayApi(): Value {
    Table(map["enabled" := Flag(true), "httpRoutes" := Single("enabled", Flag(true))])
  }

  function HostGateways(req: Request): Value {
    Table(map["enabled" := Flag(true),
      "mappings" := Single("byName", Single(HostRef(req), Text("default/" + req.appsGatewayName)))])
  }

  function Sync(req: Request): map<string, Value> {
    Put(map["toHost" := Single("gatewayApi", HostGatewayApi())],
        req.appsGatewayName != "" && req.appsGatewayNamespace != "", "fromHost", Single("gateways", HostGateways(req)))
  }

  function Generated(req: Request): map<string, Value> {
    var controlPlane := Put(map[], ControlPlane(req) != map[], "controlPlane", Table(ControlPlane(req)));
    var exported :=
      Put(controlPlane, req.publicApiUrl != "", "exportKubeConfig", Single("server", Text(req.publicApiUrl)));
    Put(exported, req.syncGatewayApi, "sync", Table(Sync(req)))
  }

  function Built(req: Request): map<string, Value> {
    Merge(Table(req.overrides), Table(Generated(req))).fields
  }

  lemma MergeNothing(base: map<string, Value>)
    ensures Merge(Table(map[]), Table(base)) == Table(base)
  {
    assert Merge(Table(map[]), Table(base)).fields == base;
  }

  method WithOverrides(overrides: map<string, Value>, base: map<string, Value>) returns (values: map<string, Value>)
    ensures values == Merge(Table(overrides), Table(base)).fields
  {
    if |overrides| == 0 {
      MergeNothing(base);
      return base;
    }
    return Merge(Table(overrides), Table(base)).fields;
  }

  method BuildValues(req: Request) returns (values: map<string, Value>)
    ensures values == Built(req)
  {
    var base: map<string, Value> := map[];
    var controlPlane: map<string, Value> := map[];
    if req.kubernetesVersion != "" {
      controlPlane := controlPlane["distro" := Distro(req.kubernetesVersion)];
    }
    if req.publicApiHost != "" {
      controlPlane := controlPlane["proxy" := Proxy(req.publicApiHost)];
    }
    assert controlPlane == ControlPlane(req);
    if |controlPlane| > 0 {
      base := base["controlPlane" := Table(controlPlane)];
    }
    if req.publicApiUrl != "" {
      base := base["exportKubeConfig" := Single("server", Text(req.publicApiUrl))];
    }
    if req.syncGatewayApi {
      var sync := map["toHost" := Single("gatewayApi", HostGatewayApi())];
      if req.appsGatewayName != "" && req.appsGatewayNamespace != "" {
        sync := sync["fromHost" := Single("gateways", HostGateways(req))];
      }
      assert sync == Sync(req);
      base := base["sync" := Table(sync)];
    }
    assert base == Generated(req);
    values := WithOverrides(req.overrides, base);
  }

  /** The whole of what the operator generates, path by path. */
  function GeneratedLeaf(req: Request, path: seq<string>): Option<Value> {
    if path == [] then None
    else if path[0] == "controlPlane" then ControlPlaneLeaf(req, path[1..])
    else if path[0] == "exportKubeConfig"
    then if path[1..] == ["server"] && req.publicApiUrl != "" then Some(Text(req.publicApiUrl)) else None
    else if path[0] == "sync" && req.syncGatewayApi then SyncLeaf(req, path[1..])
    else None
  }

  function ControlPlaneLeaf(req: Request, path: seq<string>): Option<Value> {
    if path == ["distro", "k8s", "image", "tag"] && req.kubernetesVersion != "" then Some(Text(req.kubernetesVersion))
    else if path == ["proxy", "extraSANs"] && req.publicApiHost != "" then Some(Items([Text(req.publicApiHost)]))
    else None
  }

  function SyncLeaf(req: Request, path: seq<string>): Option<Value> {
    if path == ["toHost", "gatewayApi", "enabled"] || path == ["toHost", "gatewayApi", "httpRoutes", "enabled"]
    then Some(Flag(true))
    else if req.appsGatewayName != "" && req.appsGatewayNamespace != ""
    then
      if path == ["fromHost", "gateways", "enabled"] then Some(Flag(true))
      else if path == ["fromHost", "gateways", "mappings", "byName", HostRef(req)]
      then Some(Text("default/" + req.appsGatewayName))
      else None
    else None
  }

  lemma PathStep(p: seq<string>, head: string, tail: seq<string>)
    ensures p == [head] + tail <==> p != [] && p[0] == head && p[1..] == tail
  {
    if p != [] { assert p == [p[0]] + p[1..]; }
  }

  lemma SingleLeaf(key: string, v: Value, p: seq<string>, tail: seq<string>)
    ensures LeafAt(Single(key, v), p) == if p != [] && p[0] == key then LeafAt(v, p[1..]) else None
    ensures p == [key] + tail <==> p != [] && p[0] == key && p[1..] == tail
  {
    PathStep(p, key, tail);
  }

  lemma PlainLeaf(v: Value, p: seq<string>)
    requires !v.Table?
    ensures LeafAt(v, p) == if p == [] then Some(v) else None
  {}

  lemma DistroLeaves(version: string, p: seq<string>)
    ensures LeafAt(Distro(version), p) == if p == ["k8s", "image", "tag"] then Some(Text(version)) else None
  {
    var tag := Single("tag", Text(version));
    SingleLeaf("k8s", Single("image", tag), p, ["image", "tag"]);
    if p != [] {
      SingleLeaf("image", tag, p[1..], ["tag"]);
      if p[1..] != [] {
        SingleLeaf("tag", Text(version), p[1..][1..], []);
        if p[1..][1..] != [] { PlainLeaf(Text(version), p[1..][1..][1..]); }
      }
    }
  }

  lemma PairLeaf(key: string, v: Value, p: seq<string>)
    requires !v.Table?
    ensures LeafAt(Single(key, v), p) == if p == [key] then Some(v) else None
  {
    SingleLeaf(key, v, p, []);
    if p != [] { PlainLeaf(v, p[1..]); }
  }

  lemma PutLeaf(m: map<string, Value>, present: bool, key: string, v: Value, p: seq<string>)
    ensures LeafAt(Table(Put(m, present, key, v)), p)
         == if p != [] && p[0] == key && present then LeafAt(v, p[1..]) else LeafAt(Table(m), p)
  {}

  lemma EmptyTable(m: map<string, Value>, p: seq<string>)
    requires m == map[]
    ensures LeafAt(Table(m), p) == None
  {}

  lemma ControlPlaneLeaves(req: Request, p: seq<string>)
    ensures LeafAt(Table(ControlPlane(req)), p) == ControlPlaneLeaf(req, p)
  {
    var distro := Put(map[], req.kubernetesVersion != "", "distro", Distro(req.kubernetesVersion));
    PutLeaf(map[], req.kubernetesVersion != "", "distro", Distro(req.kubernetesVersion), p);
    PutLeaf(distro, req.publicApiHost != "", "proxy", Proxy(req.publicApiHost), p);
    EmptyTable(map[], p);
    PathStep(p, "distro", ["k8s", "image", "tag"]);
    PathStep(p, "proxy", ["extraSANs"]);
    if p != [] {
      DistroLeaves(req.kubernetesVersion, p[1..]);
      PairLeaf("extraSANs", Items([Text(req.publicApiHost)]), p[1..]);
    }
  }

  lemma HostGatewayApiLeaves(p: seq<string>)
    ensures LeafAt(HostGatewayApi(), p)
      == if p == ["enabled"] || p == ["httpRoutes", "enabled"] then Some(Flag(true)) else None
  {
    PathStep(p, "enabled", []);
    PathStep(p, "httpRoutes", ["enabled"]);
    if p != [] {
      PlainLeaf(Flag(true), p[1..]);
      PairLeaf("enabled", Flag(true), p[1..]);
    }
  }

  lemma HostGatewaysLeaves(req: Request, p: seq<string>)
    ensures LeafAt(HostGateways(req), p)
      == if p == ["enabled"] then Some(Flag(true))
         else if p == ["mappings", "byName", HostRef(req)] then Some(Text("default/" + req.appsGatewayName))
         else None
  {
    var target := Text("default/" + req.appsGatewayName);
    PathStep(p, "enabled", []);
    PathStep(p, "mappings", ["byName", HostRef(req)]);
    if p != [] {
      var q := p[1..];
      PlainLeaf(Flag(true), q);
      SingleLeaf("byName", Single(HostRef(req), target), q, [HostRef(req)]);
      if q != [] { PairLeaf(HostRef(req), target, q[1..]); }
    }
  }

  lemma SyncLeaves(req: Request, p: seq<string>)
    ensures LeafAt(Table(Sync(req)), p) == SyncLeaf(req, p)
  {
    PutLeaf(map["toHost" := Single("gatewayApi", HostGatewayApi())],
            req.appsGatewayName != "" && req.appsGatewayNamespace != "", "fromHost",
            Single("gateways", HostGateways(req)), p);
    SingleLeaf("toHost", Single("gatewayApi", HostGatewayApi()), p, ["gatewayApi", "enabled"]);
    PathStep(p, "toHost", ["gatewayApi", "httpRoutes", "enabled"]);
    PathStep(p, "fromHost", ["gateways", "enabled"]);
    PathStep(p, "fromHost", ["gateways", "mappings", "byName", HostRef(req)]);
    if p != [] {
      var q := p[1..];
      SingleLeaf("gatewayApi", HostGatewayApi(), q, ["enabled"]);
      PathStep(q, "gatewayApi", ["httpRoutes", "enabled"]);
      SingleLeaf("gateways", HostGateways(req), q, ["enabled"]);
      PathStep(q, "gateways", ["mappings", "byName", HostRef(req)]);
      if q != [] {
        HostGatewayApiLeaves(q[1..]);
        HostGatewaysLeaves(req, q[1..]);
      }
    }
  }

  lemma GeneratedLeaves(req: Request, p: seq<string>)
    ensures LeafAt(Table(Generated(req)), p) == GeneratedLeaf(req, p)
  {
    var cp, ex, sy := Table(ControlPlane(req)), Single("server", Text(req.publicApiUrl)), Table(Sync(req));
    var m1 := Put(map[], ControlPlane(req) != map[], "controlPlane", cp);
    var m2 := Put(m1, req.publicApiUrl != "", "exportKubeConfig", ex);
    PutLeaf(map[], ControlPlane(req) != map[], "controlPlane", cp, p);
    PutLeaf(m1, req.publicApiUrl != "", "exportKubeConfig", ex, p);
    PutLeaf(m2, req.syncGatewayApi, "sync", sy, p);
    EmptyTable(map[], p);
    if p != [] {
      ControlPlaneLeaves(req, p[1..]);
      if ControlPlane(req) == map[] { EmptyTable(ControlPlane(req), p[1..]); }
      PairLeaf("server", Text(req.publicApiUrl), p[1..]);
      SyncLeaves(req, p[1..]);
    }
  }

  /** What the chart receives: the override where the user decided the path, else the generated value, else nothing. */
  lemma BuiltLeaves(req: Request, p: seq<string>)
    ensures LeafAt(Table(Built(req)), p)
         == if Claims(Table(req.overrides), p) then LeafAt(Table(req.overrides), p) else GeneratedLeaf(req, p)
  {
    MergeLeaves(Table(req.overrides), Table(Generated(req)), p);
    GeneratedLeaves(req, p);
  }

  /** Merging the overrides over the built values once more gives the built values. */
  lemma BuiltIsStable(req: Request)
    ensures Built(req.(overrides := Built(req))) == Built(req)
    ensures Merge(Table(req.overrides), Table(Built(req))) == Table(Built(req))
  {
    MergeTwice(Table(req.overrides), Table(Generated(req)));
    MergeAbsorbs(Table(req.overrides), Table(Generated(req)));
  }

  lemma {:induction false} MergeAbsorbs(over: Value, base: Value)
    ensures Merge(Merge(over, base), base) == Merge(over, base)
    decreases over
  {
    if over.Table? && base.Table? {
      var once := Merge(over, base);
      forall k | k in base.fields ensures Merge(once.fields[k], base.fields[k]) == once.fields[k] {
        if k in over.fields { MergeAbsorbs(over.fields[k], base.fields[k]); } else { MergeSelf(base.fields[k]); }
      }
      assert Merge(once, base).fields == once.fields;
    }
  }
}
