/** The daemon configuration, the change list between two configurations, and what each change
    takes to become effective. */
module Config {
  import opened Bytes

  datatype LogConfig = LogConfig(level: string, output: string)
  datatype RestConfig = RestConfig(enabled: bool, listen: string, secret: string, secretFile: string)
  datatype ControlConfig = ControlConfig(stdioEnabled: bool, rest: RestConfig)
  datatype SessionConfig = SessionConfig(id: string, autoStart: bool, autoReconnect: bool)
  datatype StateConfig = StateConfig(resumeFile: string)
  datatype ATrustConfig = ATrustConfig(
    server: string, port: int, username: string, password: string, phone: string,
    authType: string, loginDomain: string, updateBestNodesInterval: int)
  datatype UnderlayConfig = UnderlayConfig(iface: string, autoDetect: bool)
  datatype InternetOutbound = InternetOutbound(kind: string, address: string, username: string, password: string)
  datatype RoutingConfig = RoutingConfig(mode: string, internetOutbound: InternetOutbound)
  /** hosts is a Go map, where nil and empty are different values. */
  datatype DnsConfig = DnsConfig(
    remoteEnabled: bool, remoteServer: string, secondaryServer: string,
    cacheTTL: int, listen: string, hosts: Option<map<string, string>>)
  datatype Socks5Config = Socks5Config(enabled: bool, listen: string, username: string, password: string)
  datatype HttpConfig = HttpConfig(enabled: bool, listen: string)
  datatype TunDnsConfig = TunDnsConfig(hijack: bool, fakeIP: bool, fakeIPRange: string)
  datatype TunConfig = TunConfig(
    enabled: bool, name: string, address: string, mtu: nat, autoRoute: bool, routeAll: bool,
    outboundInterface: string, udpIdleTimeout: int, udpMaxFlows: int, dns: TunDnsConfig)
  datatype InboundsConfig = InboundsConfig(socks5: Socks5Config, http: HttpConfig, tun: TunConfig)
  datatype Config = Config(
    version: int, log: LogConfig, control: ControlConfig, session: SessionConfig, state: StateConfig,
    atrust: ATrustConfig, underlay: UnderlayConfig, routing: RoutingConfig, dns: DnsConfig,
    inbounds: InboundsConfig)

  // ---------------------------------------------------------------------------------
  // The configuration as reflection sees it

  datatype Value = Text(s: string) | Number(n: int) | Flag(b: bool) | Table(m: Option<map<string, string>>)
  datatype Node = Leaf(value: Value) | Struct(fields: Fields)
  datatype Fields = End | Field(name: string, node: Node, rest: Fields)

  function LogNode(c: LogConfig): (n: Node)
  {
    Struct(Field("level", Leaf(Text(c.level)), Field("output", Leaf(Text(c.output)), End)))
  }

  function ControlNode(c: ControlConfig): (n: Node)
  {
    Struct(Field("stdio", Struct(Field("enabled", Leaf(Flag(c.stdioEnabled)), End)),
           Field("rest", Struct(Field("enabled", Leaf(Flag(c.rest.enabled)),
                                Field("listen", Leaf(Text(c.rest.listen)),
                                Field("secret", Leaf(Text(c.rest.secret)),
                                Field("secret-file", Leaf(Text(c.rest.secretFile)), End))))), End)))
  }

  function StateNode(c: StateConfig): (n: Node)
  {
    Struct(Field("resume-file", Leaf(Text(c.resumeFile)), End))
  }

  function ATrustNode(c: ATrustConfig): (n: Node)
  {
    Struct(Field("server", Leaf(Text(c.server)), Field("port", Leaf(Number(c.port)),
           Field("username", Leaf(Text(c.username)), Field("password", Leaf(Text(c.password)),
           Field("phone", Leaf(Text(c.phone)), Field("auth-type", Leaf(Text(c.authType)),
           Field("login-domain", Leaf(Text(c.loginDomain)),
           Field("update-best-nodes-interval", Leaf(Number(c.updateBestNodesInterval)), End)))))))))
  }

  function UnderlayNode(c: UnderlayConfig): (n: Node)
  {
    Struct(Field("interface", Leaf(Text(c.iface)), Field("auto-detect", Leaf(Flag(c.autoDetect)), End)))
  }

  function OutboundNode(c: InternetOutbound): (n: Node)
  {
    Struct(Field("type", Leaf(Text(c.kind)), Field("address", Leaf(Text(c.address)),
           Field("username", Leaf(Text(c.username)), Field("password", Leaf(Text(c.password)), End)))))
  }

  function DnsNode(c: DnsConfig): (n: Node)
  {
    Struct(Field("remote", Struct(Field("enabled", Leaf(Flag(c.remoteEnabled)),
                                  Field("server", Leaf(Text(c.remoteServer)), End))),
           Field("secondary", Struct(Field("server", Leaf(Text(c.secondaryServer)), End)),
           Field("cache-ttl", Leaf(Number(c.cacheTTL)), Field("listen", Leaf(Text(c.listen)),
           Field("hosts", Leaf(Table(c.hosts)), End))))))
  }

  function Socks5Node(c: Socks5Config): (n: Node)
  {
    Struct(Field("enabled", Leaf(Flag(c.enabled)), Field("listen", Leaf(Text(c.listen)),
           Field("username", Leaf(Text(c.username)), Field("password", Leaf(Text(c.password)), End)))))
  }

  function HttpNode(c: HttpConfig): (n: Node)
  {
    Struct(Field("enabled", Leaf(Flag(c.enabled)), Field("listen", Leaf(Text(c.listen)), End)))
  }

  function TunNode(c: TunConfig): (n: Node)
  {
    Struct(Field("enabled", Leaf(Flag(c.enabled)), Field("name", Leaf(Text(c.name)),
           Field("address", Leaf(Text(c.address)), Field("mtu", Leaf(Number(c.mtu)),
           Field("auto-route", Leaf(Flag(c.autoRoute)), Field("route-all", Leaf(Flag(c.routeAll)),
           Field("outbound-interface", Leaf(Text(c.outboundInterface)),
           Field("udp", Struct(Field("idle-timeout", Leaf(Number(c.udpIdleTimeout)),
                               Field("max-flows", Leaf(Number(c.udpMaxFlows)), End))),
           Field("dns", Struct(Field("hijack", Leaf(Flag(c.dns.hijack)), Field("fake-ip", Leaf(Flag(c.dns.fakeIP)),
                               Field("fake-ip-range", Leaf(Text(c.dns.fakeIPRange)), End)))), End))))))))))
  }

  function SessionFields(c: SessionConfig): (f: Fields)
  {
    Field("id", Leaf(Text(c.id)), Field("auto-start", Leaf(Flag(c.autoStart)),
    Field("auto-reconnect", Leaf(Flag(c.autoReconnect)), End)))
  }

  function RoutingFields(c: RoutingConfig): (f: Fields)
  {
    Field("mode", Leaf(Text(c.mode)), Field("internet-outbound", OutboundNode(c.internetOutbound), End))
  }

  function InboundsFields(c: InboundsConfig): (f: Fields)
  {
    Field("socks5", Socks5Node(c.socks5), Field("http", HttpNode(c.http), Field("tun", TunNode(c.tun), End)))
  }

  /** The fields of Config in declaration order, under their JSON names. */
  function ConfigFields(c: Config): (f: Fields)
  {
    Field("version", Leaf(Number(c.version)), Field("log", LogNode(c.log), Field("control", ControlNode(c.control),
    Field("session", Struct(SessionFields(c.session)), FieldsFromState(c)))))
  }

  function FieldsFromState(c: Config): (f: Fields)
  {
    Field("state", StateNode(c.state), Field("atrust", ATrustNode(c.atrust),
    Field("underlay", UnderlayNode(c.underlay), FieldsFromRouting(c))))
  }

  function FieldsFromRouting(c: Config): (f: Fields)
  {
    Field("routing", Struct(RoutingFields(c.routing)), Field("dns", DnsNode(c.dns),
    Field("inbounds", Struct(InboundsFields(c.inbounds)), End)))
  }

  // ---------------------------------------------------------------------------------
  // collectChanges

  function Join(path: string, name: string): (p: string)
  {
    if path == "" then name else path + "." + name
  }

  /** The paths at which two values of one Go type differ. Values of one type have the same
      fields in the same order; a misaligned field would be reported under its own name. */
  ghost function Changed(a: Node, b: Node, path: string): (paths: seq<string>)
  {
    if a.Struct? && b.Struct? then ChangedFields(a.fields, b.fields, path)
    else if a == b then [] else [path]
  }

  ghost function ChangedFields(f: Fields, g: Fields, path: string): (paths: seq<string>)
  {
    match (f, g)
    case (End, End) => []
    case (Field(m, a, f'), Field(n, b, g')) =>
      (if m == n then Changed(a, b, Join(path, m)) else [Join(path, m)]) + ChangedFields(f', g', path)
    case (Field(m, _, _), End) => [Join(path, m)]
    case (End, Field(n, _, _)) => [Join(path, n)]
  }

  /** collectChanges: appends to `paths` in field order. */
  method CollectChanges(a: Node, b: Node, path: string, paths: seq<string>) returns (r: seq<string>)
    ensures r == paths + Changed(a, b, path)
    decreases a
  {
    if a.Leaf? || b.Leaf? {
      r := if a != b then paths + [path] else paths;
    } else {
      var f, g := a.fields, b.fields;
      r := paths;
      while f.Field? && g.Field?
        invariant f == a.fields || f < a.fields
        invariant paths + Changed(a, b, path) == r + ChangedFields(f, g, path)
        decreases f
      {
        ghost var before, rest := r, ChangedFields(f.rest, g.rest, path);
        var here := Join(path, f.name);
        if f.name == g.name {
          r := CollectChanges(f.node, g.node, here, r);
          Assoc(before, Changed(f.node, g.node, here), rest);
        } else {
          r := r + [here];
          Assoc(before, [here], rest);
        }
        f, g := f.rest, g.rest;
      }
      if f.Field? || g.Field? {
        r := r + [Join(path, if f.Field? then f.name else g.name)];
      }
    }
  }

  /** A change list is empty exactly between equal values. */
  lemma {:induction false} ChangedEmpty(a: Node, b: Node, path: string)
    ensures Changed(a, b, path) == [] <==> a == b
    decreases a
  {
    if a.Struct? && b.Struct? {
      ChangedFieldsEmpty(a.fields, b.fields, path);
    }
  }

  lemma {:induction false} ChangedFieldsEmpty(f: Fields, g: Fields, path: string)
    ensures ChangedFields(f, g, path) == [] <==> f == g
    decreases f
  {
    if f.Field? && g.Field? {
      ChangedEmpty(f.node, g.node, Join(path, f.name));
      ChangedFieldsEmpty(f.rest, g.rest, path);
    }
  }

  /** strings.HasPrefix */
  predicate HasPrefix(path: string, prefix: string)
  {
    |prefix| <= |path| && path[..|prefix|] == prefix
  }

  lemma PrefixTrans(p: string, q: string, r: string)
    requires HasPrefix(p, q) && HasPrefix(q, r)
    ensures HasPrefix(p, r)
  {
    assert p[..|r|] == p[..|q|][..|r|];
  }

  /** Every path reported below a named struct starts with that name and a dot. */
  lemma {:induction false} ChangedUnder(f: Fields, g: Fields, path: string, p: string)
    requires path != "" && p in ChangedFields(f, g, path)
    ensures HasPrefix(p, path + ".")
    decreases f
  {
    assert forall n :: HasPrefix(Join(path, n), path + ".");
    if f.Field? && g.Field? {
      var here := Join(path, f.name);
      if p in ChangedFields(f.rest, g.rest, path) {
        ChangedUnder(f.rest, g.rest, path, p);
      } else if p != here {
        ChangedUnder(f.node.fields, g.node.fields, here, p);
        assert HasPrefix(here + ".", path + ".");
        PrefixTrans(p, here + ".", path + ".");
      }
    }
  }

  // ---------------------------------------------------------------------------------
  // requirementForPath

  datatype Requirement = Live | SessionRestart | CoreRestart

  function RequirementForPath(path: string): (r: Requirement)
  {
    if path == "routing.mode" then Live
    else if HasPrefix(path, "control.") || HasPrefix(path, "log.") || path == "session.auto-start"
            || HasPrefix(path, "state.") || HasPrefix(path, "inbounds.tun.") then CoreRestart
    else SessionRestart
  }

  /** The paths at which two configurations differ. */
  ghost function Paths(a: Config, b: Config): (paths: seq<string>)
  {
    ChangedFields(ConfigFields(a), ConfigFields(b), "")
  }

  ghost predicate Has(paths: seq<string>, r: Requirement)
  {
    exists i :: 0 <= i < |paths| && RequirementForPath(paths[i]) == r
  }

  lemma HasConcat(x: seq<string>, y: seq<string>, r: Requirement)
    ensures Has(x + y, r) <==> Has(x, r) || Has(y, r)
  {
    if Has(x, r) {
      var i :| 0 <= i < |x| && RequirementForPath(x[i]) == r;
      assert (x + y)[i] == x[i];
    }
    if Has(y, r) {
      var i :| 0 <= i < |y| && RequirementForPath(y[i]) == r;
      assert (x + y)[|x| + i] == y[i];
    }
  }

  /** A block of paths that all need the same. */
  ghost predicate Block(a: Node, b: Node, path: string, need: Requirement)
  {
    forall p :: p in Changed(a, b, path) ==> RequirementForPath(p) == need
  }

  lemma BlockHas(a: Node, b: Node, path: string, need: Requirement, r: Requirement)
    requires Block(a, b, path, need)
    ensures Has(Changed(a, b, path), r) <==> r == need && a != b
  {
    ChangedEmpty(a, b, path);
    var paths := Changed(a, b, path);
    if a != b {
      assert paths[0] in paths;
    }
  }

  /** Everything below the prefix needs the same. */
  ghost predicate Needs(prefix: string, need: Requirement)
  {
    forall p :: HasPrefix(p, prefix) ==> RequirementForPath(p) == need
  }

  lemma NotPrefix(p: string, prefix: string, i: nat)
    requires i < |p| && i < |prefix| && p[i] != prefix[i]
    ensures !HasPrefix(p, prefix)
  {
    assert |prefix| <= |p| ==> p[..|prefix|][i] == p[i];
  }

  /** No prefix of the core's own sections fits. */
  lemma NotCore(p: string)
    requires |p| > 0 && p[0] !in "cls" && (p[0] == 'i' ==> |p| > 9 && p[9] != 't') && p != "routing.mode"
    ensures RequirementForPath(p) == SessionRestart
  {
    NotPrefix(p, "control.", 0);
    NotPrefix(p, "log.", 0);
    NotPrefix(p, "state.", 0);
    NotPrefix(p, "inbounds.tun.", if p[0] == 'i' then 9 else 0);
  }

  lemma SessionNeeds(prefix: string)
    requires |prefix| > 0 && prefix[0] !in "cls" && (prefix[0] == 'i' ==> |prefix| > 9 && prefix[9] != 't')
    requires prefix[0] == 'r' ==> |prefix| > 8 && prefix[8] != 'm'
    ensures Needs(prefix, SessionRestart)
  {
    forall p | HasPrefix(p, prefix)
      ensures RequirementForPath(p) == SessionRestart
    {
      assert forall i :: 0 <= i < |prefix| ==> p[i] == p[..|prefix|][i];
      assert p[0] == prefix[0];
      NotCore(p);
    }
  }

  lemma CoreNeeds(prefix: string)
    requires prefix == "log." || prefix == "control." || prefix == "state." || prefix == "inbounds.tun."
    ensures Needs(prefix, CoreRestart)
  {
    forall p | HasPrefix(p, prefix)
      ensures RequirementForPath(p) == CoreRestart
    {
      assert p[0] == p[..|prefix|][0] == prefix[0] != 'r';
    }
  }

  lemma StructBlock(a: Node, b: Node, path: string, need: Requirement)
    requires a.Struct? && b.Struct? && path != "" && Needs(path + ".", need)
    ensures Block(a, b, path, need)
  {
    forall p | p in Changed(a, b, path)
      ensures RequirementForPath(p) == need
    {
      ChangedUnder(a.fields, b.fields, path, p);
    }
  }

  lemma LeafBlock(a: Node, b: Node, path: string)
    requires a.Leaf? || b.Leaf?
    ensures Block(a, b, path, RequirementForPath(path))
  {
  }

  /** The change list of a struct is that of its first field, then that of the others. */
  lemma Peel(f: Fields, g: Fields, path: string, r: Requirement)
    requires f.Field? && g.Field? && f.name == g.name
    ensures Has(ChangedFields(f, g, path), r) <==>
              Has(Changed(f.node, g.node, Join(path, f.name)), r) || Has(ChangedFields(f.rest, g.rest, path), r)
  {
    HasConcat(Changed(f.node, g.node, Join(path, f.name)), ChangedFields(f.rest, g.rest, path), r);
  }

  lemma PeelLeaf(f: Fields, g: Fields, path: string, need: Requirement, r: Requirement)
    requires f.Field? && g.Field? && f.name == g.name && f.node.Leaf?
    requires RequirementForPath(Join(path, f.name)) == need
    ensures Has(ChangedFields(f, g, path), r) <==>
              (r == need && f.node != g.node) || Has(ChangedFields(f.rest, g.rest, path), r)
  {
    Peel(f, g, path, r);
    LeafBlock(f.node, g.node, Join(path, f.name));
    BlockHas(f.node, g.node, Join(path, f.name), need, r);
  }

  lemma PeelStruct(f: Fields, g: Fields, path: string, need: Requirement, r: Requirement)
    requires f.Field? && g.Field? && f.name == g.name && f.node.Struct? && g.node.Struct?
    requires Join(path, f.name) != "" && Needs(Join(path, f.name) + ".", need)
    ensures Has(ChangedFields(f, g, path), r) <==>
              (r == need && f.node != g.node) || Has(ChangedFields(f.rest, g.rest, path), r)
  {
    Peel(f, g, path, r);
    StructBlock(f.node, g.node, Join(path, f.name), need);
    BlockHas(f.node, g.node, Join(path, f.name), need, r);
  }

  lemma SessionLeaves()
    ensures RequirementForPath(Join("session", "id")) == SessionRestart
    ensures RequirementForPath(Join("session", "auto-start")) == CoreRestart
    ensures RequirementForPath(Join("session", "auto-reconnect")) == SessionRestart
  {
    var id, start, again := Join("session", "id"), Join("session", "auto-start"), Join("session", "auto-reconnect");
    assert start == "session.auto-start";
    assert |id| == 10 && id[1] == 'e';
    assert again[13] == 'r' && again[1] == 'e' && start[13] == 's';
    SessionLeaf(id);
    SessionLeaf(again);
  }

  lemma SessionLeaf(p: string)
    requires |p| > 1 && p[0] == 's' && p[1] == 'e' && p != "session.auto-start"
    ensures RequirementForPath(p) == SessionRestart
  {
    NotPrefix(p, "control.", 0);
    NotPrefix(p, "log.", 0);
    NotPrefix(p, "state.", 1);
    NotPrefix(p, "inbounds.tun.", 0);
  }

  lemma SessionHas(a: SessionConfig, b: SessionConfig, r: Requirement)
    ensures Has(ChangedFields(SessionFields(a), SessionFields(b), "session"), r) <==>
              || (r == SessionRestart && (a.id != b.id || a.autoReconnect != b.autoReconnect))
              || (r == CoreRestart && a.autoStart != b.autoStart)
  {
    SessionLeaves();
    var f, g := SessionFields(a), SessionFields(b);
    PeelLeaf(f, g, "session", SessionRestart, r);
    PeelLeaf(f.rest, g.rest, "session", CoreRestart, r);
    PeelLeaf(f.rest.rest, g.rest.rest, "session", SessionRestart, r);
  }

  lemma RoutingHas(a: RoutingConfig, b: RoutingConfig, r: Requirement)
    ensures Has(ChangedFields(RoutingFields(a), RoutingFields(b), "routing"), r) <==>
              || (r == Live && a.mode != b.mode)
              || (r == SessionRestart && a.internetOutbound != b.internetOutbound)
  {
    var f, g := RoutingFields(a), RoutingFields(b);
    assert Join("routing", "mode") == "routing.mode";
    var below := Join("routing", "internet-outbound") + ".";
    assert below[0] == 'r' && below[8] == 'i';
    SessionNeeds(below);
    PeelLeaf(f, g, "routing", Live, r);
    PeelStruct(f.rest, g.rest, "routing", SessionRestart, r);
  }

  lemma InboundsHas(a: InboundsConfig, b: InboundsConfig, r: Requirement)
    ensures Has(ChangedFields(InboundsFields(a), InboundsFields(b), "inbounds"), r) <==>
              || (r == SessionRestart && (a.socks5 != b.socks5 || a.http != b.http))
              || (r == CoreRestart && a.tun != b.tun)
  {
    var f, g := InboundsFields(a), InboundsFields(b);
    var socks5, http := Join("inbounds", "socks5") + ".", Join("inbounds", "http") + ".";
    assert socks5[0] == 'i' && socks5[9] == 's' && http[0] == 'i' && http[9] == 'h';
    SessionNeeds(socks5);
    SessionNeeds(http);
    assert Join("inbounds", "tun") + "." == "inbounds.tun.";
    CoreNeeds("inbounds.tun.");
    PeelStruct(f, g, "inbounds", SessionRestart, r);
    PeelStruct(f.rest, g.rest, "inbounds", SessionRestart, r);
    PeelStruct(f.rest.rest, g.rest.rest, "inbounds", CoreRestart, r);
  }

  /** What only a restart of the core can change, and what a new session picks up. */
  datatype CorePart = CorePart(log: LogConfig, control: ControlConfig, autoStart: bool, state: StateConfig, tun: TunConfig)
  datatype SessionPart = SessionPart(
    version: int, id: string, autoReconnect: bool, atrust: ATrustConfig, underlay: UnderlayConfig,
    internetOutbound: InternetOutbound, dns: DnsConfig, socks5: Socks5Config, http: HttpConfig)

  function CoreOf(c: Config): (p: CorePart)
  {
    CorePart(c.log, c.control, c.session.autoStart, c.state, c.inbounds.tun)
  }

  function SessionOf(c: Config): (p: SessionPart)
  {
    SessionPart(c.version, c.session.id, c.session.autoReconnect, c.atrust, c.underlay,
                c.routing.internetOutbound, c.dns, c.inbounds.socks5, c.inbounds.http)
  }

  lemma RoutingOnHas(a: Config, b: Config, r: Requirement)
    ensures Has(ChangedFields(FieldsFromRouting(a), FieldsFromRouting(b), ""), r) <==>
              || (r == CoreRestart && a.inbounds.tun != b.inbounds.tun)
              || (r == Live && a.routing.mode != b.routing.mode)
              || (r == SessionRestart &&
                  !(&& a.routing.internetOutbound == b.routing.internetOutbound && a.dns == b.dns
                    && a.inbounds.socks5 == b.inbounds.socks5 && a.inbounds.http == b.inbounds.http))
  {
    var f, g := FieldsFromRouting(a), FieldsFromRouting(b);
    Peel(f, g, "", r);
    RoutingHas(a.routing, b.routing, r);
    SessionNeeds("dns" + ".");
    PeelStruct(f.rest, g.rest, "", SessionRestart, r);
    Peel(f.rest.rest, g.rest.rest, "", r);
    InboundsHas(a.inbounds, b.inbounds, r);
  }

  lemma StateOnHas(a: Config, b: Config, r: Requirement)
    ensures Has(ChangedFields(FieldsFromState(a), FieldsFromState(b), ""), r) <==>
              || (r == CoreRestart && a.state != b.state)
              || (r == SessionRestart && !(a.atrust == b.atrust && a.underlay == b.underlay))
              || Has(ChangedFields(FieldsFromRouting(a), FieldsFromRouting(b), ""), r)
  {
    var f, g := FieldsFromState(a), FieldsFromState(b);
    assert "state" + "." == "state.";
    CoreNeeds("state.");
    PeelStruct(f, g, "", CoreRestart, r);
    SessionNeeds("atrust" + ".");
    PeelStruct(f.rest, g.rest, "", SessionRestart, r);
    SessionNeeds("underlay" + ".");
    PeelStruct(f.rest.rest, g.rest.rest, "", SessionRestart, r);
  }

  lemma VersionOnHas(a: Config, b: Config, r: Requirement)
    ensures Has(Paths(a, b), r) <==>
              || (r == CoreRestart && !(a.log == b.log && a.control == b.control && a.session.autoStart == b.session.autoStart))
              || (r == SessionRestart &&
                  !(a.version == b.version && a.session.id == b.session.id && a.session.autoReconnect == b.session.autoReconnect))
              || Has(ChangedFields(FieldsFromState(a), FieldsFromState(b), ""), r)
  {
    var f, g := ConfigFields(a), ConfigFields(b);
    NotCore("version");
    PeelLeaf(f, g, "", SessionRestart, r);
    assert "log" + "." == "log." && "control" + "." == "control.";
    CoreNeeds("log.");
    PeelStruct(f.rest, g.rest, "", CoreRestart, r);
    CoreNeeds("control.");
    PeelStruct(f.rest.rest, g.rest.rest, "", CoreRestart, r);
    Peel(f.rest.rest.rest, g.rest.rest.rest, "", r);
    SessionHas(a.session, b.session, r);
  }

  lemma ClassifiedAs(a: Config, b: Config, r: Requirement)
    ensures Has(Paths(a, b), r) <==>
              || (r == CoreRestart && CoreOf(a) != CoreOf(b))
              || (r == Live && a.routing.mode != b.routing.mode)
              || (r == SessionRestart && SessionOf(a) != SessionOf(b))
  {
    VersionOnHas(a, b, r);
    StateOnHas(a, b, r);
    RoutingOnHas(a, b, r);
  }

  /** The string classifier and the structure agree: a difference needing a core restart is
      reported exactly when the core parts differ, a live one exactly when the modes do, and
      one needing a new session exactly when anything else does. */
  lemma Classified(a: Config, b: Config)
    ensures Has(Paths(a, b), CoreRestart) <==> CoreOf(a) != CoreOf(b)
    ensures Has(Paths(a, b), Live) <==> a.routing.mode != b.routing.mode
    ensures Has(Paths(a, b), SessionRestart) <==> SessionOf(a) != SessionOf(b)
  {
    ClassifiedAs(a, b, CoreRestart);
    ClassifiedAs(a, b, Live);
    ClassifiedAs(a, b, SessionRestart);
  }

  datatype Change = Change(path: string, need: Requirement)

  /** Each path with what it needs. */
  function Described(paths: seq<string>): (changes: seq<Change>)
    ensures |changes| == |paths|
    ensures forall i :: 0 <= i < |paths| ==> changes[i] == Change(paths[i], RequirementForPath(paths[i]))
  {
    seq(|paths|, i requires 0 <= i < |paths| => Change(paths[i], RequirementForPath(paths[i])))
  }

  /** Go's string order. */
  predicate Before(a: string, b: string)
  {
    if a == "" || b == "" then a == "" && b != ""
    else if a[0] != b[0] then a[0] < b[0]
    else Before(a[1..], b[1..])
  }

  predicate Sorted(changes: seq<Change>)
  {
    forall i, j :: 0 <= i < j < |changes| ==> !Before(changes[j].path, changes[i].path)
  }

  lemma {:induction false} BeforeTotal(a: string, b: string)
    ensures Before(a, b) || Before(b, a) || a == b
    ensures !(Before(a, b) && Before(b, a))
    decreases |a|
  {
    if a != "" && b != "" && a[0] == b[0] {
      BeforeTotal(a[1..], b[1..]);
      assert a == [a[0]] + a[1..] && b == [b[0]] + b[1..];
    }
  }

  lemma {:induction false} BeforeTrans(a: string, b: string, c: string)
    requires !Before(b, a) && !Before(c, b)
    ensures !Before(c, a)
    decreases |a|
  {
    if a != "" && b != "" && c != "" && a[0] == b[0] == c[0] {
      BeforeTrans(a[1..], b[1..], c[1..]);
    }
  }

  /** The sort at the end of Changes, as an insertion into a sorted list. */
  method Insert(sorted: seq<Change>, c: Change) returns (r: seq<Change>)
    requires Sorted(sorted)
    ensures Sorted(r) && multiset(r) == multiset(sorted) + multiset{c}
  {
    var at := |sorted|;
    while at > 0 && Before(c.path, sorted[at - 1].path)
      invariant 0 <= at <= |sorted|
      invariant forall i :: at <= i < |sorted| ==> Before(c.path, sorted[i].path)
    {
      at := at - 1;
    }
    InsertSorts(sorted, c, at);
    r := sorted[..at] + [c] + sorted[at..];
    assert sorted == sorted[..at] + sorted[at..];
  }

  lemma InsertSorts(s: seq<Change>, c: Change, at: nat)
    requires Sorted(s) && at <= |s| && (at > 0 ==> !Before(c.path, s[at - 1].path))
    requires forall i :: at <= i < |s| ==> Before(c.path, s[i].path)
    ensures Sorted(s[..at] + [c] + s[at..])
  {
    var r := s[..at] + [c] + s[at..];
    forall i, j | 0 <= i < j < |r|
      ensures !Before(r[j].path, r[i].path)
    {
      if j == at && i < at - 1 {
        BeforeTrans(s[i].path, s[at - 1].path, c.path);
      } else if i == at {
        BeforeTotal(c.path, r[j].path);
      }
    }
  }

  /** Changes: the differing paths with what each needs, sorted by path; none exactly between
      equal configurations. */
  method Changes(active: Config, configured: Config) returns (changes: seq<Change>)
    ensures multiset(changes) == multiset(Described(Paths(active, configured))) && Sorted(changes)
    ensures changes == [] <==> active == configured
  {
    var paths := CollectChanges(Struct(ConfigFields(active)), Struct(ConfigFields(configured)), "", []);
    assert paths == Paths(active, configured);
    changes := SortedNeeds(paths);
    PathsEmpty(active, configured);
    assert |multiset(changes)| == |changes| && |multiset(Described(paths))| == |paths|;
  }

  method SortedNeeds(paths: seq<string>) returns (changes: seq<Change>)
    ensures multiset(changes) == multiset(Described(paths)) && Sorted(changes)
  {
    changes := [];
    for i := 0 to |paths|
      invariant multiset(changes) == multiset(Described(paths)[..i]) && Sorted(changes)
    {
      changes := Insert(changes, Change(paths[i], RequirementForPath(paths[i])));
      assert Described(paths)[..i + 1] == Described(paths)[..i] + [Described(paths)[i]];
    }
    assert Described(paths)[..|paths|] == Described(paths);
  }

  lemma PathsEmpty(a: Config, b: Config)
    ensures Paths(a, b) == [] <==> a == b
  {
    ChangedFieldsEmpty(ConfigFields(a), ConfigFields(b), "");
    Classified(a, b);
    if Paths(a, b) == [] {
      assert CoreOf(a) == CoreOf(b) && SessionOf(a) == SessionOf(b);
    }
  }

  /** sessionConfigCandidate: the configured values with the running core's own parts. */
  function Candidate(active: Config, configured: Config): (c: Config)
  {
    configured.(log := active.log, control := active.control,
                session := configured.session.(autoStart := active.session.autoStart),
                state := active.state,
                inbounds := configured.inbounds.(tun := active.inbounds.tun))
  }

  /** Going to the candidate needs no core restart, and what it leaves pending needs nothing else. */
  lemma CandidateAgrees(active: Config, configured: Config)
    ensures !Has(Paths(active, Candidate(active, configured)), CoreRestart)
    ensures !Has(Paths(Candidate(active, configured), configured), Live)
    ensures !Has(Paths(Candidate(active, configured), configured), SessionRestart)
  {
    Classified(active, Candidate(active, configured));
    Classified(Candidate(active, configured), configured);
  }

  // ---------------------------------------------------------------------------------
  // CoreConfig

  datatype Resume = Resume(server: string, port: int, username: string, data: string)

  datatype CoreConfig = CoreConfig(
    resume: Option<Resume>, sessionID: string, server: string, port: int, username: string, password: string,
    phone: string, authType: string, loginDomain: string, updateBestNodesSeconds: int, bindInterface: string,
    autoDetectInterface: bool, disableAutoReconnect: bool, disableRemoteDNS: bool, remoteDNSServer: string,
    secondaryDNSServer: string, dnsTTL: int, dnsBind: string, hosts: Option<map<string, string>>,
    routingMode: string, internetOutbound: InternetOutbound, socks: Option<Socks5Config>, httpBind: Option<string>,
    tun: Option<TunConfig>)

  const SECOND := 1_000_000_000

  /** Go's integer division truncates towards zero. */
  function Seconds(d: int): (n: int)
  {
    if d >= 0 then d / SECOND else -((-d) / SECOND)
  }

  /** What a session is started with; a disabled inbound leaves its fields unset, and the TUN's
      idle timeout is passed in whole seconds. */
  function CoreConfigOf(c: Config): (r: CoreConfig)
  {
    CoreConfig(
      None, c.session.id, c.atrust.server, c.atrust.port, c.atrust.username, c.atrust.password,
      c.atrust.phone, c.atrust.authType, c.atrust.loginDomain, Seconds(c.atrust.updateBestNodesInterval), c.underlay.iface,
      c.underlay.autoDetect, !c.session.autoReconnect, !c.dns.remoteEnabled, c.dns.remoteServer,
      c.dns.secondaryServer, Seconds(c.dns.cacheTTL), c.dns.listen, c.dns.hosts,
      c.routing.mode, c.routing.internetOutbound,
      if c.inbounds.socks5.enabled then Some(c.inbounds.socks5) else None,
      if c.inbounds.http.enabled then Some(c.inbounds.http.listen) else None,
      if c.inbounds.tun.enabled then Some(c.inbounds.tun.(udpIdleTimeout := Seconds(c.inbounds.tun.udpIdleTimeout))) else None)
  }

  /** resumeStateMatchesConfig */
  predicate ResumeMatches(r: Resume, c: CoreConfig)
  {
    r.server == c.server && r.port == c.port && (r.username == "" || r.username == c.username)
  }

  function WithResume(c: CoreConfig, r: Option<Resume>): (d: CoreConfig)
  {
    if r.Some? && ResumeMatches(r.value, c) then c.(resume := r) else c
  }
}
