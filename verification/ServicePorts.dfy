/** The ports of the client Service, of the RabbitMQ container, and of the readiness probe, as they
    follow from the TLS settings and the plugin list; and their reconciliation with existing ports. */
module ServicePorts {
  datatype Plugin = MqttPlugin | StompPlugin | WebMqttPlugin | WebStompPlugin | StreamPlugin | MultiDcReplicationPlugin
                  | OtherPlugin(name: string)

  /** `vaultTLS`: certificates come from Vault. */
  datatype Cluster = Cluster(plugins: seq<Plugin>, secretName: string, caSecretName: string, vaultTLS: bool, disableNonTLS: bool)
  {
    predicate Enabled(p: Plugin) { p in plugins }
    predicate SecretTLS() { secretName != "" }
    predicate TLS() { SecretTLS() || vaultTLS }
    predicate MutualTLS() { (SecretTLS() && caSecretName != "") || vaultTLS }
    predicate Stream() { Enabled(StreamPlugin) || Enabled(MultiDcReplicationPlugin) }
  }

  /** The search loop behind `AdditionalPluginEnabled`. */
  method AdditionalPluginEnabled(c: Cluster, plugin: Plugin) returns (found: bool)
    ensures found == c.Enabled(plugin)
  {
    for i := 0 to |c.plugins|
      invariant plugin !in c.plugins[..i]
    {
      if c.plugins[i] == plugin {
        return true;
      }
    }
    assert c.plugins[..|c.plugins|] == c.plugins;
    found := false;
  }

  datatype Listener =
    | Epmd | Amqp | Management | Prometheus | Mqtt | WebMqtt | Stomp | WebStomp | Stream
    | Amqps | ManagementTls | PrometheusTls | Mqtts | Stomps | Streams | WebMqttTls | WebStompTls

  /** The name of a Service port: that of a listener, or one the operator does not know. */
  datatype Name = Of(l: Listener) | Foreign(text: string)

  /** `port` is both the port and the target port, which the operator keeps equal. The protocol is
      always TCP. */
  datatype ServicePort = ServicePort(name: Name, port: nat, nodePort: int)

  datatype ContainerPort = ContainerPort(name: Listener, port: nat)

  // ---------- which ports there should be ----------

  /** The number of the listener behind each port name. */
  function Number(n: Listener): nat {
    match n
    case Epmd => 4369 case Amqp => 5672 case Management => 15672 case Prometheus => 15692
    case Mqtt => 1883 case WebMqtt => 15675 case Stomp => 61613 case WebStomp => 15674 case Stream => 5552
    case Amqps => 5671 case ManagementTls => 15671 case PrometheusTls => 15691
    case Mqtts => 8883 case Stomps => 61614 case Streams => 5551 case WebMqttTls => 15676 case WebStompTls => 15673
  }

  /** Whether a client that does not use TLS can connect to this listener. */
  predicate PlainText(n: Listener) {
    match n
    case Amqp | Management | Prometheus | Mqtt | WebMqtt | Stomp | WebStomp | Stream => true
    case _ => false
  }

  /** The plugin, or none, that a listener belongs to is enabled. */
  predicate Served(c: Cluster, n: Listener) {
    match n
    case Mqtt | Mqtts => c.Enabled(MqttPlugin)
    case Stomp | Stomps => c.Enabled(StompPlugin)
    case WebMqtt | WebMqttTls => c.Enabled(WebMqttPlugin)
    case WebStomp | WebStompTls => c.Enabled(WebStompPlugin)
    case Stream | Streams => c.Stream()
    case _ => true
  }

  /** The reference definition of the Service's ports: of the listeners whose plugin is enabled, the
      plain ones unless they are disabled, those with TLS if it is set up (web protocols need
      mutual TLS), one of the two Prometheus ports, and never the port mapper. */
  predicate Exposed(c: Cluster, n: Listener) {
    Served(c, n) &&
    match n
    case Epmd => false
    case Prometheus => !c.TLS()
    case WebMqttTls | WebStompTls => c.MutualTLS()
    case _ => if PlainText(n) then !c.disableNonTLS else c.TLS()
  }

  function ExposedPort(n: Listener): ServicePort {
    ServicePort(Of(n), Number(n), 0)
  }

  function ServicePortsOf(c: Cluster): map<Listener, ServicePort> {
    map n: Listener | Exposed(c, n) :: ExposedPort(n)
  }

  // ---------- the code that builds them ----------

  /** The blocks in which the operator fills the map. */
  datatype Block = NoBlock | PlainBlock | TLSBlock | MutualTLSBlock

  function BlockOf(n: Listener): Block {
    match n
    case Epmd | Prometheus => NoBlock
    case Amqps | ManagementTls | PrometheusTls | Mqtts | Stomps | Streams => TLSBlock
    case WebMqttTls | WebStompTls => MutualTLSBlock
    case _ => PlainBlock
  }

  ghost predicate Filled(m: map<Listener, ServicePort>, c: Cluster, b: Block) {
    && (forall n: Listener :: n in m <==> BlockOf(n) == b && Served(c, n))
    && (forall n <- m :: m[n] == ExposedPort(n))
  }

  method PlainPorts(c: Cluster) returns (m: map<Listener, ServicePort>)
    ensures Filled(m, c, PlainBlock)
  {
    m := map[];
    m := m[Amqp := ServicePort(Of(Amqp), 5672, 0)];
    m := m[Management := ServicePort(Of(Management), 15672, 0)];
    if c.Enabled(MqttPlugin) {
      m := m[Mqtt := ServicePort(Of(Mqtt), 1883, 0)];
    }
    if c.Enabled(WebMqttPlugin) {
      m := m[WebMqtt := ServicePort(Of(WebMqtt), 15675, 0)];
    }
    if c.Enabled(StompPlugin) {
      m := m[Stomp := ServicePort(Of(Stomp), 61613, 0)];
    }
    if c.Enabled(WebStompPlugin) {
      m := m[WebStomp := ServicePort(Of(WebStomp), 15674, 0)];
    }
    if c.Stream() {
      m := m[Stream := ServicePort(Of(Stream), 5552, 0)];
    }
  }

  method TLSPorts(c: Cluster) returns (m: map<Listener, ServicePort>)
    ensures Filled(m, c, TLSBlock)
  {
    m := map[];
    m := m[Amqps := ServicePort(Of(Amqps), 5671, 0)];
    m := m[ManagementTls := ServicePort(Of(ManagementTls), 15671, 0)];
    if c.Enabled(StompPlugin) {
      m := m[Stomps := ServicePort(Of(Stomps), 61614, 0)];
    }
    if c.Enabled(MqttPlugin) {
      m := m[Mqtts := ServicePort(Of(Mqtts), 8883, 0)];
    }
    if c.Stream() {
      m := m[Streams := ServicePort(Of(Streams), 5551, 0)];
    }
    m := m[PrometheusTls := ServicePort(Of(PrometheusTls), 15691, 0)];
  }

  method MutualTLSPorts(c: Cluster) returns (m: map<Listener, ServicePort>)
    ensures Filled(m, c, MutualTLSBlock)
  {
    m := map[];
    if c.Enabled(WebStompPlugin) {
      m := m[WebStompTls := ServicePort(Of(WebStompTls), 15673, 0)];
    }
    if c.Enabled(WebMqttPlugin) {
      m := m[WebMqttTls := ServicePort(Of(WebMqttTls), 15676, 0)];
    }
  }

  method GenerateServicePortsMap(c: Cluster) returns (m: map<Listener, ServicePort>)
    ensures m == ServicePortsOf(c)
  {
    var plain, tls, mutual := map[], map[Prometheus := ServicePort(Of(Prometheus), 15692, 0)], map[];
    if !c.disableNonTLS {
      plain := PlainPorts(c);
    }
    if c.TLS() {
      tls := TLSPorts(c);
    }
    if c.MutualTLS() {
      mutual := MutualTLSPorts(c);
    }
    m := plain + tls + mutual;
  }

  /** The reference definition of the container's ports. The plain Prometheus port is open unless
      plain listeners are disabled; with those disabled, TLS is taken to be set up. */
  predicate Open(c: Cluster, n: Listener) {
    Served(c, n) &&
    if n == Epmd then true
    else if PlainText(n) then !c.disableNonTLS
    else if n == WebMqttTls || n == WebStompTls then c.MutualTLS()
    else c.TLS() || c.disableNonTLS
  }

  ghost predicate Numbered(ports: seq<ContainerPort>) {
    forall p <- ports :: p.port == Number(p.name)
  }

  ghost predicate Has(ports: seq<ContainerPort>, n: Listener) {
    ContainerPort(n, Number(n)) in ports
  }

  /** The list holds the open ports and no others, each under its number. */
  ghost predicate Holds(ports: seq<ContainerPort>, c: Cluster) {
    Numbered(ports) && forall n: Listener :: Has(ports, n) <==> Open(c, n)
  }

  method Append(ports: seq<ContainerPort>, port: ContainerPort) returns (r: seq<ContainerPort>)
    requires Numbered(ports) && port.port == Number(port.name)
    ensures Numbered(r)
    ensures forall n {:trigger Has(r, n)} :: Has(r, n) <==> Has(ports, n) || n == port.name
  {
    r := ports + [port];
  }

  method PlainContainerPorts(c: Cluster) returns (ports: seq<ContainerPort>)
    ensures Numbered(ports)
    ensures forall n: Listener :: Has(ports, n) <==> (n == Epmd || PlainText(n)) && Served(c, n)
  {
    ports := Append([], ContainerPort(Epmd, 4369));
    ports := Append(ports, ContainerPort(Amqp, 5672));
    ports := Append(ports, ContainerPort(Management, 15672));
    ports := Append(ports, ContainerPort(Prometheus, 15692));
    ports := AppendPluginPorts(c, ports);
  }

  predicate OfPlainPlugin(n: Listener) {
    n.Mqtt? || n.WebMqtt? || n.Stomp? || n.WebStomp? || n.Stream?
  }

  method AppendPluginPorts(c: Cluster, before: seq<ContainerPort>) returns (ports: seq<ContainerPort>)
    requires Numbered(before)
    ensures Numbered(ports)
    ensures forall n {:trigger Has(ports, n)} :: Has(ports, n) <==> Has(before, n) || (OfPlainPlugin(n) && Served(c, n))
  {
    ports := before;
    if c.Enabled(MqttPlugin) {
      ports := Append(ports, ContainerPort(Mqtt, 1883));
    }
    if c.Enabled(WebMqttPlugin) {
      ports := Append(ports, ContainerPort(WebMqtt, 15675));
    }
    if c.Enabled(StompPlugin) {
      ports := Append(ports, ContainerPort(Stomp, 61613));
    }
    if c.Enabled(WebStompPlugin) {
      ports := Append(ports, ContainerPort(WebStomp, 15674));
    }
    if c.Stream() {
      ports := Append(ports, ContainerPort(Stream, 5552));
    }
  }

  method TLSContainerPorts(c: Cluster) returns (ports: seq<ContainerPort>)
    ensures Numbered(ports)
    ensures forall n: Listener :: Has(ports, n) <==> BlockOf(n) == TLSBlock && Served(c, n)
  {
    ports := Append([], ContainerPort(Amqps, 5671));
    ports := Append(ports, ContainerPort(ManagementTls, 15671));
    ports := Append(ports, ContainerPort(PrometheusTls, 15691));
    if c.Enabled(MqttPlugin) {
      ports := Append(ports, ContainerPort(Mqtts, 8883));
    }
    if c.Enabled(StompPlugin) {
      ports := Append(ports, ContainerPort(Stomps, 61614));
    }
    if c.Stream() {
      ports := Append(ports, ContainerPort(Streams, 5551));
    }
  }

  method MutualTLSContainerPorts(c: Cluster) returns (ports: seq<ContainerPort>)
    ensures Numbered(ports)
    ensures forall n: Listener :: Has(ports, n) <==> BlockOf(n) == MutualTLSBlock && Served(c, n) && c.MutualTLS()
  {
    ports := [];
    if c.MutualTLS() {
      if c.Enabled(WebMqttPlugin) {
        ports := Append(ports, ContainerPort(WebMqttTls, 15676));
      }
      if c.Enabled(WebStompPlugin) {
        ports := Append(ports, ContainerPort(WebStompTls, 15673));
      }
    }
  }

  method UpdateContainerPorts(c: Cluster) returns (ports: seq<ContainerPort>)
    ensures Holds(ports, c)
  {
    if c.disableNonTLS {
      ports := Append([], ContainerPort(Epmd, 4369));
    } else {
      ports := PlainContainerPorts(c);
    }
    if c.disableNonTLS || c.TLS() {
      var tls := TLSContainerPorts(c);
      var mutual := MutualTLSContainerPorts(c);
      ghost var before := ports;
      ports := ports + tls + mutual;
      assert forall n: Listener :: Has(ports, n) <==> Has(before, n) || Has(tls, n) || Has(mutual, n);
    }
  }

  // ---------- reconciliation with the ports a Service already has ----------

  /** The existing ports that are kept, in order: the first of each wanted name, as it is now wanted
      but with the node port it has. */
  function Retained(existing: seq<ServicePort>, wanted: map<Listener, ServicePort>): seq<ServicePort> {
    if existing == [] then []
    else if existing[0].name.Of? && existing[0].name.l in wanted then
      [wanted[existing[0].name.l].(nodePort := existing[0].nodePort)] + Retained(existing[1..], wanted - {existing[0].name.l})
    else Retained(existing[1..], wanted)
  }

  /** The node port of the first existing port of this name. */
  function NodePortOf(existing: seq<ServicePort>, n: Listener): int {
    if existing == [] then 0 else if existing[0].name == Of(n) then existing[0].nodePort else NodePortOf(existing[1..], n)
  }

  ghost predicate Distinct(ports: seq<ServicePort>) {
    forall i, j | 0 <= i < j < |ports| :: ports[i].name != ports[j].name
  }

  /** What is promised of the result, in whatever order a Go map is traversed: every wanted port once
      and no other, with its node port preserved, and the kept ones first, in their old order. */
  ghost predicate Reconciled(existing: seq<ServicePort>, wanted: map<Listener, ServicePort>, ports: seq<ServicePort>) {
    && |ports| == |wanted| && Distinct(ports)
    && (forall p <- ports :: p.name.Of? && p.name.l in wanted && p == wanted[p.name.l].(nodePort := NodePortOf(existing, p.name.l)))
    && (forall n <- wanted :: wanted[n].(nodePort := NodePortOf(existing, n)) in ports)
    && Retained(existing, wanted) <= ports
  }

  /** Every entry is stored under its own name. */
  ghost predicate Keyed(wanted: map<Listener, ServicePort>) {
    forall n <- wanted :: wanted[n].name == Of(n)
  }

  /** Midway: `ports` are done and `m` remains of what is wanted. */
  ghost predicate Midway(existing: seq<ServicePort>, wanted: map<Listener, ServicePort>, ports: seq<ServicePort>, m: map<Listener, ServicePort>) {
    && m.Keys <= wanted.Keys && (forall n <- m :: m[n] == wanted[n])
    && |ports| + |m| == |wanted| && Distinct(ports)
    && (forall p <- ports :: p.name.Of? && p.name.l in wanted && p.name.l !in m
                             && p == wanted[p.name.l].(nodePort := NodePortOf(existing, p.name.l)))
    && (forall n <- wanted :: n in m || wanted[n].(nodePort := NodePortOf(existing, n)) in ports)
  }

  lemma OnePortDone(existing: seq<ServicePort>, wanted: map<Listener, ServicePort>, ports: seq<ServicePort>,
                    m: map<Listener, ServicePort>, n: Listener)
    requires Midway(existing, wanted, ports, m) && Keyed(wanted) && n in m
    ensures Midway(existing, wanted, ports + [m[n].(nodePort := NodePortOf(existing, n))], m - {n})
  {
    var p := m[n].(nodePort := NodePortOf(existing, n));
    var ports', m' := ports + [p], m - {n};
    assert m'.Keys == m.Keys - {n} && |m'| == |m| - 1;
    assert forall q <- ports :: q in ports';
    assert p in ports';
    assert forall q <- ports :: q.name != p.name;
  }

  /** The first `i` existing ports have been looked at. */
  ghost predicate Following(existing: seq<ServicePort>, wanted: map<Listener, ServicePort>, ports: seq<ServicePort>,
                            m: map<Listener, ServicePort>, i: nat)
  {
    && i <= |existing|
    && Retained(existing, wanted) == ports + Retained(existing[i..], m)
    && forall n <- m :: NodePortOf(existing, n) == NodePortOf(existing[i..], n)
  }

  lemma OnePortSeen(existing: seq<ServicePort>, wanted: map<Listener, ServicePort>, ports: seq<ServicePort>,
                    m: map<Listener, ServicePort>, i: nat)
    requires i < |existing| && Following(existing, wanted, ports, m, i)
    ensures var p := existing[i];
            if p.name.Of? && p.name.l in m then
              && NodePortOf(existing, p.name.l) == p.nodePort
              && Following(existing, wanted, ports + [m[p.name.l].(nodePort := p.nodePort)], m - {p.name.l}, i + 1)
            else Following(existing, wanted, ports, m, i + 1)
  {
    var rest := existing[i..];
    assert rest[0] == existing[i] && rest[1..] == existing[i + 1..];
  }

  /** The two loops of `updatePorts`. The second takes what remains in an order nobody controls. */
  method ReconcilePorts(existing: seq<ServicePort>, wanted: map<Listener, ServicePort>) returns (ports: seq<ServicePort>)
    requires Keyed(wanted) && forall n <- wanted :: wanted[n].nodePort == 0
    ensures Reconciled(existing, wanted, ports)
  {
    var m := wanted;
    ports := [];
    for i := 0 to |existing|
      invariant Midway(existing, wanted, ports, m)
      invariant Following(existing, wanted, ports, m, i)
    {
      var name := existing[i].name;
      OnePortSeen(existing, wanted, ports, m, i);
      if name.Of? && name.l in m {
        OnePortDone(existing, wanted, ports, m, name.l);
        ports := ports + [m[name.l].(nodePort := existing[i].nodePort)];
        m := m - {name.l};
      }
    }
    ghost var kept := ports;
    assert Following(existing, wanted, kept, m, |existing|) && existing[|existing|..] == [];
    while m != map[]
      invariant Midway(existing, wanted, ports, m) && kept <= ports
      invariant forall n <- m :: NodePortOf(existing, n) == 0
      decreases |m|
    {
      var n :| n in m;
      OnePortDone(existing, wanted, ports, m, n);
      ports := ports + [m[n]];
      m := m - {n};
    }
  }

  method UpdatePorts(c: Cluster, existing: seq<ServicePort>) returns (ports: seq<ServicePort>)
    ensures Reconciled(existing, ServicePortsOf(c), ports)
  {
    var wanted := GenerateServicePortsMap(c);
    ports := ReconcilePorts(existing, wanted);
  }

  lemma {:induction false} DistinctPortsAreRetained(ports: seq<ServicePort>, wanted: map<Listener, ServicePort>)
    requires Distinct(ports)
    requires forall p <- ports :: p.name.Of? && p.name.l in wanted && p == wanted[p.name.l].(nodePort := p.nodePort)
    ensures Retained(ports, wanted) == ports
  {
    if ports != [] {
      var rest, left := ports[1..], wanted - {ports[0].name.l};
      forall p <- rest ensures p.name.Of? && p.name.l in left && p == left[p.name.l].(nodePort := p.nodePort) {
        var i :| 0 <= i < |rest| && rest[i] == p;
        assert ports[i + 1] == p && ports[0].name != ports[i + 1].name;
      }
      DistinctPortsAreRetained(rest, left);
    }
  }

  /** Reconciling the result again, in whatever order the map is then traversed, changes nothing. */
  lemma ReconciledIsFixed(existing: seq<ServicePort>, wanted: map<Listener, ServicePort>, ports: seq<ServicePort>, again: seq<ServicePort>)
    requires Reconciled(existing, wanted, ports) && Reconciled(ports, wanted, again)
    ensures again == ports
  {
    DistinctPortsAreRetained(ports, wanted);
  }

  /** `Unspecified` is the empty text, which the API server takes for ClusterIP. */
  datatype ServiceType = Unspecified | ClusterIP | NodePort | LoadBalancer

  function Cleared(ports: seq<ServicePort>): (r: seq<ServicePort>)
    ensures |r| == |ports|
    ensures forall i | 0 <= i < |r| :: r[i] == ports[i].(nodePort := 0)
  {
    seq(|ports|, i requires 0 <= i < |ports| => ports[i].(nodePort := 0))
  }

  /** Whatever their order and node ports, these are the exposed ports and no others. */
  ghost predicate Publishes(ports: seq<ServicePort>, c: Cluster) {
    && (forall p <- ports :: p.name.Of? && Exposed(c, p.name.l) && p.port == Number(p.name.l))
    && (forall n: Listener | Exposed(c, n) :: exists p <- ports :: p.name == Of(n))
  }

  lemma ReconciledPublishes(existing: seq<ServicePort>, ports: seq<ServicePort>, c: Cluster)
    requires Reconciled(existing, ServicePortsOf(c), ports)
    ensures Publishes(ports, c)
  {
    var wanted := ServicePortsOf(c);
    forall n: Listener | Exposed(c, n) ensures exists p <- ports :: p.name == Of(n) {
      assert n in wanted && wanted[n].(nodePort := NodePortOf(existing, n)) in ports;
    }
  }

  lemma ClearedPorts(existing: seq<ServicePort>, wanted: map<Listener, ServicePort>, reconciled: seq<ServicePort>, ports: seq<ServicePort>)
    requires Reconciled(existing, wanted, reconciled) && Keyed(wanted) && forall n <- wanted :: wanted[n].nodePort == 0
    requires |ports| == |reconciled| && forall j | 0 <= j < |ports| :: ports[j] == reconciled[j].(nodePort := 0)
    ensures Distinct(ports) && Cleared(Retained(existing, wanted)) <= ports
    ensures forall p <- ports :: p.name.Of? && p.name.l in wanted && p == wanted[p.name.l]
    ensures forall n <- wanted :: wanted[n] in ports
  {
    forall p <- ports ensures p.name.Of? && p.name.l in wanted && p == wanted[p.name.l] {
      var i :| 0 <= i < |ports| && ports[i] == p;
      assert reconciled[i] in reconciled;
    }
    forall n <- wanted ensures wanted[n] in ports {
      var q := wanted[n].(nodePort := NodePortOf(existing, n));
      var i :| 0 <= i < |reconciled| && reconciled[i] == q;
      assert ports[i] == wanted[n];
    }
    forall i, j | 0 <= i < j < |ports| ensures ports[i].name != ports[j].name {
      assert reconciled[i].name != reconciled[j].name;
    }
  }

  /** The ports part of `ServiceBuilder.Update`: a cluster-internal Service gives its node ports up, so
      its ports are exactly the generated ones, the retained ones first. */
  method UpdateService(c: Cluster, kind: ServiceType, existing: seq<ServicePort>) returns (ports: seq<ServicePort>)
    ensures Publishes(ports, c)
    ensures kind == NodePort || kind == LoadBalancer ==> Reconciled(existing, ServicePortsOf(c), ports)
    ensures kind == ClusterIP || kind == Unspecified ==>
      && |ports| == |ServicePortsOf(c)| && Distinct(ports)
      && (forall p <- ports :: p.name.Of? && p.name.l in ServicePortsOf(c) && p == ServicePortsOf(c)[p.name.l])
      && (forall n <- ServicePortsOf(c) :: ServicePortsOf(c)[n] in ports)
      && Cleared(Retained(existing, ServicePortsOf(c))) <= ports
  {
    ports := UpdatePorts(c, existing);
    ReconciledPublishes(existing, ports, c);
    if kind == ClusterIP || kind == Unspecified {
      ghost var reconciled := ports;
      for i := 0 to |ports|
        invariant |ports| == |reconciled|
        invariant forall j | 0 <= j < |ports| :: ports[j] == if j < i then reconciled[j].(nodePort := 0) else reconciled[j]
      {
        ports := ports[i := ports[i].(nodePort := 0)];
      }
      ClearedPorts(existing, ServicePortsOf(c), reconciled, ports);
      forall n: Listener | Exposed(c, n) ensures exists p <- ports :: p.name == Of(n) {
        assert ServicePortsOf(c)[n] in ports;
      }
    }
  }

  // ---------- the three agree ----------

  ghost predicate Offers(ports: seq<ServicePort>, n: Listener) {
    exists p <- ports :: p.name == Of(n)
  }

  /** What clients reach through the Service: the listeners for plain connections unless they are
      disabled, those for TLS if certificates come from a secret or from Vault, and those for web
      protocols over TLS if there is a CA as well; each only with its plugin. */
  lemma PublishedListener(c: Cluster, ports: seq<ServicePort>, n: Listener)
    requires Publishes(ports, c)
    ensures Offers(ports, n) <==>
            var plain, tls := !c.disableNonTLS, c.secretName != "" || c.vaultTLS;
            var mutual := (c.secretName != "" && c.caSecretName != "") || c.vaultTLS;
            var stream := StreamPlugin in c.plugins || MultiDcReplicationPlugin in c.plugins;
            match n
            case Epmd => false
            case Amqp | Management => plain
            case Prometheus => !tls
            case Mqtt => plain && MqttPlugin in c.plugins
            case Stomp => plain && StompPlugin in c.plugins
            case WebMqtt => plain && WebMqttPlugin in c.plugins
            case WebStomp => plain && WebStompPlugin in c.plugins
            case Stream => plain && stream
            case Amqps | ManagementTls | PrometheusTls => tls
            case Mqtts => tls && MqttPlugin in c.plugins
            case Stomps => tls && StompPlugin in c.plugins
            case Streams => tls && stream
            case WebMqttTls => mutual && WebMqttPlugin in c.plugins
            case WebStompTls => mutual && WebStompPlugin in c.plugins
  {
    assert Offers(ports, n) <==> Exposed(c, n);
  }

  /** What the container opens. With plain listeners disabled, TLS is taken to be set up. */
  lemma OpenListener(c: Cluster, ports: seq<ContainerPort>, n: Listener)
    requires Holds(ports, c)
    ensures Has(ports, n) <==>
            var plain, tls := !c.disableNonTLS, c.secretName != "" || c.vaultTLS || c.disableNonTLS;
            var mutual := (c.secretName != "" && c.caSecretName != "") || c.vaultTLS;
            var stream := StreamPlugin in c.plugins || MultiDcReplicationPlugin in c.plugins;
            match n
            case Epmd => true
            case Amqp | Management => plain
            case Prometheus => plain
            case Mqtt => plain && MqttPlugin in c.plugins
            case Stomp => plain && StompPlugin in c.plugins
            case WebMqtt => plain && WebMqttPlugin in c.plugins
            case WebStomp => plain && WebStompPlugin in c.plugins
            case Stream => plain && stream
            case Amqps | ManagementTls | PrometheusTls => tls
            case Mqtts => tls && MqttPlugin in c.plugins
            case Stomps => tls && StompPlugin in c.plugins
            case Streams => tls && stream
            case WebMqttTls => mutual && WebMqttPlugin in c.plugins
            case WebStompTls => mutual && WebStompPlugin in c.plugins
  {
    assert Has(ports, n) <==> Open(c, n);
  }

  /** `reconcileTLS` ends the pass for every other setting. */
  predicate AcceptedTLS(c: Cluster) {
    c.disableNonTLS ==> c.TLS()
  }

  /** Every Service port leads to a container port of the same name and number, and the port of the
      readiness probe, which is amqps if plain listeners are disabled and otherwise amqp, is one of
      both, exactly when `reconcileTLS` accepts the TLS settings. */
  lemma PortsAgree(c: Cluster, service: seq<ServicePort>, container: seq<ContainerPort>)
    requires Publishes(service, c) && Holds(container, c)
    ensures var probe := if c.disableNonTLS then Amqps else Amqp;
            (c.disableNonTLS ==> c.secretName != "" || c.vaultTLS) <==>
            && (forall p <- service :: p.name.Of? && ContainerPort(p.name.l, p.port) in container)
            && (exists p <- service :: p.name == Of(probe))
            && (exists p <- container :: p.name == probe)
  {
    var probe := if c.disableNonTLS then Amqps else Amqp;
    forall p <- container ensures Open(c, p.name) && p == ContainerPort(p.name, Number(p.name)) {
      assert Has(container, p.name);
    }
    if AcceptedTLS(c) {
      forall p <- service ensures ContainerPort(p.name.l, p.port) in container {
        assert Exposed(c, p.name.l) && Has(container, p.name.l);
      }
      assert Exposed(c, probe) && Has(container, probe);
    } else {
      assert Exposed(c, Prometheus) && !Open(c, Prometheus);
    }
  }

  /** With plain listeners disabled, no port for plain connections is published or opened. */
  lemma NoPlainPorts(c: Cluster, service: seq<ServicePort>, container: seq<ContainerPort>)
    requires Publishes(service, c) && Holds(container, c)
    requires c.disableNonTLS
    ensures forall p <- container :: !PlainText(p.name)
    ensures (c.secretName != "" || c.vaultTLS) <==> forall p <- service :: p.name.Of? && !PlainText(p.name.l)
  {
    forall p <- container ensures !PlainText(p.name) {
      assert Has(container, p.name);
    }
    if !AcceptedTLS(c) {
      assert Exposed(c, Prometheus);
    }
  }

  /** A setting that is not accepted: the Service would publish the plain Prometheus port, which the
      container does not open, and not the port of the readiness probe. */
  lemma RejectedExample() returns (c: Cluster)
    ensures c.disableNonTLS && !c.TLS() && !AcceptedTLS(c)
    ensures Exposed(c, Prometheus) && !Open(c, Prometheus) && !Exposed(c, Amqps)
  {
    c := Cluster([], "", "", false, true);
  }
}
