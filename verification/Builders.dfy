/** The child objects built from a GameServer: labels, Services and the StatefulSet. */
module Builders {
  import opened Types
  import opened Webhook

  const NAME_KEY := "app.kubernetes.io/name"
  const INSTANCE_KEY := "app.kubernetes.io/instance"
  const MANAGED_KEY := "app.kubernetes.io/managed-by"
  const TYPE_KEY := "games.gobehost.com/game-type"
  const ID_KEY := "games.gobehost.com/game-id"

  function GameServerLabels(n: Name, gameType: string): map<string, string> {
    map[NAME_KEY := "gameserver", INSTANCE_KEY := n, MANAGED_KEY := "gobehost-operator",
        TYPE_KEY := gameType, ID_KEY := n]
  }

  /** The five labels by which pods, StatefulSets and Services know their GameServer. */
  lemma LabelsExactly(n: Name, gameType: string)
    ensures GameServerLabels(n, gameType).Keys
            == {"app.kubernetes.io/name", "app.kubernetes.io/instance", "app.kubernetes.io/managed-by",
                "games.gobehost.com/game-type", "games.gobehost.com/game-id"}
    ensures var l := GameServerLabels(n, gameType);
            && l["app.kubernetes.io/instance"] == n && l["games.gobehost.com/game-id"] == n
            && l["games.gobehost.com/game-type"] == gameType
            && l["app.kubernetes.io/name"] == "gameserver" && l["app.kubernetes.io/managed-by"] == "gobehost-operator"
  {
    KeysDistinct();
  }

  function FleetLabels(f: Name): map<string, string> {
    map[NAME_KEY := "gameserverfleet", INSTANCE_KEY := f, MANAGED_KEY := "gobehost-operator", FLEET_LABEL := f]
  }

  /** Kubernetes label selection: every selector entry occurs among the labels. */
  predicate Selects(selector: map<string, string>, labels: map<string, string>) {
    forall k :: k in selector ==> k in labels && labels[k] == selector[k]
  }

  lemma KeysDistinct()
    ensures NAME_KEY != INSTANCE_KEY && NAME_KEY != MANAGED_KEY && NAME_KEY != TYPE_KEY && NAME_KEY != ID_KEY
    ensures INSTANCE_KEY != MANAGED_KEY && INSTANCE_KEY != TYPE_KEY && INSTANCE_KEY != ID_KEY
    ensures MANAGED_KEY != TYPE_KEY && MANAGED_KEY != ID_KEY && TYPE_KEY != ID_KEY
  {
    assert NAME_KEY[0] == INSTANCE_KEY[0] == MANAGED_KEY[0] == 'a' && TYPE_KEY[0] == ID_KEY[0] == 'g';
    assert |NAME_KEY| == 22 && |INSTANCE_KEY| == 26 && |MANAGED_KEY| == 28 && |TYPE_KEY| == 28 && |ID_KEY| == 26;
  }

  /** A GameServer's selector matches its own pods and those of no other GameServer. */
  lemma SelectorIsExact(n: Name, t: string, m: Name, u: string)
    ensures Selects(GameServerLabels(n, t), GameServerLabels(m, u)) <==> n == m && t == u
  {
    KeysDistinct();
    var s, l := GameServerLabels(n, t), GameServerLabels(m, u);
    assert s[ID_KEY] == n && l[ID_KEY] == m && s[TYPE_KEY] == t && l[TYPE_KEY] == u;
  }

  // ---- the port tables ----

  function ToServicePort(p: PortSpec): ServicePort {
    ServicePort(p.name, p.port, if p.targetPort.Some? then p.targetPort.value else p.port, p.protocol)
  }

  function ServicePorts(ps: seq<PortSpec>): (r: seq<ServicePort>)
    ensures |r| == |ps|
    ensures forall i :: 0 <= i < |ps| ==> r[i] == ToServicePort(ps[i])
  {
    seq(|ps|, i requires 0 <= i < |ps| => ToServicePort(ps[i]))
  }

  function DefaultProtocol(p: ServicePort): ServicePort {
    p.(protocol := if p.protocol == "" then "TCP" else p.protocol)
  }

  /** Defaulting the GameServer changes a port table only where a protocol was missing. */
  lemma DefaultingCommutes(s: ServerSpec, i: nat)
    requires i < |s.ports|
    ensures ServicePorts(DefaultSpec(s).ports)[i] == DefaultProtocol(ServicePorts(s.ports)[i])
  {
    assert DefaultSpec(s).ports[i] == DefaultPort(s.ports[i]);
  }

  /** BuildService. */
  method BuildService(n: Name, gs: GameServer) returns (svc: Service)
    ensures svc == ExternalService(n, gs)
    ensures |svc.ports| == |gs.spec.ports|
    ensures forall i :: 0 <= i < |svc.ports| ==>
              && svc.ports[i].name == gs.spec.ports[i].name && svc.ports[i].port == gs.spec.ports[i].port
              && svc.ports[i].protocol == gs.spec.ports[i].protocol
              && svc.ports[i].targetPort == match gs.spec.ports[i].targetPort
                                          case Some(target) => target
                                          case None => gs.spec.ports[i].port
    ensures svc.serviceType == gs.spec.serviceType && svc.annotations == gs.spec.annotations && !svc.headless
    ensures svc.labels == svc.selector == GameServerLabels(n, gs.spec.gameType)
  {
    var ports: seq<ServicePort> := [];
    for i := 0 to |gs.spec.ports|
      invariant ports == ServicePorts(gs.spec.ports)[..i]
    {
      var p := gs.spec.ports[i];
      var sp := ServicePort(p.name, p.port, p.port, p.protocol);
      if p.targetPort.Some? {
        sp := sp.(targetPort := p.targetPort.value);
      }
      ports := ports + [sp];
    }
    svc := Service(GameServerLabels(n, gs.spec.gameType), gs.spec.annotations, gs.spec.serviceType, false,
                   GameServerLabels(n, gs.spec.gameType), ports);
  }

  function ExternalService(n: Name, gs: GameServer): Service {
    Service(GameServerLabels(n, gs.spec.gameType), gs.spec.annotations, gs.spec.serviceType, false,
            GameServerLabels(n, gs.spec.gameType), ServicePorts(gs.spec.ports))
  }

  /** BuildHeadlessService. */
  method BuildHeadlessService(n: Name, gs: GameServer) returns (svc: Service)
    ensures svc == HeadlessService(n, gs)
    ensures |svc.ports| == |gs.spec.ports|
    ensures forall i :: 0 <= i < |svc.ports| ==>
              && svc.ports[i].name == gs.spec.ports[i].name && svc.ports[i].port == gs.spec.ports[i].port
              && svc.ports[i].protocol == gs.spec.ports[i].protocol
              && svc.ports[i].targetPort == match gs.spec.ports[i].targetPort
                                          case Some(target) => target
                                          case None => gs.spec.ports[i].port
    ensures svc.serviceType == "ClusterIP" && svc.annotations == map[] && svc.headless
    ensures svc.labels == svc.selector == GameServerLabels(n, gs.spec.gameType)
  {
    var ports: seq<ServicePort> := [];
    for i := 0 to |gs.spec.ports|
      invariant ports == ServicePorts(gs.spec.ports)[..i]
    {
      var p := gs.spec.ports[i];
      var sp := ServicePort(p.name, p.port, p.port, p.protocol);
      if p.targetPort.Some? {
        sp := sp.(targetPort := p.targetPort.value);
      }
      ports := ports + [sp];
    }
    svc := Service(GameServerLabels(n, gs.spec.gameType), map[], "ClusterIP", true,
                   GameServerLabels(n, gs.spec.gameType), ports);
  }

  function HeadlessService(n: Name, gs: GameServer): Service {
    Service(GameServerLabels(n, gs.spec.gameType), map[], "ClusterIP", true,
            GameServerLabels(n, gs.spec.gameType), ServicePorts(gs.spec.ports))
  }

  /** BuildFleetService: the fleet's own name and labels, its GameServer's ports and pods. */
  method BuildFleetService(f: Name, n: Name, gs: GameServer) returns (svc: Service)
    ensures svc == FleetService(f, n, gs)
    ensures |svc.ports| == |gs.spec.ports|
    ensures forall i :: 0 <= i < |svc.ports| ==>
              && svc.ports[i].name == gs.spec.ports[i].name && svc.ports[i].port == gs.spec.ports[i].port
              && svc.ports[i].protocol == gs.spec.ports[i].protocol
              && svc.ports[i].targetPort == match gs.spec.ports[i].targetPort
                                          case Some(target) => target
                                          case None => gs.spec.ports[i].port
    ensures svc.serviceType == gs.spec.serviceType && svc.annotations == gs.spec.annotations && !svc.headless
    ensures svc.labels == FleetLabels(f) && svc.selector == GameServerLabels(n, gs.spec.gameType)
  {
    var ports: seq<ServicePort> := [];
    for i := 0 to |gs.spec.ports|
      invariant ports == ServicePorts(gs.spec.ports)[..i]
    {
      var p := gs.spec.ports[i];
      var sp := ServicePort(p.name, p.port, p.port, p.protocol);
      if p.targetPort.Some? {
        sp := sp.(targetPort := p.targetPort.value);
      }
      ports := ports + [sp];
    }
    svc := Service(FleetLabels(f), gs.spec.annotations, gs.spec.serviceType, false,
                   GameServerLabels(n, gs.spec.gameType), ports);
  }

  function FleetService(f: Name, n: Name, gs: GameServer): Service {
    Service(FleetLabels(f), gs.spec.annotations, gs.spec.serviceType, false,
            GameServerLabels(n, gs.spec.gameType), ServicePorts(gs.spec.ports))
  }

  /** buildServicePorts, the fleet controller's own copy of the loop. */
  method BuildServicePorts(gs: GameServer) returns (ports: seq<ServicePort>)
    ensures ports == ServicePorts(gs.spec.ports)
    ensures |ports| == |gs.spec.ports|
    ensures forall i :: 0 <= i < |ports| ==>
              && ports[i].name == gs.spec.ports[i].name && ports[i].port == gs.spec.ports[i].port
              && ports[i].protocol == gs.spec.ports[i].protocol
              && ports[i].targetPort == match gs.spec.ports[i].targetPort
                                      case Some(target) => target
                                      case None => gs.spec.ports[i].port
  {
    ports := [];
    for i := 0 to |gs.spec.ports|
      invariant ports == ServicePorts(gs.spec.ports)[..i]
    {
      var p := gs.spec.ports[i];
      var target := p.port;
      if p.targetPort.Some? {
        target := p.targetPort.value;
      }
      ports := ports + [ServicePort(p.name, p.port, target, p.protocol)];
    }
  }

  // ---- the StatefulSet ----

  function ContainerPorts(ps: seq<PortSpec>): (r: seq<ContainerPort>)
    ensures |r| == |ps|
  {
    seq(|ps|, i requires 0 <= i < |ps| => ContainerPort(ps[i].name, ps[i].port, ps[i].protocol))
  }

  function StatefulSetFor(n: Name, gs: GameServer): StatefulSet {
    var labels := GameServerLabels(n, gs.spec.gameType);
    StatefulSet(0, gs.uid, labels, labels, labels, n + "-headless", gs.spec.image, ContainerPorts(gs.spec.ports),
                Some(1), 0, 0)
  }

  /** BuildStatefulSet: fails exactly when no adapter is registered for the game type. */
  method BuildStatefulSet(cfg: Config, n: Name, gs: GameServer) returns (sts: Option<StatefulSet>)
    ensures sts == if gs.spec.gameType in cfg.registered then Some(StatefulSetFor(n, gs)) else None
    ensures sts.Some? ==>
              && sts.value.image == gs.spec.image && sts.value.owner == gs.uid && sts.value.replicas == Some(1)
              && sts.value.labels == sts.value.selector == sts.value.podLabels == GameServerLabels(n, gs.spec.gameType)
              && sts.value.serviceName == n + "-headless"
              && |sts.value.ports| == |gs.spec.ports|
              && forall i :: 0 <= i < |gs.spec.ports| ==>
                   && sts.value.ports[i].name == gs.spec.ports[i].name
                   && sts.value.ports[i].port == gs.spec.ports[i].port
                   && sts.value.ports[i].protocol == gs.spec.ports[i].protocol
  {
    if gs.spec.gameType !in cfg.registered {
      return None;
    }
    var ports: seq<ContainerPort> := [];
    for i := 0 to |gs.spec.ports|
      invariant ports == ContainerPorts(gs.spec.ports)[..i]
    {
      ports := ports + [ContainerPort(gs.spec.ports[i].name, gs.spec.ports[i].port, gs.spec.ports[i].protocol)];
    }
    assert ports == ContainerPorts(gs.spec.ports);
    var labels := GameServerLabels(n, gs.spec.gameType);
    sts := Some(StatefulSet(0, gs.uid, labels, labels, labels, n + "-headless", gs.spec.image, ports, Some(1), 0, 0));
  }

  /** The fields a sync overwrites on an existing StatefulSet; status and owner stay. */
  function SyncSet(current: StatefulSet, desired: StatefulSet): StatefulSet {
    current.(labels := desired.labels, replicas := desired.replicas, selector := desired.selector,
              serviceName := desired.serviceName, podLabels := desired.podLabels, image := desired.image,
              ports := desired.ports)
  }

  /** A sync takes everything from the built set but what the cluster keeps about the stored one. */
  lemma SyncSetTakes(current: StatefulSet, desired: StatefulSet)
    ensures var s := SyncSet(current, desired);
            && s.version == current.version && s.owner == current.owner
            && s.statusReplicas == current.statusReplicas && s.readyReplicas == current.readyReplicas
            && s.replicas == desired.replicas && s.selector == desired.selector && s.labels == desired.labels
            && s.podLabels == desired.podLabels && s.serviceName == desired.serviceName
            && s.image == desired.image && s.ports == desired.ports
  {
  }
}
