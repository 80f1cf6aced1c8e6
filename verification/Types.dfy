/** The objects the operator stores and the fields its controllers look at. */
module Types {

  datatype Option<+T> = None | Some(value: T)

  type Name = string
  type byte = b: int | 0 <= b < 256

  const FLEET_FINALIZER := "games.gobehost.com/fleet-finalizer"
  const SERVER_FINALIZER := "games.gobehost.com/finalizer"
  const HASH_ANNOTATION := "games.gobehost.com/template-hash"
  const FLEET_LABEL := "games.gobehost.com/fleet-name"

  /** The operator's own configuration: the adapter registry, the serialisation of a spec, and
      whether the API server enforces the CRD's limit of ten history records. */
  datatype Config = Config(registered: set<string>, marshal: ServerSpec -> seq<byte>, capHistory: bool)

  // ---- GameServer ----

  datatype PortSpec = PortSpec(name: string, port: int, targetPort: Option<int>, protocol: string)

  datatype SecuritySpec = SecuritySpec(runAsNonRoot: Option<bool>, runAsUser: Option<int>, runAsGroup: Option<int>,
                                       fsGroup: Option<int>, seccompProfile: string, dropAll: Option<bool>,
                                       readOnlyRoot: Option<bool>)

  /** `size` 0 is the zero Quantity; an empty string or sequence is an unset field. */
  datatype ServerSpec = ServerSpec(gameType: string, version: string, image: string, imagePullPolicy: string,
                                   size: int, accessModes: seq<string>, ports: seq<PortSpec>, serviceType: string,
                                   annotations: map<string, string>, security: Option<SecuritySpec>)

  datatype ServerPhase = Unset | Pending | Provisioning | Running | Stopping | Stopped | Failed | BackupInProgress

  datatype Truth = True | False | Unknown

  datatype Condition = Condition(kind: string, status: Truth, reason: string, message: string,
                                 observedGeneration: int, transition: nat)

  datatype ServerStatus = ServerStatus(phase: ServerPhase, ready: bool, conditions: seq<Condition>,
                                       observedGeneration: int)

  datatype GameServer = GameServer(uid: nat, version: nat, generation: int, finalizers: seq<string>, deleting: bool,
                                   labels: map<string, string>, annotations: map<string, string>,
                                   spec: ServerSpec, status: ServerStatus)

  // ---- GameServerFleet ----

  datatype Template = Template(labels: map<string, string>, annotations: map<string, string>, spec: ServerSpec)

  datatype FleetPhase = NoPhase | Progressing | Available | Degraded | FleetFailed

  datatype Rollout = Rollout(startedAt: nat, completedAt: Option<nat>, fromVersion: string, toVersion: string,
                             result: string, message: string)

  datatype FleetStatus = FleetStatus(phase: FleetPhase, observedGeneration: int, readyReplicas: int,
                                     conditions: seq<Condition>, current: Name, history: seq<Rollout>)

  datatype Fleet = Fleet(uid: nat, version: nat, generation: int, finalizers: seq<string>, deleting: bool,
                         template: Template, status: FleetStatus)

  // ---- objects the GameServer controller owns ----

  datatype ContainerPort = ContainerPort(name: string, port: int, protocol: string)

  datatype StatefulSet = StatefulSet(version: nat, owner: nat, labels: map<string, string>,
                                     selector: map<string, string>, podLabels: map<string, string>,
                                     serviceName: Name, image: string, ports: seq<ContainerPort>,
                                     replicas: Option<int>, statusReplicas: int, readyReplicas: int)

  datatype ServicePort = ServicePort(name: string, port: int, targetPort: int, protocol: string)

  datatype Service = Service(labels: map<string, string>, annotations: map<string, string>, serviceType: string,
                             headless: bool, selector: map<string, string>, ports: seq<ServicePort>)

  /** The label lookup of a fleet's List call. */
  function LabelOf(labels: map<string, string>): Option<string> {
    if FLEET_LABEL in labels then Some(labels[FLEET_LABEL]) else None
  }

  /** Go's map read of a missing annotation gives the empty string. */
  function HashOf(annotations: map<string, string>): string {
    if HASH_ANNOTATION in annotations then annotations[HASH_ANNOTATION] else ""
  }

  function OwnedName(f: Name): Name {
    f + "-gs"
  }

  /** Distinct fleets never claim the same GameServer name. */
  lemma OwnedNameInjective(f: Name, g: Name)
    requires OwnedName(f) == OwnedName(g)
    ensures f == g
  {
    assert f == OwnedName(f)[..|OwnedName(f)| - 3];
    assert g == OwnedName(g)[..|OwnedName(g)| - 3];
  }
}
