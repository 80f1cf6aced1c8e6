/** Admission of GameServers: defaulting and validation. */
module Webhook {
  import opened Types
  import opened Live

  // ---- defaulting ----

  function DefaultPort(p: PortSpec): PortSpec {
    p.(protocol := if p.protocol == "" then "TCP" else p.protocol,
       targetPort := if p.targetPort == None then Some(p.port) else p.targetPort)
  }

  function DefaultPorts(ps: seq<PortSpec>): (r: seq<PortSpec>)
    ensures |r| == |ps|
    ensures forall i :: 0 <= i < |ps| ==> r[i] == DefaultPort(ps[i])
  {
    seq(|ps|, i requires 0 <= i < |ps| => DefaultPort(ps[i]))
  }

  function Or<T>(x: Option<T>, d: T): Option<T> {
    if x == None then Some(d) else x
  }

  function DefaultSecurity(s: Option<SecuritySpec>): Option<SecuritySpec> {
    var sec := if s == None then SecuritySpec(None, None, None, None, "", None, None) else s.value;
    Some(SecuritySpec(Or(sec.runAsNonRoot, true), Or(sec.runAsUser, 1000), Or(sec.runAsGroup, 1000),
                      Or(sec.fsGroup, 1000),
                      if sec.seccompProfile == "" then "RuntimeDefault" else sec.seccompProfile,
                      Or(sec.dropAll, true), sec.readOnlyRoot))
  }

  function DefaultSpec(s: ServerSpec): ServerSpec {
    s.(imagePullPolicy := if s.imagePullPolicy == "" then "IfNotPresent" else s.imagePullPolicy,
       accessModes := if |s.accessModes| == 0 then ["ReadWriteOnce"] else s.accessModes,
       serviceType := if s.serviceType == "" then "LoadBalancer" else s.serviceType,
       ports := DefaultPorts(s.ports),
       security := DefaultSecurity(s.security))
  }

  /** Default's loop over the ports. */
  method FillPorts(given: seq<PortSpec>) returns (ports: seq<PortSpec>)
    ensures ports == DefaultPorts(given)
  {
    ports := given;
    for i := 0 to |ports|
      invariant |ports| == |given|
      invariant forall j :: 0 <= j < i ==> ports[j] == DefaultPort(given[j])
      invariant forall j :: i <= j < |ports| ==> ports[j] == given[j]
    {
      if ports[i].protocol == "" {
        ports := ports[i := ports[i].(protocol := "TCP")];
      }
      if ports[i].targetPort == None {
        ports := ports[i := ports[i].(targetPort := Some(ports[i].port))];
      }
    }
  }

  /** Default's security contexts: only unset fields are filled. */
  method FillSecurity(given: Option<SecuritySpec>) returns (security: Option<SecuritySpec>)
    ensures security == DefaultSecurity(given)
  {
    var sec := if given == None then SecuritySpec(None, None, None, None, "", None, None) else given.value;
    if sec.runAsNonRoot == None { sec := sec.(runAsNonRoot := Some(true)); }
    if sec.runAsUser == None { sec := sec.(runAsUser := Some(1000)); }
    if sec.runAsGroup == None { sec := sec.(runAsGroup := Some(1000)); }
    if sec.fsGroup == None { sec := sec.(fsGroup := Some(1000)); }
    if sec.seccompProfile == "" { sec := sec.(seccompProfile := "RuntimeDefault"); }
    if sec.dropAll == None { sec := sec.(dropAll := Some(true)); }
    security := Some(sec);
  }

  /** GameServerCustomDefaulter.Default: edits the object in place. */
  method Default(gs: LiveServer)
    modifies gs
    ensures gs.o == old(gs.o).(spec := DefaultSpec(old(gs.o).spec))
  {
    hide DefaultSecurity, DefaultPorts;
    var spec := gs.o.spec;
    if spec.imagePullPolicy == "" {
      spec := spec.(imagePullPolicy := "IfNotPresent");
    }
    if |spec.accessModes| == 0 {
      spec := spec.(accessModes := ["ReadWriteOnce"]);
    }
    if spec.serviceType == "" {
      spec := spec.(serviceType := "LoadBalancer");
    }
    var ports := FillPorts(spec.ports);
    var security := FillSecurity(spec.security);
    gs.o := gs.o.(spec := spec.(ports := ports, security := security));
  }

  /** Defaulting twice is defaulting once: a stored spec is a fixed point. */
  lemma DefaultIdempotent(s: ServerSpec)
    ensures DefaultSpec(DefaultSpec(s)) == DefaultSpec(s)
  {
    assert DefaultPorts(DefaultPorts(s.ports)) == DefaultPorts(s.ports);
  }

  /** Defaulting fills unset fields and touches nothing else; ports keep their number, order, names and numbers. */
  lemma DefaultFillsOnly(s: ServerSpec)
    ensures var d := DefaultSpec(s);
            && d == s.(imagePullPolicy := d.imagePullPolicy, accessModes := d.accessModes, serviceType := d.serviceType,
                       ports := d.ports, security := d.security)
            && (s.imagePullPolicy != "" ==> d.imagePullPolicy == s.imagePullPolicy)
            && (s.accessModes != [] ==> d.accessModes == s.accessModes)
            && (s.serviceType != "" ==> d.serviceType == s.serviceType)
            && |d.ports| == |s.ports|
            && forall i :: 0 <= i < |s.ports| ==>
                 && d.ports[i].name == s.ports[i].name && d.ports[i].port == s.ports[i].port
                 && (s.ports[i].protocol != "" ==> d.ports[i].protocol == s.ports[i].protocol)
                 && (s.ports[i].targetPort.Some? ==> d.ports[i].targetPort == s.ports[i].targetPort)
    ensures s.security.Some? ==>
              var x, y := s.security.value, DefaultSpec(s).security.value;
              && (x.runAsNonRoot.Some? ==> y.runAsNonRoot == x.runAsNonRoot)
                 && (x.runAsUser.Some? ==> y.runAsUser == x.runAsUser)
              && (x.runAsGroup.Some? ==> y.runAsGroup == x.runAsGroup) && (x.fsGroup.Some? ==> y.fsGroup == x.fsGroup)
              && (x.seccompProfile != "" ==> y.seccompProfile == x.seccompProfile)
              && (x.dropAll.Some? ==> y.dropAll == x.dropAll) && y.readOnlyRoot == x.readOnlyRoot
  {
  }

  /** What every unset field becomes, a security section that is missing altogether included. A read-only root is never
      filled in. */
  lemma DefaultGives(s: ServerSpec)
    ensures var d := DefaultSpec(s);
            && (s.imagePullPolicy == "" ==> d.imagePullPolicy == "IfNotPresent")
            && (s.accessModes == [] ==> d.accessModes == ["ReadWriteOnce"])
            && (s.serviceType == "" ==> d.serviceType == "LoadBalancer")
            && |d.ports| == |s.ports|
            && forall i :: 0 <= i < |s.ports| ==>
                 && (s.ports[i].protocol == "" ==> d.ports[i].protocol == "TCP")
                 && (s.ports[i].targetPort == None ==> d.ports[i].targetPort == Some(s.ports[i].port))
    ensures DefaultSpec(s).security.Some?
    ensures var y := DefaultSpec(s).security.value;
            match s.security
            case None =>
              && y.runAsNonRoot == Some(true) && y.runAsUser == Some(1000) && y.runAsGroup == Some(1000)
              && y.fsGroup == Some(1000) && y.seccompProfile == "RuntimeDefault" && y.dropAll == Some(true)
              && y.readOnlyRoot == None
            case Some(x) =>
              && (x.runAsNonRoot == None ==> y.runAsNonRoot == Some(true))
              && (x.runAsUser == None ==> y.runAsUser == Some(1000))
              && (x.runAsGroup == None ==> y.runAsGroup == Some(1000))
              && (x.fsGroup == None ==> y.fsGroup == Some(1000))
              && (x.seccompProfile == "" ==> y.seccompProfile == "RuntimeDefault")
              && (x.dropAll == None ==> y.dropAll == Some(true))
              && (x.readOnlyRoot == None ==> y.readOnlyRoot == None)
  {
  }

  // ---- validation ----

  datatype FieldError = TypeRequired | VersionRequired | ImageRequired | PortsRequired | SizeRequired
                      | PortInvalid(index: nat, value: int) | TargetPortInvalid(index: nat, value: int)
                      | TypeImmutable

  predicate PortNumber(n: int) {
    1 <= n <= 65535
  }

  predicate ValidPort(p: PortSpec) {
    PortNumber(p.port) && (p.targetPort.Some? ==> PortNumber(p.targetPort.value))
  }

  /** What a GameServer must satisfy to be admitted. */
  predicate ValidSpec(s: ServerSpec) {
    && s.gameType != "" && s.version != "" && s.image != "" && s.ports != [] && s.size != 0
    && forall i :: 0 <= i < |s.ports| ==> ValidPort(s.ports[i])
  }

  /** ValidateUpdate: the new spec is valid and keeps the game type. */
  predicate ValidUpdate(before: ServerSpec, after: ServerSpec) {
    ValidSpec(after) && before.gameType == after.gameType
  }

  function When(violated: bool, e: FieldError): seq<FieldError> {
    if violated then [e] else []
  }

  function RequiredErrors(s: ServerSpec): seq<FieldError> {
    When(s.gameType == "", TypeRequired) + When(s.version == "", VersionRequired) + When(s.image == "", ImageRequired)
    + When(s.ports == [], PortsRequired) + When(s.size == 0, SizeRequired)
  }

  method MissingFields(s: ServerSpec) returns (errs: seq<FieldError>)
    ensures errs == RequiredErrors(s)
  {
    errs := [];
    if s.gameType == "" { errs := errs + [TypeRequired]; }
    assert errs == When(s.gameType == "", TypeRequired);
    if s.version == "" { errs := errs + [VersionRequired]; }
    assert errs == When(s.gameType == "", TypeRequired) + When(s.version == "", VersionRequired);
    ghost var two := errs;
    if s.image == "" { errs := errs + [ImageRequired]; }
    assert errs == two + When(s.image == "", ImageRequired);
    ghost var three := errs;
    if |s.ports| == 0 { errs := errs + [PortsRequired]; }
    assert errs == three + When(s.ports == [], PortsRequired);
    ghost var four := errs;
    if s.size == 0 { errs := errs + [SizeRequired]; }
    assert errs == four + When(s.size == 0, SizeRequired);
  }

  function PortErrors(i: nat, p: PortSpec): seq<FieldError> {
    When(!PortNumber(p.port), PortInvalid(i, p.port))
    + if p.targetPort.None? then [] else When(!PortNumber(p.targetPort.value), TargetPortInvalid(i, p.targetPort.value))
  }

  /** The errors of the first `n` ports, in order. */
  function PortsErrors(ps: seq<PortSpec>, n: nat): seq<FieldError>
    requires n <= |ps|
  {
    if n == 0 then [] else PortsErrors(ps, n - 1) + PortErrors(n - 1, ps[n - 1])
  }

  lemma PortErrorsMeaning(i: nat, p: PortSpec, e: FieldError)
    ensures e in PortErrors(i, p) <==>
            || (e == PortInvalid(i, p.port) && !PortNumber(p.port))
            || (p.targetPort.Some? && e == TargetPortInvalid(i, p.targetPort.value) && !PortNumber(p.targetPort.value))
    ensures PortErrors(i, p) == [] <==> ValidPort(p)
  {
  }

  /** An error is listed exactly when its rule is violated. */
  lemma {:induction false} PortsErrorsMeaning(ps: seq<PortSpec>, n: nat, e: FieldError)
    requires n <= |ps|
    ensures e in PortsErrors(ps, n) <==>
            || (e.PortInvalid? && e.index < n && ps[e.index].port == e.value && !(1 <= e.value <= 65535))
            || (e.TargetPortInvalid? && e.index < n && ps[e.index].targetPort == Some(e.value)
                && !(1 <= e.value <= 65535))
  {
    hide PortErrors;
    if n != 0 {
      PortsErrorsMeaning(ps, n - 1, e);
      PortErrorsMeaning(n - 1, ps[n - 1], e);
    }
  }

  /** Nothing is listed exactly when every port is valid. */
  lemma {:induction false} NoPortErrors(ps: seq<PortSpec>, n: nat)
    requires n <= |ps|
    ensures PortsErrors(ps, n) == [] <==> forall i :: 0 <= i < n ==> ValidPort(ps[i])
  {
    hide PortErrors, ValidPort;
    if n != 0 {
      NoPortErrors(ps, n - 1);
      PortErrorsMeaning(n - 1, ps[n - 1], TypeImmutable);
    }
  }

  method CheckPort(i: nat, p: PortSpec) returns (errs: seq<FieldError>)
    ensures errs == PortErrors(i, p)
  {
    errs := [];
    if p.port < 1 || p.port > 65535 {
      errs := [PortInvalid(i, p.port)];
    }
    if p.targetPort.Some? && (p.targetPort.value < 1 || p.targetPort.value > 65535) {
      errs := errs + [TargetPortInvalid(i, p.targetPort.value)];
    }
  }

  method BadPorts(ps: seq<PortSpec>) returns (errs: seq<FieldError>)
    ensures errs == PortsErrors(ps, |ps|)
  {
    hide PortErrors;
    errs := [];
    for i := 0 to |ps|
      invariant errs == PortsErrors(ps, i)
    {
      var found := CheckPort(i, ps[i]);
      errs := errs + found;
    }
  }

  function SpecErrors(s: ServerSpec): seq<FieldError> {
    RequiredErrors(s) + PortsErrors(s.ports, |s.ports|)
  }

  /** The verdict: no error exactly for valid specs. */
  lemma NoErrorsMeansValid(s: ServerSpec)
    ensures SpecErrors(s) == [] <==> ValidSpec(s)
  {
    hide PortsErrors;
    NoPortErrors(s.ports, |s.ports|);
    assert RequiredErrors(s) == [] <==>
           s.gameType != "" && s.version != "" && s.image != "" && s.ports != [] && s.size != 0 by {
      if RequiredErrors(s) == [] {
        assert TypeRequired !in RequiredErrors(s);
      }
    }
  }

  /** What is admitted: type, version, image and storage size are set, there is a port, and every port and target port
      lies between 1 and 65535. */
  lemma AdmittedExactly(s: ServerSpec)
    ensures ValidSpec(s) <==>
              && s.gameType != "" && s.version != "" && s.image != "" && s.size != 0 && |s.ports| > 0
              && forall i :: 0 <= i < |s.ports| ==>
                   && 1 <= s.ports[i].port <= 65535
                   && (s.ports[i].targetPort.Some? ==> 1 <= s.ports[i].targetPort.value <= 65535)
  {
    forall i | 0 <= i < |s.ports|
      ensures ValidPort(s.ports[i]) <==> && 1 <= s.ports[i].port <= 65535
                                         && (s.ports[i].targetPort.Some? ==>
                                             1 <= s.ports[i].targetPort.value <= 65535) {
    }
  }

  /** Which rules an error list names: exactly the violated ones. */
  lemma ErrorsExactly(s: ServerSpec, e: FieldError)
    ensures e in SpecErrors(s) <==>
              match e
              case TypeRequired => s.gameType == ""
              case VersionRequired => s.version == ""
              case ImageRequired => s.image == ""
              case PortsRequired => s.ports == []
              case SizeRequired => s.size == 0
              case PortInvalid(i, v) => i < |s.ports| && v == s.ports[i].port && !(1 <= v <= 65535)
              case TargetPortInvalid(i, v) => i < |s.ports| && Some(v) == s.ports[i].targetPort && !(1 <= v <= 65535)
              case TypeImmutable => false
  {
    hide PortsErrors;
    PortsErrorsMeaning(s.ports, |s.ports|, e);
  }

  /** The place of an error in the order of the checks. */
  function ErrorPlace(e: FieldError): int {
    match e
    case TypeRequired => 0
    case VersionRequired => 1
    case ImageRequired => 2
    case PortsRequired => 3
    case SizeRequired => 4
    case PortInvalid(i, _) => 5 + 2 * i
    case TargetPortInvalid(i, _) => 6 + 2 * i
    case TypeImmutable => -1
  }

  /** Listed in the order of the checks, all of them between two places. */
  ghost predicate Ordered(errs: seq<FieldError>, lo: int, hi: int) {
    && (forall i :: 0 <= i < |errs| ==> lo <= ErrorPlace(errs[i]) < hi)
    && (forall i, j :: 0 <= i < j < |errs| ==> ErrorPlace(errs[i]) < ErrorPlace(errs[j]))
  }

  lemma OrderedJoin(a: seq<FieldError>, b: seq<FieldError>, lo: int, mid: int, hi: int)
    requires Ordered(a, lo, mid) && Ordered(b, mid, hi) && lo <= mid <= hi
    ensures Ordered(a + b, lo, hi)
  {
    hide ErrorPlace;
  }

  lemma {:induction false} PortsInOrder(ps: seq<PortSpec>, n: nat)
    requires n <= |ps|
    ensures Ordered(PortsErrors(ps, n), 5, 5 + 2 * n)
  {
    hide PortErrors, ErrorPlace, Ordered;
    if n == 0 {
      NoneInOrder(5);
    } else {
      PortsInOrder(ps, n - 1);
      PortInOrder(n - 1, ps[n - 1]);
      OrderedJoin(PortsErrors(ps, n - 1), PortErrors(n - 1, ps[n - 1]), 5, 5 + 2 * (n - 1), 5 + 2 * n);
    }
  }

  lemma NoneInOrder(lo: int)
    ensures Ordered([], lo, lo)
  {
  }

  lemma PortInOrder(i: nat, p: PortSpec)
    ensures Ordered(PortErrors(i, p), 5 + 2 * i, 7 + 2 * i)
  {
  }

  /** Every error is listed once, in the order of the checks: with ErrorsExactly, that is the whole list. */
  lemma ErrorsInOrder(s: ServerSpec)
    ensures var errs := SpecErrors(s);
            forall i, j :: 0 <= i < j < |errs| ==> ErrorPlace(errs[i]) < ErrorPlace(errs[j])
  {
    hide PortsErrors, RequiredErrors, ErrorPlace;
    RequiredInOrder(s);
    PortsInOrder(s.ports, |s.ports|);
    OrderedJoin(RequiredErrors(s), PortsErrors(s.ports, |s.ports|), 0, 5, 5 + 2 * |s.ports|);
  }

  lemma RequiredInOrder(s: ServerSpec)
    ensures Ordered(RequiredErrors(s), 0, 5)
  {
    var a, b := When(s.gameType == "", TypeRequired), When(s.version == "", VersionRequired);
    var c, d := When(s.image == "", ImageRequired), When(s.ports == [], PortsRequired);
    OrderedJoin(a, b, 0, 1, 2);
    OrderedJoin(a + b, c, 0, 2, 3);
    OrderedJoin(a + b + c, d, 0, 3, 4);
    OrderedJoin(a + b + c + d, When(s.size == 0, SizeRequired), 0, 4, 5);
  }

  /** validateGameServer: collects every violated rule, in order. */
  method ValidateGameServer(s: ServerSpec) returns (errs: seq<FieldError>)
    ensures errs == SpecErrors(s)
  {
    errs := MissingFields(s);
    var ports := BadPorts(s.ports);
    errs := errs + ports;
  }

  /** ValidateUpdate appends the immutability error; nothing is reported exactly for valid updates. */
  method ValidateUpdate(before: ServerSpec, after: ServerSpec) returns (errs: seq<FieldError>)
    ensures errs == SpecErrors(after) + When(before.gameType != after.gameType, TypeImmutable)
    ensures errs == [] <==> ValidUpdate(before, after)
  {
    errs := ValidateGameServer(after);
    NoErrorsMeansValid(after);
    if before.gameType != after.gameType {
      errs := errs + [TypeImmutable];
    }
  }

  /** Defaulting neither repairs nor breaks a spec. */
  lemma DefaultKeepsVerdict(s: ServerSpec)
    ensures ValidSpec(DefaultSpec(s)) <==> ValidSpec(s)
  {
    var d := DefaultSpec(s);
    if ValidSpec(d) {
      forall i | 0 <= i < |s.ports| ensures ValidPort(s.ports[i]) {
        assert ValidPort(d.ports[i]);
      }
    }
  }

  /** The stored form of a spec: defaulted and valid. Writing it back unchanged is always admitted. */
  predicate Stored(s: ServerSpec) {
    DefaultSpec(s) == s && ValidSpec(s)
  }

  lemma AdmittedIsStored(s: ServerSpec)
    requires ValidSpec(DefaultSpec(s))
    ensures Stored(DefaultSpec(s))
  {
    DefaultIdempotent(s);
  }
}
