/** Proxy configuration between flags and annotations: what `linkerd inject` writes, what the injector reads
    back, and how workload, namespace and default settings are layered. */
module Inject {
  import opened Strings

  /* ---------- annotations and values ---------- */

  /** The annotation keys: constants of pkg/k8s, of which only that they differ matters here. They are
      numbered in the order in which the command emits them; the last ones it never emits. */
  newtype Annotation = n: int | 0 <= n < 46

  const EMITTED := 31

  const PROXY_VERSION: Annotation := 0
  const IGNORE_INBOUND_PORTS: Annotation := 1
  const IGNORE_OUTBOUND_PORTS: Annotation := 2
  const ADMIN_PORT: Annotation := 3
  const CONTROL_PORT: Annotation := 4
  const INBOUND_PORT: Annotation := 5
  const OUTBOUND_PORT: Annotation := 6
  const OPAQUE_PORTS: Annotation := 7
  const PROXY_IMAGE: Annotation := 8
  const INIT_IMAGE: Annotation := 9
  const DEBUG_IMAGE: Annotation := 10
  const INIT_VERSION: Annotation := 11
  const DEBUG_VERSION: Annotation := 12
  const PULL_POLICY: Annotation := 13
  const PROXY_UID: Annotation := 14
  const PROXY_GID: Annotation := 15
  const LOG_LEVEL: Annotation := 16
  const LOG_FORMAT: Annotation := 17
  const REQUIRE_IDENTITY: Annotation := 18
  const EXTERNAL_PROFILES: Annotation := 19
  const INJECT_MODE: Annotation := 20
  const CPU_REQUEST: Annotation := 21
  const CPU_LIMIT: Annotation := 22
  const MEMORY_REQUEST: Annotation := 23
  const MEMORY_LIMIT: Annotation := 24
  const WAIT_BEFORE_EXIT: Annotation := 25
  const AWAIT_PROXY: Annotation := 26
  const DEFAULT_INBOUND_POLICY: Annotation := 27
  const ACCESS_LOG: Annotation := 28
  const SHUTDOWN_GRACE_PERIOD: Annotation := 29
  const NATIVE_SIDECAR: Annotation := 30
  const DEBUG_PULL_POLICY: Annotation := 31
  const POD_INBOUND_PORTS: Annotation := 32
  const SKIP_SUBNETS: Annotation := 33
  const LOG_HTTP_HEADERS: Annotation := 34
  const ENABLE_DEBUG: Annotation := 35
  const ENABLE_GATEWAY: Annotation := 36
  const ADMIN_SHUTDOWN: Annotation := 37
  const STORAGE_REQUEST: Annotation := 38
  const STORAGE_LIMIT: Annotation := 39
  const OUTBOUND_CONNECT_TIMEOUT: Annotation := 40
  const INBOUND_CONNECT_TIMEOUT: Annotation := 41
  const OUTBOUND_CACHE_TIMEOUT: Annotation := 42
  const INBOUND_CACHE_TIMEOUT: Annotation := 43
  const DISABLE_OUTBOUND_DETECT: Annotation := 44
  const DISABLE_INBOUND_DETECT: Annotation := 45

  type Annotations = map<Annotation, string>

  type Int32 = n: int | 0 - HALF_32 <= n < HALF_32
  type Int64 = n: int | 0 - HALF_64 <= n < HALF_64
  type Uint64 = n: int | 0 <= n < FULL_64

  datatype Image = Image(name: string, version: string, pullPolicy: string)

  datatype Ports = Ports(admin: Int32, control: Int32, inbound: Int32, outbound: Int32)

  datatype Resources = Resources(cpuRequest: string, cpuLimit: string, memoryRequest: string, memoryLimit: string,
                                 storageRequest: string, storageLimit: string, cores: Int64)

  datatype Logging = Logging(level: string, format: string, httpHeaders: string, access: string)

  datatype Flags = Flags(ingress: bool, gateway: bool, externalProfiles: bool, nativeSidecar: bool, await: bool,
                         shutdownEndpoint: bool, disableOutboundDetect: bool, disableInboundDetect: bool)

  datatype Timing = Timing(waitBeforeExit: Uint64, gracePeriod: string, outboundConnect: string, inboundConnect: string,
                           outboundCache: string, inboundCache: string)

  datatype Access = Access(uid: Int64, gid: Int64, requireIdentity: string, inboundPolicy: string)

  datatype PortLists = PortLists(opaquePorts: string, podInbound: string, ignoreInbound: string, ignoreOutbound: string,
                                 skipSubnets: string)

  datatype Values = Values(proxyImage: Image, initImage: Image, debugImage: Image, ports: Ports, lists: PortLists,
                           resources: Resources, logging: Logging, flags: Flags, timing: Timing, access: Access)

  /** What is taken from other packages: quantity syntax and rounding, and the normal forms of durations
      and of port lists. */
  datatype Rules = Rules(
    isQuantity: string -> bool,
    wholeCores: string -> Int64,
    millis: string -> Option<string>,
    seconds: string -> Option<string>,
    normalPorts: string -> string)

  const INGRESS := "ingress"
  const ENABLED := "enabled"
  const DISABLED := "disabled"

  predicate IsPolicy(s: string) {
    s in {"all-unauthenticated", "all-authenticated", "cluster-unauthenticated", "cluster-authenticated", "deny",
          "audit"}
  }

  /* ---------- reading one annotation ---------- */

  function TextOr(ann: Annotations, a: Annotation, base: string): string {
    if a in ann then ann[a] else base
  }

  function Int32Or(ann: Annotations, a: Annotation, base: Int32): Int32 {
    if a in ann then
      match ParseInt(ann[a], HALF_32) case Some(n) => (ParsedIntFits(ann[a], HALF_32); n) case None => base
    else base
  }

  function Int64Or(ann: Annotations, a: Annotation, base: Int64): Int64 {
    if a in ann then
      match ParseInt(ann[a], HALF_64) case Some(n) => (ParsedIntFits(ann[a], HALF_64); n) case None => base
    else base
  }

  function Uint64Or(ann: Annotations, a: Annotation, base: Uint64): Uint64 {
    if a in ann then match ParseUint(ann[a], FULL_64) case Some(n) => n case None => base else base
  }

  function ParseBool(s: string): Option<bool> {
    if s in {"1", "t", "T", "TRUE", "true", "True"} then Some(true)
    else if s in {"0", "f", "F", "FALSE", "false", "False"} then Some(false)
    else None
  }

  function FormatBool(b: bool): string {
    if b then "true" else "false"
  }

  function BoolOr(ann: Annotations, a: Annotation, base: bool): bool {
    if a in ann then match ParseBool(ann[a]) case Some(b) => b case None => base else base
  }

  function EnabledOr(ann: Annotations, a: Annotation, base: bool): bool {
    if a in ann && (ann[a] == ENABLED || ann[a] == DISABLED) then ann[a] == ENABLED else base
  }

  function NormalOr(ann: Annotations, a: Annotation, normal: string -> Option<string>, base: string): string {
    if a in ann then match normal(ann[a]) case Some(s) => s case None => base else base
  }

  function QuantityOr(rules: Rules, ann: Annotations, a: Annotation, base: string): string {
    if a in ann && rules.isQuantity(ann[a]) then ann[a] else base
  }

  lemma ParsedIntFits(s: string, half: nat)
    requires ParseInt(s, half).Some? && half > 0
    ensures 0 - half <= ParseInt(s, half).value < half
  {
  }

  /* ---------- applyAnnotationOverrides ---------- */

  function AppliedResources(rules: Rules, r: Resources, ann: Annotations): Resources {
    Resources(
      QuantityOr(rules, ann, CPU_REQUEST, r.cpuRequest), QuantityOr(rules, ann, CPU_LIMIT, r.cpuLimit),
      QuantityOr(rules, ann, MEMORY_REQUEST, r.memoryRequest), QuantityOr(rules, ann, MEMORY_LIMIT, r.memoryLimit),
      QuantityOr(rules, ann, STORAGE_REQUEST, r.storageRequest), QuantityOr(rules, ann, STORAGE_LIMIT, r.storageLimit),
      if CPU_LIMIT in ann && rules.isQuantity(ann[CPU_LIMIT]) then rules.wholeCores(ann[CPU_LIMIT]) else r.cores)
  }

  function AppliedFlags(f: Flags, ann: Annotations): Flags {
    Flags(
      f.ingress || (INJECT_MODE in ann && ann[INJECT_MODE] == INGRESS),
      BoolOr(ann, ENABLE_GATEWAY, f.gateway), BoolOr(ann, EXTERNAL_PROFILES, f.externalProfiles),
      BoolOr(ann, NATIVE_SIDECAR, f.nativeSidecar), EnabledOr(ann, AWAIT_PROXY, f.await),
      EnabledOr(ann, ADMIN_SHUTDOWN, f.shutdownEndpoint),
      BoolOr(ann, DISABLE_OUTBOUND_DETECT, f.disableOutboundDetect),
      BoolOr(ann, DISABLE_INBOUND_DETECT, f.disableInboundDetect))
  }

  function AppliedTiming(rules: Rules, t: Timing, ann: Annotations): Timing {
    Timing(
      Uint64Or(ann, WAIT_BEFORE_EXIT, t.waitBeforeExit),
      NormalOr(ann, SHUTDOWN_GRACE_PERIOD, rules.millis, t.gracePeriod),
      NormalOr(ann, OUTBOUND_CONNECT_TIMEOUT, rules.millis, t.outboundConnect),
      NormalOr(ann, INBOUND_CONNECT_TIMEOUT, rules.millis, t.inboundConnect),
      NormalOr(ann, OUTBOUND_CACHE_TIMEOUT, rules.seconds, t.outboundCache),
      NormalOr(ann, INBOUND_CACHE_TIMEOUT, rules.seconds, t.inboundCache))
  }

  function AppliedLists(rules: Rules, l: PortLists, ann: Annotations): PortLists {
    PortLists(
      if OPAQUE_PORTS in ann then rules.normalPorts(ann[OPAQUE_PORTS]) else l.opaquePorts,
      TextOr(ann, POD_INBOUND_PORTS, l.podInbound),
      TextOr(ann, IGNORE_INBOUND_PORTS, l.ignoreInbound), TextOr(ann, IGNORE_OUTBOUND_PORTS, l.ignoreOutbound),
      TextOr(ann, SKIP_SUBNETS, l.skipSubnets))
  }

  function AppliedAccess(a: Access, ann: Annotations): Access {
    Access(
      Int64Or(ann, PROXY_UID, a.uid), Int64Or(ann, PROXY_GID, a.gid), TextOr(ann, REQUIRE_IDENTITY, a.requireIdentity),
      if DEFAULT_INBOUND_POLICY in ann && IsPolicy(ann[DEFAULT_INBOUND_POLICY]) then ann[DEFAULT_INBOUND_POLICY]
      else a.inboundPolicy)
  }

  /** One annotation sets the pull policy of both the proxy and the init container. */
  function Applied(rules: Rules, v: Values, ann: Annotations): Values {
    Values(
      Image(TextOr(ann, PROXY_IMAGE, v.proxyImage.name), TextOr(ann, PROXY_VERSION, v.proxyImage.version),
            TextOr(ann, PULL_POLICY, v.proxyImage.pullPolicy)),
      Image(TextOr(ann, INIT_IMAGE, v.initImage.name), TextOr(ann, INIT_VERSION, v.initImage.version),
            TextOr(ann, PULL_POLICY, v.initImage.pullPolicy)),
      Image(TextOr(ann, DEBUG_IMAGE, v.debugImage.name), TextOr(ann, DEBUG_VERSION, v.debugImage.version),
            TextOr(ann, DEBUG_PULL_POLICY, v.debugImage.pullPolicy)),
      Ports(Int32Or(ann, ADMIN_PORT, v.ports.admin), Int32Or(ann, CONTROL_PORT, v.ports.control),
            Int32Or(ann, INBOUND_PORT, v.ports.inbound), Int32Or(ann, OUTBOUND_PORT, v.ports.outbound)),
      AppliedLists(rules, v.lists, ann),
      AppliedResources(rules, v.resources, ann),
      Logging(TextOr(ann, LOG_LEVEL, v.logging.level), TextOr(ann, LOG_FORMAT, v.logging.format),
              TextOr(ann, LOG_HTTP_HEADERS, v.logging.httpHeaders), TextOr(ann, ACCESS_LOG, v.logging.access)),
      AppliedFlags(v.flags, ann),
      AppliedTiming(rules, v.timing, ann),
      AppliedAccess(v.access, ann))
  }

  /* ---------- one annotation ---------- */

  /** The words for true and false. */
  lemma ParseBoolIsExact(s: string)
    ensures ParseBool(s) == Some(true) <==>
              s == "1" || s == "t" || s == "T" || s == "true" || s == "True" || s == "TRUE"
    ensures ParseBool(s) == Some(false) <==>
              s == "0" || s == "f" || s == "F" || s == "false" || s == "False" || s == "FALSE"
  {
    assert |"1"| == |"t"| == |"T"| == 1 && |"true"| == |"True"| == |"TRUE"| == 4;
    assert |"0"| == |"f"| == |"F"| == 1 && |"false"| == |"False"| == |"FALSE"| == 5;
    assert "1"[0] == '1' && "t"[0] == 't' && "T"[0] == 'T' && "0"[0] == '0' && "f"[0] == 'f' && "F"[0] == 'F';
  }

  /** An image annotation sets the name, the version or the pull policy. */
  function SetImage(i: Image, a: Annotation, s: string,
                    name: Annotation, version: Annotation, policy: Annotation): Image
  {
    if a == name then i.(name := s)
    else if a == version then i.(version := s)
    else if a == policy then i.(pullPolicy := s)
    else i
  }

  /** A port annotation sets its port if it is an int32. */
  function SetPorts(p: Ports, a: Annotation, s: string): Ports {
    match ParseInt(s, 0x8000_0000)
    case None => p
    case Some(n) =>
      ParsedIntFits(s, 0x8000_0000);
      if a == ADMIN_PORT then p.(admin := n)
      else if a == CONTROL_PORT then p.(control := n)
      else if a == INBOUND_PORT then p.(inbound := n)
      else if a == OUTBOUND_PORT then p.(outbound := n)
      else p
  }

  function SetLists(rules: Rules, l: PortLists, a: Annotation, s: string): PortLists {
    if a == OPAQUE_PORTS then l.(opaquePorts := rules.normalPorts(s))
    else if a == POD_INBOUND_PORTS then l.(podInbound := s)
    else if a == IGNORE_INBOUND_PORTS then l.(ignoreInbound := s)
    else if a == IGNORE_OUTBOUND_PORTS then l.(ignoreOutbound := s)
    else if a == SKIP_SUBNETS then l.(skipSubnets := s)
    else l
  }

  /** A resource annotation counts if it is a quantity; a CPU limit also sets the cores. */
  function SetResources(rules: Rules, r: Resources, a: Annotation, s: string): Resources {
    Resources(
      if a == CPU_REQUEST then SetQuantity(rules, r.cpuRequest, s) else r.cpuRequest,
      if a == CPU_LIMIT then SetQuantity(rules, r.cpuLimit, s) else r.cpuLimit,
      if a == MEMORY_REQUEST then SetQuantity(rules, r.memoryRequest, s) else r.memoryRequest,
      if a == MEMORY_LIMIT then SetQuantity(rules, r.memoryLimit, s) else r.memoryLimit,
      if a == STORAGE_REQUEST then SetQuantity(rules, r.storageRequest, s) else r.storageRequest,
      if a == STORAGE_LIMIT then SetQuantity(rules, r.storageLimit, s) else r.storageLimit,
      if a == CPU_LIMIT && rules.isQuantity(s) then rules.wholeCores(s) else r.cores)
  }

  function SetQuantity(rules: Rules, was: string, s: string): string {
    if rules.isQuantity(s) then s else was
  }

  function SetLogging(l: Logging, a: Annotation, s: string): Logging {
    if a == LOG_LEVEL then l.(level := s)
    else if a == LOG_FORMAT then l.(format := s)
    else if a == LOG_HTTP_HEADERS then l.(httpHeaders := s)
    else if a == ACCESS_LOG then l.(access := s)
    else l
  }

  /** Ingress mode can only be switched on. Two switches need "enabled" or "disabled", the others a boolean. */
  function SetFlags(f: Flags, a: Annotation, s: string): Flags {
    Flags(
      if a == INJECT_MODE then SetIngress(f.ingress, s) else f.ingress,
      if a == ENABLE_GATEWAY then SetBool(f.gateway, s) else f.gateway,
      if a == EXTERNAL_PROFILES then SetBool(f.externalProfiles, s) else f.externalProfiles,
      if a == NATIVE_SIDECAR then SetBool(f.nativeSidecar, s) else f.nativeSidecar,
      if a == AWAIT_PROXY then SetSwitch(f.await, s) else f.await,
      if a == ADMIN_SHUTDOWN then SetSwitch(f.shutdownEndpoint, s) else f.shutdownEndpoint,
      if a == DISABLE_OUTBOUND_DETECT then SetBool(f.disableOutboundDetect, s) else f.disableOutboundDetect,
      if a == DISABLE_INBOUND_DETECT then SetBool(f.disableInboundDetect, s) else f.disableInboundDetect)
  }

  predicate SetBool(was: bool, s: string) {
    ParseBool(s) == Some(true) || (was && ParseBool(s) != Some(false))
  }

  predicate SetIngress(was: bool, s: string) {
    was || s == "ingress"
  }

  predicate SetSwitch(was: bool, s: string) {
    s == "enabled" || (was && s != "disabled")
  }

  /** Durations count if they parse: grace period and connect timeouts in milliseconds, cache timeouts in seconds. */
  function SetTiming(rules: Rules, t: Timing, a: Annotation, s: string): Timing {
    Timing(
      if a == WAIT_BEFORE_EXIT then SetCount(t.waitBeforeExit, s) else t.waitBeforeExit,
      if a == SHUTDOWN_GRACE_PERIOD then SetDuration(rules.millis(s), t.gracePeriod) else t.gracePeriod,
      if a == OUTBOUND_CONNECT_TIMEOUT then SetDuration(rules.millis(s), t.outboundConnect) else t.outboundConnect,
      if a == INBOUND_CONNECT_TIMEOUT then SetDuration(rules.millis(s), t.inboundConnect) else t.inboundConnect,
      if a == OUTBOUND_CACHE_TIMEOUT then SetDuration(rules.seconds(s), t.outboundCache) else t.outboundCache,
      if a == INBOUND_CACHE_TIMEOUT then SetDuration(rules.seconds(s), t.inboundCache) else t.inboundCache)
  }

  function SetCount(was: Uint64, s: string): Uint64 {
    match ParseUint(s, 0x1_0000_0000_0000_0000) case Some(n) => n case None => was
  }

  function SetDuration(normal: Option<string>, was: string): string {
    match normal case Some(text) => text case None => was
  }

  function SetAccess(c: Access, a: Annotation, s: string): Access {
    var id := ParseInt(s, 0x8000_0000_0000_0000);
    if a == PROXY_UID && id.Some? then (ParsedIntFits(s, 0x8000_0000_0000_0000); c.(uid := id.value))
    else if a == PROXY_GID && id.Some? then (ParsedIntFits(s, 0x8000_0000_0000_0000); c.(gid := id.value))
    else if a == REQUIRE_IDENTITY then c.(requireIdentity := s)
    else if a == DEFAULT_INBOUND_POLICY && Policy(s) then c.(inboundPolicy := s)
    else c
  }

  predicate Policy(s: string) {
    || s == "deny" || s == "audit"
    || s == "all-unauthenticated" || s == "all-authenticated"
    || s == "cluster-unauthenticated" || s == "cluster-authenticated"
  }

  /** What one annotation sets, and leaves as it was; an annotation with an invalid value sets nothing. */
  function Set(rules: Rules, v: Values, a: Annotation, s: string): Values {
    Values(
      SetImage(v.proxyImage, a, s, PROXY_IMAGE, PROXY_VERSION, PULL_POLICY),
      SetImage(v.initImage, a, s, INIT_IMAGE, INIT_VERSION, PULL_POLICY),
      SetImage(v.debugImage, a, s, DEBUG_IMAGE, DEBUG_VERSION, DEBUG_PULL_POLICY),
      SetPorts(v.ports, a, s), SetLists(rules, v.lists, a, s), SetResources(rules, v.resources, a, s),
      SetLogging(v.logging, a, s), SetFlags(v.flags, a, s), SetTiming(rules, v.timing, a, s), SetAccess(v.access, a, s))
  }

  lemma OneMoreImage(i: Image, ann: Annotations, a: Annotation, s: string,
                     name: Annotation, version: Annotation, policy: Annotation)
    requires a !in ann && name != version && version != policy && policy != name
    ensures Image(TextOr(ann[a := s], name, i.name), TextOr(ann[a := s], version, i.version),
                  TextOr(ann[a := s], policy, i.pullPolicy)) ==
            SetImage(Image(TextOr(ann, name, i.name), TextOr(ann, version, i.version),
                           TextOr(ann, policy, i.pullPolicy)), a, s, name, version, policy)
  {
  }

  lemma OneMorePort(rules: Rules, v: Values, ann: Annotations, a: Annotation, s: string)
    requires a !in ann
    ensures Applied(rules, v, ann[a := s]).ports == SetPorts(Applied(rules, v, ann).ports, a, s)
  {
    hide AppliedLists, AppliedResources, AppliedFlags, AppliedTiming, AppliedAccess, TextOr, ParseInt;
  }

  lemma OneMoreList(rules: Rules, l: PortLists, ann: Annotations, a: Annotation, s: string)
    requires a !in ann
    ensures AppliedLists(rules, l, ann[a := s]) == SetLists(rules, AppliedLists(rules, l, ann), a, s)
  {
  }

  lemma OneMoreQuantity(rules: Rules, ann: Annotations, a: Annotation, s: string, b: Annotation, base: string)
    requires a !in ann
    ensures QuantityOr(rules, ann[a := s], b, base) ==
            if a == b then SetQuantity(rules, QuantityOr(rules, ann, b, base), s) else QuantityOr(rules, ann, b, base)
  {
  }

  lemma OneMoreResource(rules: Rules, r: Resources, ann: Annotations, a: Annotation, s: string)
    requires a !in ann
    ensures AppliedResources(rules, r, ann[a := s]) == SetResources(rules, AppliedResources(rules, r, ann), a, s)
  {
    hide QuantityOr, SetQuantity;
    OneMoreQuantity(rules, ann, a, s, CPU_REQUEST, r.cpuRequest);
    OneMoreQuantity(rules, ann, a, s, CPU_LIMIT, r.cpuLimit);
    OneMoreQuantity(rules, ann, a, s, MEMORY_REQUEST, r.memoryRequest);
    OneMoreQuantity(rules, ann, a, s, MEMORY_LIMIT, r.memoryLimit);
    OneMoreQuantity(rules, ann, a, s, STORAGE_REQUEST, r.storageRequest);
    OneMoreQuantity(rules, ann, a, s, STORAGE_LIMIT, r.storageLimit);
  }

  lemma OneMoreLog(rules: Rules, v: Values, ann: Annotations, a: Annotation, s: string)
    requires a !in ann
    ensures Applied(rules, v, ann[a := s]).logging == SetLogging(Applied(rules, v, ann).logging, a, s)
  {
    hide AppliedLists, AppliedResources, AppliedFlags, AppliedTiming, AppliedAccess, Int32Or;
  }

  lemma OneMoreBool(ann: Annotations, a: Annotation, s: string, b: Annotation, base: bool)
    requires a !in ann
    ensures BoolOr(ann[a := s], b, base) == if a == b then SetBool(BoolOr(ann, b, base), s) else BoolOr(ann, b, base)
  {
    hide ParseBool;
  }

  lemma OneMoreSwitch(ann: Annotations, a: Annotation, s: string, b: Annotation, base: bool)
    requires a !in ann
    ensures EnabledOr(ann[a := s], b, base) ==
            if a == b then SetSwitch(EnabledOr(ann, b, base), s) else EnabledOr(ann, b, base)
  {
    SwitchNamesDiffer();
  }

  lemma OneMoreMode(f: Flags, ann: Annotations, a: Annotation, s: string)
    requires a !in ann
    ensures AppliedFlags(f, ann[a := s]).ingress ==
            if a == INJECT_MODE then SetIngress(AppliedFlags(f, ann).ingress, s) else AppliedFlags(f, ann).ingress
  {
    hide ParseBool, BoolOr, EnabledOr;
  }

  lemma OneMoreBoolean(f: Flags, ann: Annotations, a: Annotation, s: string)
    requires a !in ann
    ensures var now, was := AppliedFlags(f, ann[a := s]), SetFlags(AppliedFlags(f, ann), a, s);
            && now.gateway == was.gateway && now.externalProfiles == was.externalProfiles
            && now.nativeSidecar == was.nativeSidecar && now.disableOutboundDetect == was.disableOutboundDetect
            && now.disableInboundDetect == was.disableInboundDetect
  {
    hide ParseBool, BoolOr, EnabledOr, SetSwitch, SetBool, SetIngress;
    OneMoreBool(ann, a, s, ENABLE_GATEWAY, f.gateway);
    OneMoreBool(ann, a, s, EXTERNAL_PROFILES, f.externalProfiles);
    OneMoreBool(ann, a, s, NATIVE_SIDECAR, f.nativeSidecar);
    OneMoreBool(ann, a, s, DISABLE_OUTBOUND_DETECT, f.disableOutboundDetect);
    OneMoreBool(ann, a, s, DISABLE_INBOUND_DETECT, f.disableInboundDetect);
  }

  lemma OneMoreName(f: Flags, ann: Annotations, a: Annotation, s: string)
    requires a !in ann
    ensures var now, was := AppliedFlags(f, ann[a := s]), SetFlags(AppliedFlags(f, ann), a, s);
            now.ingress == was.ingress && now.await == was.await && now.shutdownEndpoint == was.shutdownEndpoint
  {
    hide ParseBool, BoolOr, EnabledOr, SetSwitch, SetBool, SetIngress;
    OneMoreMode(f, ann, a, s);
    OneMoreSwitch(ann, a, s, AWAIT_PROXY, f.await);
    OneMoreSwitch(ann, a, s, ADMIN_SHUTDOWN, f.shutdownEndpoint);
  }

  lemma OneMoreFlag(f: Flags, ann: Annotations, a: Annotation, s: string)
    requires a !in ann
    ensures AppliedFlags(f, ann[a := s]) == SetFlags(AppliedFlags(f, ann), a, s)
  {
    hide AppliedFlags, SetFlags;
    OneMoreBoolean(f, ann, a, s);
    OneMoreName(f, ann, a, s);
  }

  lemma OneMoreDuration(normal: string -> Option<string>, ann: Annotations, a: Annotation, s: string, b: Annotation,
                        base: string)
    requires a !in ann
    ensures NormalOr(ann[a := s], b, normal, base) ==
            if a == b then SetDuration(normal(s), NormalOr(ann, b, normal, base)) else NormalOr(ann, b, normal, base)
  {
  }

  lemma OneMoreTime(rules: Rules, t: Timing, ann: Annotations, a: Annotation, s: string)
    requires a !in ann
    ensures AppliedTiming(rules, t, ann[a := s]) == SetTiming(rules, AppliedTiming(rules, t, ann), a, s)
  {
    hide ParseUint, NormalOr, SetDuration;
    OneMoreDuration(rules.millis, ann, a, s, SHUTDOWN_GRACE_PERIOD, t.gracePeriod);
    OneMoreDuration(rules.millis, ann, a, s, OUTBOUND_CONNECT_TIMEOUT, t.outboundConnect);
    OneMoreDuration(rules.millis, ann, a, s, INBOUND_CONNECT_TIMEOUT, t.inboundConnect);
    OneMoreDuration(rules.seconds, ann, a, s, OUTBOUND_CACHE_TIMEOUT, t.outboundCache);
    OneMoreDuration(rules.seconds, ann, a, s, INBOUND_CACHE_TIMEOUT, t.inboundCache);
  }

  lemma OneMoreAccess(c: Access, ann: Annotations, a: Annotation, s: string)
    requires a !in ann
    ensures AppliedAccess(c, ann[a := s]) == SetAccess(AppliedAccess(c, ann), a, s)
  {
    hide ParseInt;
  }

  /** Annotations are applied one by one, in any order: each sets its own field, if its value is valid, and no other. */
  lemma OneMoreAnnotation(rules: Rules, v: Values, ann: Annotations, a: Annotation, s: string)
    requires a !in ann
    ensures Applied(rules, v, ann[a := s]) == Set(rules, Applied(rules, v, ann), a, s)
    ensures Applied(rules, v, map[]) == v
  {
    hide SetImage, SetPorts, SetLists, SetResources, SetLogging, SetFlags, SetTiming, SetAccess;
    hide AppliedLists, AppliedResources, AppliedFlags, AppliedTiming, AppliedAccess, Int32Or, TextOr;
    OneMoreImage(v.proxyImage, ann, a, s, PROXY_IMAGE, PROXY_VERSION, PULL_POLICY);
    OneMoreImage(v.initImage, ann, a, s, INIT_IMAGE, INIT_VERSION, PULL_POLICY);
    OneMoreImage(v.debugImage, ann, a, s, DEBUG_IMAGE, DEBUG_VERSION, DEBUG_PULL_POLICY);
    OneMorePort(rules, v, ann, a, s);
    OneMoreList(rules, v.lists, ann, a, s);
    OneMoreResource(rules, v.resources, ann, a, s);
    OneMoreLog(rules, v, ann, a, s);
    OneMoreFlag(v.flags, ann, a, s);
    OneMoreTime(rules, v.timing, ann, a, s);
    OneMoreAccess(v.access, ann, a, s);
    NothingApplied(rules, v);
  }

  lemma NothingApplied(rules: Rules, v: Values)
    ensures Applied(rules, v, map[]) == v
  {
  }

  lemma AnnotationAlone(rules: Rules, v: Values, a: Annotation, s: string)
    ensures Applied(rules, v, map[a := s]) == Set(rules, v, a, s)
  {
    hide Applied, Set;
    OneMoreAnnotation(rules, v, map[], a, s);
    assert map[][a := s] == map[a := s];
  }

  /** The timeouts, which the flags never emit: alone, each sets one field, and an invalid one nothing. */
  lemma TimeoutsAlone(rules: Rules, v: Values, s: string)
    ensures Applied(rules, v, map[OUTBOUND_CONNECT_TIMEOUT := s]) == match rules.millis(s)
            case Some(ms) => v.(timing := v.timing.(outboundConnect := ms)) case None => v
    ensures Applied(rules, v, map[INBOUND_CONNECT_TIMEOUT := s]) == match rules.millis(s)
            case Some(ms) => v.(timing := v.timing.(inboundConnect := ms)) case None => v
    ensures Applied(rules, v, map[OUTBOUND_CACHE_TIMEOUT := s]) == match rules.seconds(s)
            case Some(sec) => v.(timing := v.timing.(outboundCache := sec)) case None => v
    ensures Applied(rules, v, map[INBOUND_CACHE_TIMEOUT := s]) == match rules.seconds(s)
            case Some(sec) => v.(timing := v.timing.(inboundCache := sec)) case None => v
  {
    hide Applied, ParseInt, ParseUint, ParseBool;
    AnnotationAlone(rules, v, OUTBOUND_CONNECT_TIMEOUT, s);
    AnnotationAlone(rules, v, INBOUND_CONNECT_TIMEOUT, s);
    AnnotationAlone(rules, v, OUTBOUND_CACHE_TIMEOUT, s);
    AnnotationAlone(rules, v, INBOUND_CACHE_TIMEOUT, s);
  }

  /** The switches that the flags never emit. */
  lemma SwitchesAlone(rules: Rules, v: Values, s: string)
    ensures Applied(rules, v, map[ENABLE_GATEWAY := s]) == match ParseBool(s)
            case Some(b) => v.(flags := v.flags.(gateway := b)) case None => v
    ensures Applied(rules, v, map[DISABLE_OUTBOUND_DETECT := s]) == match ParseBool(s)
            case Some(b) => v.(flags := v.flags.(disableOutboundDetect := b)) case None => v
    ensures Applied(rules, v, map[DISABLE_INBOUND_DETECT := s]) == match ParseBool(s)
            case Some(b) => v.(flags := v.flags.(disableInboundDetect := b)) case None => v
  {
    hide Applied, ParseInt, ParseUint, ParseBool, Policy, SetSwitch, SetIngress;
    AnnotationAlone(rules, v, ENABLE_GATEWAY, s);
    AnnotationAlone(rules, v, DISABLE_OUTBOUND_DETECT, s);
    AnnotationAlone(rules, v, DISABLE_INBOUND_DETECT, s);
  }

  /** The shutdown endpoint is switched by name, and the debug container sets no value. */
  lemma EndpointAlone(rules: Rules, v: Values, s: string)
    ensures Applied(rules, v, map[ADMIN_SHUTDOWN := s]) ==
            if s == "enabled" || s == "disabled" then v.(flags := v.flags.(shutdownEndpoint := s == "enabled")) else v
    ensures Applied(rules, v, map[ENABLE_DEBUG := s]) == v
  {
    hide Applied, ParseInt, ParseUint, ParseBool, Policy, SetBool, SetIngress;
    assert s == "enabled" ==> s[0] == 'e';
    assert s == "disabled" ==> s[0] == 'd';
    AnnotationAlone(rules, v, ADMIN_SHUTDOWN, s);
    AnnotationAlone(rules, v, ENABLE_DEBUG, s);
  }

  /** The texts and quantities that the flags never emit. */
  lemma TextsAlone(rules: Rules, v: Values, s: string)
    ensures Applied(rules, v, map[STORAGE_REQUEST := s]) ==
            if rules.isQuantity(s) then v.(resources := v.resources.(storageRequest := s)) else v
    ensures Applied(rules, v, map[STORAGE_LIMIT := s]) ==
            if rules.isQuantity(s) then v.(resources := v.resources.(storageLimit := s)) else v
    ensures Applied(rules, v, map[POD_INBOUND_PORTS := s]) == v.(lists := v.lists.(podInbound := s))
    ensures Applied(rules, v, map[SKIP_SUBNETS := s]) == v.(lists := v.lists.(skipSubnets := s))
    ensures Applied(rules, v, map[LOG_HTTP_HEADERS := s]) == v.(logging := v.logging.(httpHeaders := s))
    ensures Applied(rules, v, map[DEBUG_PULL_POLICY := s]) == v.(debugImage := v.debugImage.(pullPolicy := s))
  {
    hide Applied, ParseInt, ParseUint, ParseBool;
    AnnotationAlone(rules, v, STORAGE_REQUEST, s);
    AnnotationAlone(rules, v, STORAGE_LIMIT, s);
    AnnotationAlone(rules, v, POD_INBOUND_PORTS, s);
    AnnotationAlone(rules, v, SKIP_SUBNETS, s);
    AnnotationAlone(rules, v, LOG_HTTP_HEADERS, s);
    AnnotationAlone(rules, v, DEBUG_PULL_POLICY, s);
  }

  /* ---------- getOverrideAnnotations ---------- */

  function Differs(target: string, base: string): Option<string> {
    if target != base then Some(target) else None
  }

  function DiffersInt(target: int, base: int): Option<string> {
    if target != base then Some(FormatInt(target)) else None
  }

  function VersionOrPort(a: Annotation, t: Values, b: Values): Option<string> {
    if a == PROXY_VERSION then Differs(t.proxyImage.version, b.proxyImage.version)
    else if a == IGNORE_INBOUND_PORTS then Differs(t.lists.ignoreInbound, b.lists.ignoreInbound)
    else if a == IGNORE_OUTBOUND_PORTS then Differs(t.lists.ignoreOutbound, b.lists.ignoreOutbound)
    else if a == ADMIN_PORT then DiffersInt(t.ports.admin, b.ports.admin)
    else if a == CONTROL_PORT then DiffersInt(t.ports.control, b.ports.control)
    else if a == INBOUND_PORT then DiffersInt(t.ports.inbound, b.ports.inbound)
    else if a == OUTBOUND_PORT then DiffersInt(t.ports.outbound, b.ports.outbound)
    else if a == OPAQUE_PORTS then Differs(t.lists.opaquePorts, b.lists.opaquePorts)
    else None
  }

  function ImageOrUser(a: Annotation, t: Values, b: Values): Option<string> {
    if a == PROXY_IMAGE then Differs(t.proxyImage.name, b.proxyImage.name)
    else if a == INIT_IMAGE then Differs(t.initImage.name, b.initImage.name)
    else if a == DEBUG_IMAGE then Differs(t.debugImage.name, b.debugImage.name)
    else if a == INIT_VERSION then Differs(t.initImage.version, b.initImage.version)
    else if a == DEBUG_VERSION then Differs(t.debugImage.version, b.debugImage.version)
    else if a == PULL_POLICY then Differs(t.proxyImage.pullPolicy, b.proxyImage.pullPolicy)
    else if a == PROXY_UID then DiffersInt(t.access.uid, b.access.uid)
    else if a == PROXY_GID then (if t.access.gid >= 0 && (b.access.gid < 0 || t.access.gid != b.access.gid)
                                   then Some(FormatInt(t.access.gid)) else None)
    else None
  }

  function LoggingOrResource(a: Annotation, t: Values, b: Values): Option<string> {
    if a == LOG_LEVEL then Differs(t.logging.level, b.logging.level)
    else if a == LOG_FORMAT then Differs(t.logging.format, b.logging.format)
    else if a == REQUIRE_IDENTITY then Differs(t.access.requireIdentity, b.access.requireIdentity)
    else if a == EXTERNAL_PROFILES then (if t.flags.externalProfiles != b.flags.externalProfiles
                                           then Some(FormatBool(t.flags.externalProfiles)) else None)
    else if a == INJECT_MODE then (if t.flags.ingress != b.flags.ingress then Some(INGRESS) else None)
    else if a == CPU_REQUEST then Differs(t.resources.cpuRequest, b.resources.cpuRequest)
    else if a == CPU_LIMIT then Differs(t.resources.cpuLimit, b.resources.cpuLimit)
    else if a == MEMORY_REQUEST then Differs(t.resources.memoryRequest, b.resources.memoryRequest)
    else None
  }

  function LimitOrPolicy(a: Annotation, t: Values, b: Values): Option<string> {
    if a == MEMORY_LIMIT then Differs(t.resources.memoryLimit, b.resources.memoryLimit)
    else if a == WAIT_BEFORE_EXIT then (if t.timing.waitBeforeExit != b.timing.waitBeforeExit
                                          then Some(FormatNat(t.timing.waitBeforeExit)) else None)
    else if a == AWAIT_PROXY then (if t.flags.await != b.flags.await
                                     then Some(if t.flags.await then ENABLED else DISABLED) else None)
    else if a == DEFAULT_INBOUND_POLICY then Differs(t.access.inboundPolicy, b.access.inboundPolicy)
    else if a == ACCESS_LOG then Differs(t.logging.access, b.logging.access)
    else if a == SHUTDOWN_GRACE_PERIOD then Differs(t.timing.gracePeriod, b.timing.gracePeriod)
    else if a == NATIVE_SIDECAR then (if t.flags.nativeSidecar != b.flags.nativeSidecar
                                        then Some(FormatBool(t.flags.nativeSidecar)) else None)
    else None
  }

  /** What is emitted under one annotation: the target's value where it differs from the base's. */
  function Emitted(a: Annotation, t: Values, b: Values): Option<string> {
    if a < 8 then VersionOrPort(a, t, b)
    else if a < 16 then ImageOrUser(a, t, b)
    else if a < 24 then LoggingOrResource(a, t, b)
    else LimitOrPolicy(a, t, b)
  }

  ghost predicate IsOverrideOf(ann: Annotations, t: Values, b: Values) {
    forall a :: (a in ann <==> Emitted(a, t, b).Some?) && (a in ann ==> Some(ann[a]) == Emitted(a, t, b))
  }

  /** The entries of the first n keys are in place, and no others. */
  ghost predicate Emits(ann: Annotations, n: nat, t: Values, b: Values) {
    forall a: Annotation ::
      if a as int < n then (a in ann <==> Emitted(a, t, b).Some?) && (a in ann ==> Some(ann[a]) == Emitted(a, t, b))
      else a !in ann
  }

  lemma EmitsNext(before: Annotations, after: Annotations, a: Annotation, t: Values, b: Values)
    requires Emits(before, a as int, t, b)
    requires after == if Emitted(a, t, b).Some? then before[a := Emitted(a, t, b).value] else before
    ensures Emits(after, a as int + 1, t, b)
  {
    hide Emitted;
  }

  lemma EmitsNothing(t: Values, b: Values)
    ensures Emits(map[], 0, t, b)
  {
    hide Emitted;
  }

  lemma EmitsAll(ann: Annotations, t: Values, b: Values)
    requires Emits(ann, EMITTED, t, b)
    ensures IsOverrideOf(ann, t, b)
  {
  }

  method AddVersionAndPorts(t: Values, b: Values, before: Annotations) returns (ann: Annotations)
    requires Emits(before, 0, t, b)
    ensures Emits(ann, 8, t, b)
  {
    hide Emits, FormatInt, FormatNat, FormatBool, ImageOrUser, LoggingOrResource, LimitOrPolicy;
    ann := before;
    ghost var last := ann;
    if t.proxyImage.version != b.proxyImage.version {
      ann := ann[PROXY_VERSION := t.proxyImage.version];
    }
    EmitsNext(last, ann, PROXY_VERSION, t, b);
    last := ann;
    if t.lists.ignoreInbound != b.lists.ignoreInbound {
      ann := ann[IGNORE_INBOUND_PORTS := t.lists.ignoreInbound];
    }
    EmitsNext(last, ann, IGNORE_INBOUND_PORTS, t, b);
    last := ann;
    if t.lists.ignoreOutbound != b.lists.ignoreOutbound {
      ann := ann[IGNORE_OUTBOUND_PORTS := t.lists.ignoreOutbound];
    }
    EmitsNext(last, ann, IGNORE_OUTBOUND_PORTS, t, b);
    last := ann;
    if t.ports.admin != b.ports.admin {
      ann := ann[ADMIN_PORT := FormatInt(t.ports.admin)];
    }
    EmitsNext(last, ann, ADMIN_PORT, t, b);
    last := ann;
    if t.ports.control != b.ports.control {
      ann := ann[CONTROL_PORT := FormatInt(t.ports.control)];
    }
    EmitsNext(last, ann, CONTROL_PORT, t, b);
    last := ann;
    if t.ports.inbound != b.ports.inbound {
      ann := ann[INBOUND_PORT := FormatInt(t.ports.inbound)];
    }
    EmitsNext(last, ann, INBOUND_PORT, t, b);
    last := ann;
    if t.ports.outbound != b.ports.outbound {
      ann := ann[OUTBOUND_PORT := FormatInt(t.ports.outbound)];
    }
    EmitsNext(last, ann, OUTBOUND_PORT, t, b);
    last := ann;
    if t.lists.opaquePorts != b.lists.opaquePorts {
      ann := ann[OPAQUE_PORTS := t.lists.opaquePorts];
    }
    EmitsNext(last, ann, OPAQUE_PORTS, t, b);
  }

  method AddImagesAndUsers(t: Values, b: Values, before: Annotations) returns (ann: Annotations)
    requires Emits(before, 8, t, b)
    ensures Emits(ann, 16, t, b)
  {
    hide Emits, FormatInt, FormatNat, FormatBool, VersionOrPort, LoggingOrResource, LimitOrPolicy;
    ann := before;
    ghost var last := ann;
    if t.proxyImage.name != b.proxyImage.name {
      ann := ann[PROXY_IMAGE := t.proxyImage.name];
    }
    EmitsNext(last, ann, PROXY_IMAGE, t, b);
    last := ann;
    if t.initImage.name != b.initImage.name {
      ann := ann[INIT_IMAGE := t.initImage.name];
    }
    EmitsNext(last, ann, INIT_IMAGE, t, b);
    last := ann;
    if t.debugImage.name != b.debugImage.name {
      ann := ann[DEBUG_IMAGE := t.debugImage.name];
    }
    EmitsNext(last, ann, DEBUG_IMAGE, t, b);
    last := ann;
    if t.initImage.version != b.initImage.version {
      ann := ann[INIT_VERSION := t.initImage.version];
    }
    EmitsNext(last, ann, INIT_VERSION, t, b);
    last := ann;
    if t.debugImage.version != b.debugImage.version {
      ann := ann[DEBUG_VERSION := t.debugImage.version];
    }
    EmitsNext(last, ann, DEBUG_VERSION, t, b);
    last := ann;
    if t.proxyImage.pullPolicy != b.proxyImage.pullPolicy {
      ann := ann[PULL_POLICY := t.proxyImage.pullPolicy];
    }
    EmitsNext(last, ann, PULL_POLICY, t, b);
    last := ann;
    if t.access.uid != b.access.uid {
      ann := ann[PROXY_UID := FormatInt(t.access.uid)];
    }
    EmitsNext(last, ann, PROXY_UID, t, b);
    last := ann;
    if t.access.gid >= 0 && (b.access.gid < 0 || t.access.gid != b.access.gid) {
      ann := ann[PROXY_GID := FormatInt(t.access.gid)];
    }
    EmitsNext(last, ann, PROXY_GID, t, b);
  }

  method AddLoggingAndResources(t: Values, b: Values, before: Annotations) returns (ann: Annotations)
    requires Emits(before, 16, t, b)
    ensures Emits(ann, 24, t, b)
  {
    hide Emits, FormatInt, FormatNat, FormatBool, VersionOrPort, ImageOrUser, LimitOrPolicy;
    ann := before;
    ghost var last := ann;
    if t.logging.level != b.logging.level {
      ann := ann[LOG_LEVEL := t.logging.level];
    }
    EmitsNext(last, ann, LOG_LEVEL, t, b);
    last := ann;
    if t.logging.format != b.logging.format {
      ann := ann[LOG_FORMAT := t.logging.format];
    }
    EmitsNext(last, ann, LOG_FORMAT, t, b);
    last := ann;
    if t.access.requireIdentity != b.access.requireIdentity {
      ann := ann[REQUIRE_IDENTITY := t.access.requireIdentity];
    }
    EmitsNext(last, ann, REQUIRE_IDENTITY, t, b);
    last := ann;
    if t.flags.externalProfiles != b.flags.externalProfiles {
      ann := ann[EXTERNAL_PROFILES := FormatBool(t.flags.externalProfiles)];
    }
    EmitsNext(last, ann, EXTERNAL_PROFILES, t, b);
    last := ann;
    if t.flags.ingress != b.flags.ingress {
      ann := ann[INJECT_MODE := INGRESS];
    }
    EmitsNext(last, ann, INJECT_MODE, t, b);
    last := ann;
    if t.resources.cpuRequest != b.resources.cpuRequest {
      ann := ann[CPU_REQUEST := t.resources.cpuRequest];
    }
    EmitsNext(last, ann, CPU_REQUEST, t, b);
    last := ann;
    if t.resources.cpuLimit != b.resources.cpuLimit {
      ann := ann[CPU_LIMIT := t.resources.cpuLimit];
    }
    EmitsNext(last, ann, CPU_LIMIT, t, b);
    last := ann;
    if t.resources.memoryRequest != b.resources.memoryRequest {
      ann := ann[MEMORY_REQUEST := t.resources.memoryRequest];
    }
    EmitsNext(last, ann, MEMORY_REQUEST, t, b);
  }

  method AddLimitsAndPolicy(t: Values, b: Values, before: Annotations) returns (ann: Annotations)
    requires Emits(before, 24, t, b)
    ensures Emits(ann, 31, t, b)
  {
    hide Emits, FormatInt, FormatNat, FormatBool, VersionOrPort, ImageOrUser, LoggingOrResource;
    ann := before;
    ghost var last := ann;
    if t.resources.memoryLimit != b.resources.memoryLimit {
      ann := ann[MEMORY_LIMIT := t.resources.memoryLimit];
    }
    EmitsNext(last, ann, MEMORY_LIMIT, t, b);
    last := ann;
    if t.timing.waitBeforeExit != b.timing.waitBeforeExit {
      ann := ann[WAIT_BEFORE_EXIT := FormatNat(t.timing.waitBeforeExit)];
    }
    EmitsNext(last, ann, WAIT_BEFORE_EXIT, t, b);
    last := ann;
    if t.flags.await != b.flags.await {
      if t.flags.await {
        ann := ann[AWAIT_PROXY := ENABLED];
      } else {
        ann := ann[AWAIT_PROXY := DISABLED];
      }
    }
    EmitsNext(last, ann, AWAIT_PROXY, t, b);
    last := ann;
    if t.access.inboundPolicy != b.access.inboundPolicy {
      ann := ann[DEFAULT_INBOUND_POLICY := t.access.inboundPolicy];
    }
    EmitsNext(last, ann, DEFAULT_INBOUND_POLICY, t, b);
    last := ann;
    if t.logging.access != b.logging.access {
      ann := ann[ACCESS_LOG := t.logging.access];
    }
    EmitsNext(last, ann, ACCESS_LOG, t, b);
    last := ann;
    if t.timing.gracePeriod != b.timing.gracePeriod {
      ann := ann[SHUTDOWN_GRACE_PERIOD := t.timing.gracePeriod];
    }
    EmitsNext(last, ann, SHUTDOWN_GRACE_PERIOD, t, b);
    last := ann;
    if t.flags.nativeSidecar != b.flags.nativeSidecar {
      ann := ann[NATIVE_SIDECAR := FormatBool(t.flags.nativeSidecar)];
    }
    EmitsNext(last, ann, NATIVE_SIDECAR, t, b);
  }

  method GetOverrideAnnotations(t: Values, b: Values) returns (ann: Annotations)
    ensures IsOverrideOf(ann, t, b)
  {
    hide Emitted, Emits, IsOverrideOf;
    EmitsNothing(t, b);
    ann := map[];
    ann := AddVersionAndPorts(t, b, ann);
    ann := AddImagesAndUsers(t, b, ann);
    ann := AddLoggingAndResources(t, b, ann);
    ann := AddLimitsAndPolicy(t, b, ann);
    EmitsAll(ann, t, b);
  }

  method ApplyImages(proxy: Image, init: Image, debug: Image, ann: Annotations) returns (p: Image, i: Image, d: Image)
    ensures p == Image(TextOr(ann, PROXY_IMAGE, proxy.name), TextOr(ann, PROXY_VERSION, proxy.version),
                       TextOr(ann, PULL_POLICY, proxy.pullPolicy))
    ensures i == Image(TextOr(ann, INIT_IMAGE, init.name), TextOr(ann, INIT_VERSION, init.version),
                       TextOr(ann, PULL_POLICY, init.pullPolicy))
    ensures d == Image(TextOr(ann, DEBUG_IMAGE, debug.name), TextOr(ann, DEBUG_VERSION, debug.version),
                       TextOr(ann, DEBUG_PULL_POLICY, debug.pullPolicy))
  {
    p, i, d := proxy, init, debug;
    if PROXY_IMAGE in ann {
      p := p.(name := ann[PROXY_IMAGE]);
    }
    if PROXY_VERSION in ann {
      p := p.(version := ann[PROXY_VERSION]);
    }
    if PULL_POLICY in ann {
      p := p.(pullPolicy := ann[PULL_POLICY]);
    }
    if INIT_VERSION in ann {
      i := i.(version := ann[INIT_VERSION]);
    }
    if INIT_IMAGE in ann {
      i := i.(name := ann[INIT_IMAGE]);
    }
    if PULL_POLICY in ann {
      i := i.(pullPolicy := ann[PULL_POLICY]);
    }
    if DEBUG_IMAGE in ann {
      d := d.(name := ann[DEBUG_IMAGE]);
    }
    if DEBUG_VERSION in ann {
      d := d.(version := ann[DEBUG_VERSION]);
    }
    if DEBUG_PULL_POLICY in ann {
      d := d.(pullPolicy := ann[DEBUG_PULL_POLICY]);
    }
  }

  method ReadQuantity(rules: Rules, ann: Annotations, a: Annotation, base: string) returns (r: string)
    ensures r == QuantityOr(rules, ann, a, base)
  {
    r := base;
    if a in ann {
      if rules.isQuantity(ann[a]) {
        r := ann[a];
      }
    }
  }

  method ReadBool(ann: Annotations, a: Annotation, base: bool) returns (r: bool)
    ensures r == BoolOr(ann, a, base)
  {
    r := base;
    if a in ann {
      var value := ParseBool(ann[a]);
      if value.Some? {
        r := value.value;
      }
    }
  }

  method ReadSwitch(ann: Annotations, a: Annotation, base: bool) returns (r: bool)
    ensures r == EnabledOr(ann, a, base)
  {
    r := base;
    if a in ann {
      if ann[a] == ENABLED || ann[a] == DISABLED {
        r := ann[a] == ENABLED;
      }
    }
  }

  method ReadDuration(ann: Annotations, a: Annotation, normal: string -> Option<string>, base: string)
    returns (r: string)
    ensures r == NormalOr(ann, a, normal, base)
  {
    r := base;
    if a in ann {
      var duration := normal(ann[a]);
      if duration.Some? {
        r := duration.value;
      }
    }
  }

  /** A valid CPU limit also sets the number of cores. */
  method ApplyResources(rules: Rules, base: Resources, ann: Annotations) returns (r: Resources)
    ensures r == AppliedResources(rules, base, ann)
  {
    var cpuRequest := ReadQuantity(rules, ann, CPU_REQUEST, base.cpuRequest);
    var memoryRequest := ReadQuantity(rules, ann, MEMORY_REQUEST, base.memoryRequest);
    var storageRequest := ReadQuantity(rules, ann, STORAGE_REQUEST, base.storageRequest);
    var cpuLimit, cores := base.cpuLimit, base.cores;
    if CPU_LIMIT in ann && rules.isQuantity(ann[CPU_LIMIT]) {
      cpuLimit := ann[CPU_LIMIT];
      cores := rules.wholeCores(cpuLimit);
    }
    var memoryLimit := ReadQuantity(rules, ann, MEMORY_LIMIT, base.memoryLimit);
    var storageLimit := ReadQuantity(rules, ann, STORAGE_LIMIT, base.storageLimit);
    r := Resources(cpuRequest, cpuLimit, memoryRequest, memoryLimit, storageRequest, storageLimit, cores);
  }

  /** Ingress mode can only be switched on. */
  method ApplyFlags(base: Flags, ann: Annotations) returns (r: Flags)
    ensures r == AppliedFlags(base, ann)
  {
    hide BoolOr, EnabledOr;
    var ingress := base.ingress;
    if INJECT_MODE in ann {
      if ann[INJECT_MODE] == INGRESS {
        ingress := true;
      }
    }
    var shutdownEndpoint := ReadSwitch(ann, ADMIN_SHUTDOWN, base.shutdownEndpoint);
    var disableOutboundDetect := ReadBool(ann, DISABLE_OUTBOUND_DETECT, base.disableOutboundDetect);
    var disableInboundDetect := ReadBool(ann, DISABLE_INBOUND_DETECT, base.disableInboundDetect);
    var gateway := ReadBool(ann, ENABLE_GATEWAY, base.gateway);
    var nativeSidecar := ReadBool(ann, NATIVE_SIDECAR, base.nativeSidecar);
    var externalProfiles := ReadBool(ann, EXTERNAL_PROFILES, base.externalProfiles);
    var await := ReadSwitch(ann, AWAIT_PROXY, base.await);
    r := Flags(ingress, gateway, externalProfiles, nativeSidecar, await, shutdownEndpoint, disableOutboundDetect,
               disableInboundDetect);
  }

  method ApplyTiming(rules: Rules, base: Timing, ann: Annotations) returns (r: Timing)
    ensures r == AppliedTiming(rules, base, ann)
  {
    hide NormalOr;
    var outboundConnect := ReadDuration(ann, OUTBOUND_CONNECT_TIMEOUT, rules.millis, base.outboundConnect);
    var inboundConnect := ReadDuration(ann, INBOUND_CONNECT_TIMEOUT, rules.millis, base.inboundConnect);
    var outboundCache := ReadDuration(ann, OUTBOUND_CACHE_TIMEOUT, rules.seconds, base.outboundCache);
    var inboundCache := ReadDuration(ann, INBOUND_CACHE_TIMEOUT, rules.seconds, base.inboundCache);
    var gracePeriod := ReadDuration(ann, SHUTDOWN_GRACE_PERIOD, rules.millis, base.gracePeriod);
    var waitBeforeExit := base.waitBeforeExit;
    if WAIT_BEFORE_EXIT in ann {
      var seconds := ParseUint(ann[WAIT_BEFORE_EXIT], FULL_64);
      if seconds.Some? {
        waitBeforeExit := seconds.value;
      }
    }
    r := Timing(waitBeforeExit, gracePeriod, outboundConnect, inboundConnect, outboundCache, inboundCache);
  }

  /** applyAnnotationOverrides on a copy of the values. */
  method ApplyAnnotationOverrides(rules: Rules, values: Values, ann: Annotations) returns (r: Values)
    ensures r == Applied(rules, values, ann)
  {
    hide ParseInt, ParseUint, ParseBool, AppliedResources, AppliedFlags, AppliedTiming, IsPolicy;
    var proxy, init, debug := ApplyImages(values.proxyImage, values.initImage, values.debugImage, ann);
    var ports := Ports(Int32Or(ann, ADMIN_PORT, values.ports.admin), Int32Or(ann, CONTROL_PORT, values.ports.control),
                       Int32Or(ann, INBOUND_PORT, values.ports.inbound),
                       Int32Or(ann, OUTBOUND_PORT, values.ports.outbound));
    var lists := values.lists;
    if POD_INBOUND_PORTS in ann {
      lists := lists.(podInbound := ann[POD_INBOUND_PORTS]);
    }
    if IGNORE_INBOUND_PORTS in ann {
      lists := lists.(ignoreInbound := ann[IGNORE_INBOUND_PORTS]);
    }
    if IGNORE_OUTBOUND_PORTS in ann {
      lists := lists.(ignoreOutbound := ann[IGNORE_OUTBOUND_PORTS]);
    }
    if OPAQUE_PORTS in ann {
      lists := lists.(opaquePorts := rules.normalPorts(ann[OPAQUE_PORTS]));
    }
    if SKIP_SUBNETS in ann {
      lists := lists.(skipSubnets := ann[SKIP_SUBNETS]);
    }
    var resources := ApplyResources(rules, values.resources, ann);
    var logging := Logging(TextOr(ann, LOG_LEVEL, values.logging.level), TextOr(ann, LOG_FORMAT, values.logging.format),
                           TextOr(ann, LOG_HTTP_HEADERS, values.logging.httpHeaders),
                           TextOr(ann, ACCESS_LOG, values.logging.access));
    var flags := ApplyFlags(values.flags, ann);
    var timing := ApplyTiming(rules, values.timing, ann);
    var access := Access(Int64Or(ann, PROXY_UID, values.access.uid), Int64Or(ann, PROXY_GID, values.access.gid),
                         TextOr(ann, REQUIRE_IDENTITY, values.access.requireIdentity), values.access.inboundPolicy);
    if DEFAULT_INBOUND_POLICY in ann && IsPolicy(ann[DEFAULT_INBOUND_POLICY]) {
      access := access.(inboundPolicy := ann[DEFAULT_INBOUND_POLICY]);
    }
    r := Values(proxy, init, debug, ports, lists, resources, logging, flags, timing, access);
  }

  /* ---------- the round trip ---------- */

  predicate QuantityFits(rules: Rules, target: string, base: string) {
    target == base || rules.isQuantity(target)
  }

  /** What the flags can express: ingress mode cannot be switched off nor a group ID made negative, and a
      changed quantity, policy, port list or duration must be valid and in normal form. */
  predicate Expressible(rules: Rules, t: Values, b: Values) {
    && (t.flags.ingress || !b.flags.ingress)
    && (t.access.gid >= 0 || t.access.gid == b.access.gid)
    && (t.access.inboundPolicy == b.access.inboundPolicy || IsPolicy(t.access.inboundPolicy))
    && QuantitiesFit(rules, t.resources, b.resources)
    && (t.lists.opaquePorts == b.lists.opaquePorts || rules.normalPorts(t.lists.opaquePorts) == t.lists.opaquePorts)
    && (t.timing.gracePeriod == b.timing.gracePeriod
        || rules.millis(t.timing.gracePeriod) == Some(t.timing.gracePeriod))
  }

  predicate QuantitiesFit(rules: Rules, t: Resources, b: Resources) {
    && QuantityFits(rules, t.cpuRequest, b.cpuRequest) && QuantityFits(rules, t.cpuLimit, b.cpuLimit)
    && QuantityFits(rules, t.memoryRequest, b.memoryRequest) && QuantityFits(rules, t.memoryLimit, b.memoryLimit)
  }

  /** The target where the flags reach, the base elsewhere; the init container's pull policy follows the
      proxy's, and the cores follow the CPU limit. */
  function Restored(rules: Rules, t: Values, b: Values): Values {
    Values(
      t.proxyImage,
      Image(t.initImage.name, t.initImage.version,
            if t.proxyImage.pullPolicy != b.proxyImage.pullPolicy then t.proxyImage.pullPolicy
            else b.initImage.pullPolicy),
      Image(t.debugImage.name, t.debugImage.version, b.debugImage.pullPolicy),
      t.ports,
      PortLists(t.lists.opaquePorts, b.lists.podInbound, t.lists.ignoreInbound, t.lists.ignoreOutbound,
                b.lists.skipSubnets),
      RestoredResources(rules, t.resources, b.resources),
      Logging(t.logging.level, t.logging.format, b.logging.httpHeaders, t.logging.access),
      Flags(t.flags.ingress, b.flags.gateway, t.flags.externalProfiles, t.flags.nativeSidecar, t.flags.await,
            b.flags.shutdownEndpoint, b.flags.disableOutboundDetect, b.flags.disableInboundDetect),
      Timing(t.timing.waitBeforeExit, t.timing.gracePeriod, b.timing.outboundConnect, b.timing.inboundConnect,
             b.timing.outboundCache, b.timing.inboundCache),
      t.access)
  }

  function RestoredResources(rules: Rules, t: Resources, b: Resources): Resources {
    Resources(t.cpuRequest, t.cpuLimit, t.memoryRequest, t.memoryLimit, b.storageRequest, b.storageLimit,
              if t.cpuLimit != b.cpuLimit then rules.wholeCores(t.cpuLimit) else b.cores)
  }

  /** What an override holds under one key. */
  lemma HoldsAt(ann: Annotations, t: Values, b: Values, a: Annotation)
    requires IsOverrideOf(ann, t, b)
    ensures if Emitted(a, t, b).Some? then a in ann && ann[a] == Emitted(a, t, b).value else a !in ann
  {
    hide Emitted;
  }

  lemma ImagesRestored(t: Values, b: Values, ann: Annotations)
    requires IsOverrideOf(ann, t, b)
    ensures TextOr(ann, PROXY_IMAGE, b.proxyImage.name) == t.proxyImage.name
    ensures TextOr(ann, PROXY_VERSION, b.proxyImage.version) == t.proxyImage.version
    ensures TextOr(ann, PULL_POLICY, b.proxyImage.pullPolicy) == t.proxyImage.pullPolicy
    ensures TextOr(ann, INIT_IMAGE, b.initImage.name) == t.initImage.name
    ensures TextOr(ann, INIT_VERSION, b.initImage.version) == t.initImage.version
    ensures TextOr(ann, PULL_POLICY, b.initImage.pullPolicy) ==
              if t.proxyImage.pullPolicy != b.proxyImage.pullPolicy then t.proxyImage.pullPolicy
              else b.initImage.pullPolicy
    ensures TextOr(ann, DEBUG_IMAGE, b.debugImage.name) == t.debugImage.name
    ensures TextOr(ann, DEBUG_VERSION, b.debugImage.version) == t.debugImage.version
    ensures TextOr(ann, DEBUG_PULL_POLICY, b.debugImage.pullPolicy) == b.debugImage.pullPolicy
  {
    hide IsOverrideOf, FormatInt, FormatNat, FormatBool;
    HoldsAt(ann, t, b, PROXY_IMAGE);
    HoldsAt(ann, t, b, PROXY_VERSION);
    HoldsAt(ann, t, b, PULL_POLICY);
    HoldsAt(ann, t, b, INIT_IMAGE);
    HoldsAt(ann, t, b, INIT_VERSION);
    HoldsAt(ann, t, b, DEBUG_IMAGE);
    HoldsAt(ann, t, b, DEBUG_VERSION);
    HoldsAt(ann, t, b, DEBUG_PULL_POLICY);
  }

  lemma PortsRestored(t: Values, b: Values, ann: Annotations)
    requires IsOverrideOf(ann, t, b)
    ensures Int32Or(ann, ADMIN_PORT, b.ports.admin) == t.ports.admin
    ensures Int32Or(ann, CONTROL_PORT, b.ports.control) == t.ports.control
    ensures Int32Or(ann, INBOUND_PORT, b.ports.inbound) == t.ports.inbound
    ensures Int32Or(ann, OUTBOUND_PORT, b.ports.outbound) == t.ports.outbound
  {
    hide IsOverrideOf, FormatInt, FormatNat, FormatBool, ParseInt;
    HoldsAt(ann, t, b, ADMIN_PORT);
    HoldsAt(ann, t, b, CONTROL_PORT);
    HoldsAt(ann, t, b, INBOUND_PORT);
    HoldsAt(ann, t, b, OUTBOUND_PORT);
    ParseOfFormatInt(t.ports.admin, HALF_32);
    ParseOfFormatInt(t.ports.control, HALF_32);
    ParseOfFormatInt(t.ports.inbound, HALF_32);
    ParseOfFormatInt(t.ports.outbound, HALF_32);
  }

  lemma ListsRestored(rules: Rules, t: Values, b: Values, ann: Annotations)
    requires IsOverrideOf(ann, t, b)
    ensures AppliedLists(rules, b.lists, ann) == Restored(rules, t, b).lists <==>
              t.lists.opaquePorts == b.lists.opaquePorts
              || rules.normalPorts(t.lists.opaquePorts) == t.lists.opaquePorts
  {
    hide IsOverrideOf, FormatInt, FormatNat, FormatBool;
    HoldsAt(ann, t, b, OPAQUE_PORTS);
    HoldsAt(ann, t, b, POD_INBOUND_PORTS);
    HoldsAt(ann, t, b, IGNORE_INBOUND_PORTS);
    HoldsAt(ann, t, b, IGNORE_OUTBOUND_PORTS);
    HoldsAt(ann, t, b, SKIP_SUBNETS);
  }

  lemma ResourcesRestored(rules: Rules, t: Values, b: Values, ann: Annotations)
    requires IsOverrideOf(ann, t, b)
    ensures AppliedResources(rules, b.resources, ann) == RestoredResources(rules, t.resources, b.resources)
            <==> QuantitiesFit(rules, t.resources, b.resources)
  {
    hide IsOverrideOf, FormatInt, FormatNat, FormatBool;
    HoldsAt(ann, t, b, CPU_REQUEST);
    HoldsAt(ann, t, b, CPU_LIMIT);
    HoldsAt(ann, t, b, MEMORY_REQUEST);
    HoldsAt(ann, t, b, MEMORY_LIMIT);
    HoldsAt(ann, t, b, STORAGE_REQUEST);
    HoldsAt(ann, t, b, STORAGE_LIMIT);
  }

  lemma LoggingRestored(rules: Rules, t: Values, b: Values, ann: Annotations)
    requires IsOverrideOf(ann, t, b)
    ensures Applied(rules, b, ann).logging == Restored(rules, t, b).logging
  {
    hide IsOverrideOf, FormatInt, FormatNat, FormatBool, AppliedLists, AppliedResources, AppliedFlags, AppliedTiming;
    hide AppliedAccess;
    HoldsAt(ann, t, b, LOG_LEVEL);
    HoldsAt(ann, t, b, LOG_FORMAT);
    HoldsAt(ann, t, b, LOG_HTTP_HEADERS);
    HoldsAt(ann, t, b, ACCESS_LOG);
  }

  lemma ParseOfFormatBool(b: bool)
    ensures ParseBool(FormatBool(b)) == Some(b)
  {
  }

  lemma FlagsRestored(rules: Rules, t: Values, b: Values, ann: Annotations)
    requires IsOverrideOf(ann, t, b)
    ensures AppliedFlags(b.flags, ann) == Restored(rules, t, b).flags <==> (t.flags.ingress || !b.flags.ingress)
  {
    hide IsOverrideOf, FormatInt, FormatNat, FormatBool, ParseBool;
    HoldsAt(ann, t, b, INJECT_MODE);
    HoldsAt(ann, t, b, ENABLE_GATEWAY);
    HoldsAt(ann, t, b, EXTERNAL_PROFILES);
    HoldsAt(ann, t, b, NATIVE_SIDECAR);
    HoldsAt(ann, t, b, AWAIT_PROXY);
    HoldsAt(ann, t, b, ADMIN_SHUTDOWN);
    HoldsAt(ann, t, b, DISABLE_OUTBOUND_DETECT);
    HoldsAt(ann, t, b, DISABLE_INBOUND_DETECT);
    ParseOfFormatBool(t.flags.externalProfiles);
    ParseOfFormatBool(t.flags.nativeSidecar);
    SwitchNamesDiffer();
  }

  lemma SwitchNamesDiffer()
    ensures ENABLED != DISABLED
  {
    assert ENABLED[0] != DISABLED[0];
  }

  lemma TimingRestored(rules: Rules, t: Values, b: Values, ann: Annotations)
    requires IsOverrideOf(ann, t, b)
    ensures AppliedTiming(rules, b.timing, ann) == Restored(rules, t, b).timing <==>
              t.timing.gracePeriod == b.timing.gracePeriod
              || rules.millis(t.timing.gracePeriod) == Some(t.timing.gracePeriod)
  {
    hide IsOverrideOf, FormatInt, FormatNat, FormatBool, ParseUint;
    HoldsAt(ann, t, b, WAIT_BEFORE_EXIT);
    HoldsAt(ann, t, b, SHUTDOWN_GRACE_PERIOD);
    HoldsAt(ann, t, b, OUTBOUND_CONNECT_TIMEOUT);
    HoldsAt(ann, t, b, INBOUND_CONNECT_TIMEOUT);
    HoldsAt(ann, t, b, OUTBOUND_CACHE_TIMEOUT);
    HoldsAt(ann, t, b, INBOUND_CACHE_TIMEOUT);
    ParseOfFormatUint(t.timing.waitBeforeExit, FULL_64);
  }

  lemma AccessRestored(rules: Rules, t: Values, b: Values, ann: Annotations)
    requires IsOverrideOf(ann, t, b)
    ensures AppliedAccess(b.access, ann) == t.access <==>
              && (t.access.gid >= 0 || t.access.gid == b.access.gid)
              && (t.access.inboundPolicy == b.access.inboundPolicy || IsPolicy(t.access.inboundPolicy))
  {
    hide IsOverrideOf, FormatInt, FormatNat, FormatBool, ParseInt, IsPolicy;
    HoldsAt(ann, t, b, PROXY_UID);
    HoldsAt(ann, t, b, PROXY_GID);
    HoldsAt(ann, t, b, REQUIRE_IDENTITY);
    HoldsAt(ann, t, b, DEFAULT_INBOUND_POLICY);
    ParseOfFormatInt(t.access.uid, HALF_64);
    ParseOfFormatInt(t.access.gid, HALF_64);
  }

  /** Applying to the base the annotations that the flags emit restores the target, field by field, exactly
      when the flags can express it. */
  lemma FlagRoundTrip(rules: Rules, t: Values, b: Values, ann: Annotations)
    requires IsOverrideOf(ann, t, b)
    ensures Applied(rules, b, ann) == Restored(rules, t, b) <==> Expressible(rules, t, b)
  {
    hide IsOverrideOf, TextOr, Int32Or, AppliedLists, AppliedResources, AppliedFlags, AppliedTiming, AppliedAccess;
    hide RestoredResources, QuantitiesFit, IsPolicy;
    ImagesRestored(t, b, ann);
    PortsRestored(t, b, ann);
    ListsRestored(rules, t, b, ann);
    ResourcesRestored(rules, t, b, ann);
    LoggingRestored(rules, t, b, ann);
    FlagsRestored(rules, t, b, ann);
    TimingRestored(rules, t, b, ann);
    AccessRestored(rules, t, b, ann);
  }

  /* ---------- layering ---------- */

  const PROXY_ANNOTATIONS: seq<Annotation> :=
    [ADMIN_PORT, CONTROL_PORT, ENABLE_DEBUG, EXTERNAL_PROFILES, PULL_POLICY, INBOUND_PORT, INIT_IMAGE] +
    [INIT_VERSION, OUTBOUND_PORT, POD_INBOUND_PORTS, CPU_LIMIT, CPU_REQUEST, PROXY_IMAGE, ADMIN_SHUTDOWN] +
    [LOG_FORMAT, LOG_LEVEL, LOG_HTTP_HEADERS, MEMORY_LIMIT, MEMORY_REQUEST, STORAGE_LIMIT, STORAGE_REQUEST] +
    [PROXY_UID, PROXY_GID, PROXY_VERSION, REQUIRE_IDENTITY, IGNORE_INBOUND_PORTS, OPAQUE_PORTS] +
    [IGNORE_OUTBOUND_PORTS, OUTBOUND_CONNECT_TIMEOUT, INBOUND_CONNECT_TIMEOUT, AWAIT_PROXY] +
    [DEFAULT_INBOUND_POLICY, SKIP_SUBNETS, ACCESS_LOG, SHUTDOWN_GRACE_PERIOD, OUTBOUND_CACHE_TIMEOUT] +
    [INBOUND_CACHE_TIMEOUT, DISABLE_OUTBOUND_DETECT, DISABLE_INBOUND_DETECT]

  const ALPHA_ANNOTATIONS: seq<Annotation> := [WAIT_BEFORE_EXIT, NATIVE_SIDECAR]

  /** The keys a pod can inherit from its namespace. */
  predicate Inheritable(a: Annotation) {
    a in PROXY_ANNOTATIONS + ALPHA_ANNOTATIONS + [INJECT_MODE]
  }

  /** A pod inherits every setting but those of the debug container's image and of the gateway. */
  lemma InheritanceIsExact(a: Annotation)
    ensures Inheritable(a) <==> a !in {DEBUG_IMAGE, DEBUG_VERSION, DEBUG_PULL_POLICY, ENABLE_GATEWAY}
  {
  }

  /** A value is inherited only where the workload has none of its own. */
  method AppendNamespaceAnnotations(base: Annotations, ns: Annotations, workload: Annotations) returns (r: Annotations)
    ensures forall a :: if Inheritable(a) && a in ns && a !in workload then a in r && r[a] == ns[a]
                        else (a in r <==> a in base) && (a in base ==> r[a] == base[a])
  {
    hide PROXY_ANNOTATIONS;
    var keys := PROXY_ANNOTATIONS + ALPHA_ANNOTATIONS + [INJECT_MODE];
    r := base;
    for i := 0 to |keys|
      invariant forall a :: if a in keys[..i] && a in ns && a !in workload then a in r && r[a] == ns[a]
                            else (a in r <==> a in base) && (a in base ==> r[a] == base[a])
    {
      assert keys[..i + 1] == keys[..i] + [keys[i]];
      if keys[i] !in ns {
        continue;
      }
      if keys[i] !in workload {
        r := r[keys[i] := ns[keys[i]]];
      }
    }
    assert keys[..|keys|] == keys;
  }

  /** Outside the CLI an annotation appended to the pod wins over the one it came with; the CLI sees only the latter. */
  method GetAnnotationOverrides(meta: Annotations, pod: Annotations, fromCLI: bool) returns (r: Annotations)
    ensures forall a :: a in r <==> a in meta || (!fromCLI && a in pod)
    ensures forall a :: a in r ==> r[a] == if !fromCLI && a in pod then pod[a] else meta[a]
  {
    r := map[];
    var keys := meta.Keys;
    while keys != {}
      invariant keys <= meta.Keys
      invariant forall a :: a in r <==> a in meta && a !in keys
      invariant forall a :: a in r ==> r[a] == meta[a]
    {
      var k :| k in keys;
      r := r[k := meta[k]];
      keys := keys - {k};
    }
    if !fromCLI {
      keys := pod.Keys;
      while keys != {}
        invariant keys <= pod.Keys
        invariant forall a :: a in r <==> a in meta || (a in pod && a !in keys)
        invariant forall a :: a in r ==> r[a] == if a in pod && a !in keys then pod[a] else meta[a]
      {
        var k :| k in keys;
        r := r[k := pod[k]];
        keys := keys - {k};
      }
    }
  }

  /** Workload first, then namespace, then nothing. */
  function Resolved(a: Annotation, workload: Annotations, ns: Annotations): Option<string> {
    if a in workload then Some(workload[a])
    else if Inheritable(a) && a in ns then Some(ns[a])
    else None
  }

  /** For an injected pod every setting is the workload's own, else the namespace's, else the default. */
  method OverridesOfPod(rules: Rules, defaults: Values, ns: Annotations, workload: Annotations)
    returns (overrides: Annotations, values: Values)
    ensures forall a :: match Resolved(a, workload, ns)
                        case Some(value) => a in overrides && overrides[a] == value
                        case None => a !in overrides
    ensures forall a :: a in overrides <==> a in workload || (a in ns && Inheritable(a))
    ensures forall a :: a in overrides ==> overrides[a] == if a in workload then workload[a] else ns[a]
    ensures values == Applied(rules, defaults, overrides)
  {
    hide Applied, Inheritable;
    var inherited := AppendNamespaceAnnotations(map[], ns, workload);
    overrides := GetAnnotationOverrides(workload, inherited, false);
    values := ApplyAnnotationOverrides(rules, defaults, overrides);
  }
}
