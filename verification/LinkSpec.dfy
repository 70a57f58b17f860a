// Share links (internal/link): an outbound written as a link's parameters, and
// the parameters read back (share.go, parse.go, xhttp.go). Parameters are
// decoded values; URL and JSON text are below this level.

module LinkSpec {
  import opened Wrappers
  import opened Sequences
  import opened Text
  import opened LinkText

  // ----------------------------------------------------------------- outbounds

  datatype Json = Scalar(shown: string) | Object(fields: map<string, Json>) | Items(items: seq<Json>)

  datatype Reality = Reality(enabled: bool, publicKey: string, shortId: string)
  datatype Utls = Utls(enabled: bool, fingerprint: string)
  datatype Tls = Tls(
    enabled: bool, serverName: string, alpn: seq<string>, utls: Option<Utls>, reality: Option<Reality>, insecure: bool)

  /** rest: an XHTTP transport's settings other than host, path and mode. */
  datatype Transport =
    | Ws(path: string, header: Option<string>, earlyData: int, earlyHeader: string)
    | Grpc(service: string)
    | Http(hosts: seq<string>, path: string)
    | Upgrade(host: string, path: string)
    | Quic
    | Xhttp(host: string, path: string, mode: string, rest: map<string, Json>)
    | Unknown(kind: string)

  datatype Vless = Vless(
    server: string, port: int, uuid: string, packetEncoding: string,
    tls: Option<Tls>, flow: string, encryption: string, transport: Option<Transport>)

  datatype Trojan = Trojan(server: string, port: int, password: string, tls: Option<Tls>, transport: Option<Transport>)

  // ---------------------------------------------------------------- parameters

  /** Other spellings the readers accept. */
  datatype Aliases = Aliases(
    peer: string, servername: string, serverUnderName: string,
    fingerprint: string, clientFingerprint: string, clientUnderFingerprint: string,
    publicDashKey: string, publicUnderKey: string, shortDashId: string, shortUnderId: string,
    insecure: string, allowUnderInsecure: string, skipCertVerify: string,
    serviceUnderName: string, serviceDashName: string, grpcServiceName: string,
    packetEncoding: string, packetUnderEncoding: string, xPadding: string, xPaddingLower: string)

  const NO_ALIASES := Aliases("", "", "", "", "", "", "", "", "", "", "", "", "", "", "", "", "", "", "", "")

  /**
   * A link's parameters: "" when a name is not given. kind is "type"; extra is
   * the decoded object of that name, when it is one.
   */
  datatype Query = Query(
    encryption: string, flow: string, security: string, kind: string, path: string, host: string, mode: string,
    sni: string, alpn: string, fp: string, pbk: string, sid: string, allowInsecure: string, serviceName: string,
    other: Aliases, extra: Option<map<string, Json>>)

  const EMPTY := Query("", "", "", "", "", "", "", "", "", "", "", "", "", "", NO_ALIASES, None)

  /** A link taken apart: scheme aside, who, where, and the parameters. */
  datatype Link = Link(user: string, host: string, port: Option<int>, query: Query)

  // -------------------------------------------------------------------- writing

  predicate RealityOn(t: Tls) { t.reality.Some? && t.reality.value.enabled }

  function FingerprintOf(t: Tls): string {
    match t.utls case Some(u) => u.fingerprint case None => ""
  }

  function Or(value: string, fallback: string): string {
    if value != "" then value else fallback
  }

  function WithSecurity(q: Query, t: Tls): Query {
    if RealityOn(t) then
      q.(security := "reality", pbk := t.reality.value.publicKey, sid := Or(t.reality.value.shortId, q.sid))
    else q.(security := "tls")
  }

  /** A name is set only when there is something to set it to. */
  function WithTls(q: Query, tls: Option<Tls>): Query {
    if tls.None? || !tls.value.enabled then q.(security := "none")
    else
      var t := tls.value;
      WithSecurity(q, t).(
        sni := Or(t.serverName, q.sni),
        alpn := if t.alpn != [] then JoinOn(t.alpn, ',') else q.alpn,
        fp := Or(FingerprintOf(t), q.fp),
        allowInsecure := if t.insecure then "1" else q.allowInsecure)
  }

  const EARLY := "?ed="

  function WsPath(path: string, earlyData: int): string {
    if earlyData > 0 then path + EARLY + Itoa(earlyData) else path
  }

  /** Everything past host, path and mode rides in extra. */
  function WithTransport(q: Query, transport: Option<Transport>): Query {
    match transport
    case None => q.(kind := "tcp")
    case Some(Ws(path, header, earlyData, _)) =>
      q.(kind := "ws", path := WsPath(path, earlyData), host := if header.Some? then Or(header.value, q.host) else q.host)
    case Some(Grpc(service)) => q.(kind := "grpc", serviceName := service)
    case Some(Http(hosts, path)) => q.(kind := "http", path := path, host := if hosts != [] then hosts[0] else q.host)
    case Some(Upgrade(host, path)) => q.(kind := "httpupgrade", path := path, host := Or(host, q.host))
    case Some(Quic) => q.(kind := "quic")
    case Some(Xhttp(host, path, mode, rest)) =>
      q.(kind := "xhttp", path := path, host := Or(host, q.host), mode := Or(mode, q.mode),
         extra := if rest != map[] then Some(rest) else q.extra)
    case Some(Unknown(_)) => q.(kind := "tcp")
  }

  function WriteVless(o: Vless): Option<Link> {
    if o.server == "" || o.port == 0 then None
    else
      var q := EMPTY.(encryption := Or(o.encryption, "none"), flow := o.flow);
      Some(Link(o.uuid, o.server, Some(o.port), WithTransport(WithTls(q, o.tls), o.transport)))
  }

  function WriteTrojan(o: Trojan): Option<Link> {
    if o.server == "" || o.port == 0 then None
    else Some(Link(o.password, o.server, Some(o.port), WithTransport(WithTls(EMPTY, o.tls), o.transport)))
  }

  // -------------------------------------------------------------------- reading

  /** The first spelling that carries something, trimmed. */
  function FirstParam(values: seq<string>): string {
    if values == [] then ""
    else
      var value := Trim(values[0]);
      if value != "" then value else FirstParam(values[1..])
  }

  function BoolParam(values: seq<string>): bool {
    var value := ToLower(FirstParam(values));
    value == "1" || value == "true" || value == "yes" || value == "on"
  }

  function SniNames(q: Query): seq<string> { [q.sni, q.other.peer, q.other.servername, q.other.serverUnderName, q.host] }

  function FpNames(q: Query): seq<string> {
    [q.fp, q.other.fingerprint, q.other.clientFingerprint, q.other.clientUnderFingerprint]
  }

  function PbkNames(q: Query): seq<string> { [q.pbk, q.other.publicDashKey, q.other.publicUnderKey] }

  function SidNames(q: Query): seq<string> { [q.sid, q.other.shortDashId, q.other.shortUnderId] }

  function InsecureNames(q: Query): seq<string> {
    [q.allowInsecure, q.other.insecure, q.other.allowUnderInsecure, q.other.skipCertVerify]
  }

  function ServiceNames(q: Query): seq<string> {
    [q.serviceName, q.other.serviceUnderName, q.other.serviceDashName, q.other.grpcServiceName, q.path]
  }

  /** What the TLS parameters say, each in whichever spelling. */
  datatype TlsRead = TlsRead(
    name: string, alpn: seq<string>, fingerprint: string, publicKey: string, shortId: string, insecure: bool)

  function ReadTls(q: Query): TlsRead {
    TlsRead(FirstParam(SniNames(q)), SplitList(Trim(q.alpn)), FirstParam(FpNames(q)),
      FirstParam(PbkNames(q)), FirstParam(SidNames(q)), BoolParam(InsecureNames(q)))
  }

  /** Reality always comes with a fingerprint, and pins the server's key itself. */
  function AssembleTls(read: TlsRead, server: string, reality: bool): Tls {
    if reality then
      Tls(true, Or(read.name, server), read.alpn, Some(Utls(true, Or(read.fingerprint, "chrome"))),
        Some(Reality(true, read.publicKey, read.shortId)), false)
    else
      Tls(true, Or(read.name, server), read.alpn,
        if read.fingerprint != "" then Some(Utls(true, read.fingerprint)) else None, None, read.insecure)
  }

  function BuildTls(q: Query, server: string, reality: bool, enabled: bool): Option<Tls> {
    if enabled then Some(AssembleTls(ReadTls(q), server, reality)) else None
  }

  datatype Wire = Plain | WsWire | GrpcWire | HttpWire | UpgradeWire | QuicWire | XhttpWire

  const SPELLINGS: seq<(string, Wire)> := [
    ("ws", WsWire), ("websocket", WsWire), ("grpc", GrpcWire), ("gun", GrpcWire),
    ("h2", HttpWire), ("http", HttpWire), ("h2c", HttpWire), ("httpupgrade", UpgradeWire),
    ("quic", QuicWire), ("xhttp", XhttpWire), ("splithttp", XhttpWire)]

  function Spelled(spellings: seq<(string, Wire)>, value: string): Wire {
    if spellings == [] then Plain
    else if spellings[0].0 == value then spellings[0].1
    else Spelled(spellings[1..], value)
  }

  function NormalizeTransport(spellings: seq<(string, Wire)>, value: string): Wire {
    Spelled(spellings, ToLower(Trim(value)))
  }

  const MODES := ["auto", "packet-up", "stream-up", "stream-one"]

  function NormalizeMode(modes: seq<string>, value: string): string {
    var mode := ToLower(Trim(value));
    if mode in modes then mode else ""
  }

  function HostOf(q: Query, server: string): string { Or(Trim(q.host), server) }

  function PathOf(q: Query): string { Or(Trim(q.path), "/") }

  /** The early-data size a WebSocket path's query asks for; a query with a semicolon is malformed. */
  function EarlyOf(query: string): int {
    if ';' in query then 0 else EarlyAmong(SplitOn(query, '&'))
  }

  function EarlyAmong(pairs: seq<string>): int {
    if pairs == [] then 0
    else
      var (name, value) := CutAt(pairs[0], '=');
      if name == "ed" then (match Atoi(if value.Some? then value.value else "") case Some(n) => n case None => 0)
      else EarlyAmong(pairs[1..])
  }

  const EARLY_HEADER := "Sec-WebSocket-Protocol"

  function BuildWs(q: Query, server: string): Transport {
    var (path, query) := CutAt(PathOf(q), '?');
    var early := match query case Some(text) => EarlyOf(text) case None => 0;
    var host := Some(HostOf(q, server));
    if early > 0 then Ws(path, host, early, EARLY_HEADER) else Ws(path, host, 0, "")
  }

  const XHTTP_PADDING := [
    "headers", "xPaddingBytes", "xPaddingObfsMode", "xPaddingKey", "xPaddingHeader", "xPaddingPlacement", "xPaddingMethod"]

  const XHTTP_UPLINK := [
    "uplinkHTTPMethod", "sessionIDPlacement", "sessionIDKey", "sessionIDTable", "sessionIDLength",
    "seqPlacement", "seqKey", "uplinkDataPlacement", "uplinkDataKey", "uplinkChunkSize"]

  const XHTTP_LIMITS := [
    "noGRPCHeader", "noSSEHeader", "scMaxEachPostBytes", "scMinPostsIntervalMs", "scMaxBufferedPosts",
    "scStreamUpServerSecs", "serverMaxHeaderBytes"]

  const XHTTP_FIELDS := XHTTP_PADDING + XHTTP_UPLINK + XHTTP_LIMITS

  const XMUX_FIELDS := [
    "maxConcurrency", "maxConnections", "cMaxReuseTimes", "hMaxRequestTimes", "hMaxReusableSecs", "hKeepAlivePeriod"]

  /** Which setting names the core knows, and how transports are spelled. */
  datatype Names = Names(fields: seq<string>, mux: seq<string>, modes: seq<string>, spellings: seq<(string, Wire)>)

  const KNOWN := Names(XHTTP_FIELDS, XMUX_FIELDS, MODES, SPELLINGS)

  function MuxKept(known: Names, value: Json): map<string, Json> {
    match value
    case Object(fields) => map name | name in fields && name in known.mux :: fields[name]
    case _ => map[]
  }

  /** What merging settings sets one key to. */
  function MergedAt(known: Names, transport: map<string, Json>, settings: map<string, Json>, key: string): Option<Json> {
    if key in settings && key in known.fields then Some(if key in transport then transport[key] else settings[key])
    else if key in settings && key == "xmux" && MuxKept(known, settings[key]) != map[] then Some(Object(MuxKept(known, settings[key])))
    else if key in transport then Some(transport[key])
    else None
  }

  /** Settings merged into a transport: those the core knows, where not already given, and connection reuse. */
  function Merged(known: Names, transport: map<string, Json>, settings: map<string, Json>): map<string, Json> {
    map key | key in transport.Keys + settings.Keys && MergedAt(known, transport, settings, key).Some? ::
      MergedAt(known, transport, settings, key).value
  }

  function BuildXhttp(known: Names, q: Query, server: string): Transport {
    var padding := FirstParam([q.other.xPadding, q.other.xPaddingLower]);
    var given := if padding != "" then map["xPaddingBytes" := Scalar(padding)] else map[];
    Xhttp(HostOf(q, server), PathOf(q), NormalizeMode(known.modes, Trim(q.mode)),
      match q.extra case Some(extra) => Merged(known, given, extra) case None => given)
  }

  function BuildTransport(known: Names, wire: Wire, q: Query, server: string): Option<Transport> {
    match wire
    case Plain => None
    case WsWire => Some(BuildWs(q, server))
    case GrpcWire => Some(Grpc(FirstParam(ServiceNames(q))))
    case HttpWire => Some(Http([HostOf(q, server)], PathOf(q)))
    case UpgradeWire => Some(Upgrade(HostOf(q, server), PathOf(q)))
    case QuicWire => Some(Quic)
    case XhttpWire => Some(BuildXhttp(known, q, server))
  }

  /** No default port: a link without one is refused. */
  function PortOf(link: Link, fallback: int): Option<int> {
    match link.port
    case None => if fallback == 0 then None else Some(fallback)
    case Some(port) => if 0 < port <= 65535 then Some(port) else None
  }

  /** XTLS Vision only works on plain TCP under TLS; "none" is no encryption. */
  function AssembleVless(
      link: Link, port: int, packetEncoding: string, tls: Option<Tls>, wire: Wire, flow: string, encryption: string,
      transport: Option<Transport>): Vless
  {
    Vless(link.host, port, link.user, Or(packetEncoding, "xudp"), tls,
      if wire.Plain? && tls.Some? then flow else "",
      if ToLower(encryption) == "none" then "" else encryption, transport)
  }

  predicate TlsAsked(security: string) { security == "tls" || security == "reality" || security == "xtls" }

  function ParseVless(known: Names, link: Link): Option<Vless> {
    var port := PortOf(link, 0);
    if link.host == "" || port.None? || link.user == "" then None
    else
      var q := link.query;
      var security := ToLower(Trim(q.security));
      var wire := NormalizeTransport(known.spellings, Trim(q.kind));
      Some(AssembleVless(link, port.value,
        FirstParam([q.other.packetEncoding, q.other.packetUnderEncoding]),
        BuildTls(q, link.host, security == "reality", TlsAsked(security)), wire,
        Trim(q.flow), Trim(q.encryption), BuildTransport(known, wire, q, link.host)))
  }

  function ParseTrojan(known: Names, link: Link): Option<Trojan> {
    var port := PortOf(link, 443);
    if link.host == "" || port.None? || link.user == "" then None
    else
      var q := link.query;
      var security := ToLower(Trim(q.security));
      Some(Trojan(link.host, port.value, link.user,
        BuildTls(q, link.host, security == "reality", security != "none"),
        BuildTransport(known, NormalizeTransport(known.spellings, Trim(q.kind)), q, link.host)))
  }
}
