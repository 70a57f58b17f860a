// Which outbounds come back from a share link as they went in (internal/link).

module LinkRoundTrip {
  import opened Wrappers
  import opened Sequences
  import opened Text
  import opened LinkText
  import opened LinkSpec

  // ------------------------------------------------------------ what survives

  predicate CanonicalTls(tls: Option<Tls>) {
    match tls
    case None => true
    case Some(t) =>
      && t.enabled && Clean(t.serverName) && (forall a <- t.alpn :: CleanItem(a))
      && (t.utls.Some? ==> t.utls.value.enabled && Clean(t.utls.value.fingerprint))
      && (t.reality.Some? ==>
            && t.reality.value.enabled && Trimmed(t.reality.value.publicKey) && Trimmed(t.reality.value.shortId)
            && t.utls.Some? && !t.insecure)
  }

  /** With early data a space at the end of the path is safe, and an empty path too. */
  predicate CanonicalPath(path: string, earlyData: int) {
    && '?' !in path && earlyData >= 0
    && (if earlyData > 0 then path == "" || !IsSpace(path[0]) else Clean(path))
  }

  predicate CanonicalRest(known: Names, rest: map<string, Json>) {
    forall key <- rest ::
      || key in known.fields
      || (key == "xmux" && rest[key].Object? && rest[key].fields != map[] && forall name <- rest[key].fields :: name in known.mux)
  }

  predicate CanonicalTransport(known: Names, transport: Option<Transport>) {
    match transport
    case None => true
    case Some(Ws(path, header, earlyData, earlyHeader)) =>
      && CanonicalPath(path, earlyData) && header.Some? && Clean(header.value)
      && earlyHeader == if earlyData > 0 then EARLY_HEADER else ""
    case Some(Grpc(service)) => Trimmed(service)
    case Some(Http(hosts, path)) => |hosts| == 1 && Clean(hosts[0]) && Clean(path)
    case Some(Upgrade(host, path)) => Clean(host) && Clean(path)
    case Some(Quic) => true
    case Some(Xhttp(host, path, mode, rest)) =>
      Clean(host) && Clean(path) && (mode == "" || mode in known.modes) && CanonicalRest(known, rest)
    case Some(Unknown(_)) => false
  }

  predicate CanonicalVless(known: Names, o: Vless) {
    && 0 < o.port <= 65535 && o.uuid != "" && o.packetEncoding == "xudp"
    && CanonicalTls(o.tls) && CanonicalTransport(known, o.transport)
    && (o.flow != "" ==> Clean(o.flow) && o.transport.None? && o.tls.Some?)
    && (o.encryption != "" ==> Clean(o.encryption) && ToLower(o.encryption) != "none")
  }

  predicate CanonicalTrojan(known: Names, o: Trojan) {
    && 0 < o.port <= 65535 && o.password != ""
    && CanonicalTls(o.tls) && CanonicalTransport(known, o.transport)
  }

  // ------------------------------------------------------------ reading names

  lemma {:induction false} FirstParamTrimmed(values: seq<string>)
    ensures Trimmed(FirstParam(values))
  {
    if values != [] {
      TrimTrims(values[0]);
      FirstParamTrimmed(values[1..]);
    }
  }

  lemma {:induction false} FirstParamNone(values: seq<string>)
    requires forall i :: 0 <= i < |values| ==> values[i] == ""
    ensures FirstParam(values) == ""
  {
    if values != [] {
      TrimFixes("");
      FirstParamNone(values[1..]);
    }
  }

  /** When only the first spelling is used, it is what is read. */
  lemma FirstParamOnly(values: seq<string>)
    requires values != [] && forall i :: 1 <= i < |values| ==> values[i] == ""
    ensures FirstParam(values) == Trim(values[0])
  {
    FirstParamNone(values[1..]);
  }

  lemma OrFallback(value: string, fallback: string)
    requires Clean(fallback)
    ensures Or(Trim(value), fallback) == value <==> Clean(value)
  {
    TrimFixes(value);
    TrimTrims(value);
  }

  /** A word in lower case reads as itself. */
  lemma WordRead(word: string)
    requires forall i :: 0 <= i < |word| ==> 'a' <= word[i] <= 'z'
    ensures Trim(word) == word && ToLower(word) == word
  {
    TrimFixes(word);
    assert forall i :: 0 <= i < |word| ==> Lower(word[i]) == word[i];
  }

  // ------------------------------------------------------------- TLS parameters

  function SecurityText(tls: Option<Tls>): string {
    if tls.None? || !tls.value.enabled then "none" else if RealityOn(tls.value) then "reality" else "tls"
  }

  /** The TLS parameters are those of a block. */
  predicate CarriesTls(q: Query, tls: Option<Tls>) {
    && q.other == NO_ALIASES && q.security == SecurityText(tls)
    && (tls.Some? && tls.value.enabled ==>
          var t := tls.value;
          && q.sni == t.serverName && q.alpn == JoinOn(t.alpn, ',') && q.fp == FingerprintOf(t)
          && q.allowInsecure == (if t.insecure then "1" else "")
          && (RealityOn(t) ==> q.pbk == t.reality.value.publicKey && q.sid == t.reality.value.shortId))
  }

  lemma WithTlsCarries(q: Query, tls: Option<Tls>)
    requires q.other == NO_ALIASES && q.sni == q.alpn == q.fp == q.sid == q.allowInsecure == ""
    ensures CarriesTls(WithTls(q, tls), tls)
  {
  }

  lemma NameSurvives(q: Query, t: Tls, server: string)
    requires q.sni == t.serverName && Clean(server)
    ensures Or(FirstParam(SniNames(q)), server) == t.serverName <==> Clean(t.serverName)
  {
    FirstParamTrimmed(SniNames(q));
    TrimFixes(t.serverName);
    TrimTrims(t.serverName);
  }

  lemma AlpnSurvives(q: Query, t: Tls)
    requires q.alpn == JoinOn(t.alpn, ',')
    ensures SplitList(Trim(q.alpn)) == t.alpn <==> forall a <- t.alpn :: CleanItem(a)
  {
    ListRoundTrip(t.alpn);
  }

  lemma FingerprintRead(q: Query)
    requires q.other == NO_ALIASES
    ensures FirstParam(FpNames(q)) == q.fp <==> Trimmed(q.fp)
    ensures Trimmed(FirstParam(FpNames(q))) && (q.fp == "" ==> FirstParam(FpNames(q)) == "")
  {
    FirstParamOnly(FpNames(q));
    TrimFixes(q.fp);
    TrimTrims(q.fp);
  }

  lemma KeysRead(q: Query)
    requires q.other == NO_ALIASES
    ensures FirstParam(PbkNames(q)) == q.pbk <==> Trimmed(q.pbk)
    ensures FirstParam(SidNames(q)) == q.sid <==> Trimmed(q.sid)
  {
    FirstParamOnly(PbkNames(q));
    FirstParamOnly(SidNames(q));
    TrimFixes(q.pbk);
    TrimFixes(q.sid);
  }

  lemma InsecureRead(q: Query, insecure: bool)
    requires q.other == NO_ALIASES && q.allowInsecure == (if insecure then "1" else "")
    ensures BoolParam(InsecureNames(q)) == insecure
  {
    FirstParamOnly(InsecureNames(q));
    TrimFixes(q.allowInsecure);
    assert ToLower("1") == "1" && ToLower("") == "";
  }

  /** How what was read relates to the block written. */
  predicate Reads(read: TlsRead, t: Tls, server: string) {
    && (Or(read.name, server) == t.serverName <==> Clean(t.serverName))
    && (read.alpn == t.alpn <==> forall a <- t.alpn :: CleanItem(a))
    && (read.fingerprint == FingerprintOf(t) <==> Trimmed(FingerprintOf(t)))
    && Trimmed(read.fingerprint) && (FingerprintOf(t) == "" ==> read.fingerprint == "")
    && read.insecure == t.insecure
    && (RealityOn(t) ==>
          && (read.publicKey == t.reality.value.publicKey <==> Trimmed(t.reality.value.publicKey))
          && (read.shortId == t.reality.value.shortId <==> Trimmed(t.reality.value.shortId)))
  }

  lemma AssembledSurvives(read: TlsRead, t: Tls, server: string)
    requires t.enabled && Reads(read, t, server)
    ensures AssembleTls(read, server, RealityOn(t)) == t <==> CanonicalTls(Some(t))
  {
  }

  lemma TlsReads(q: Query, t: Tls, server: string)
    requires CarriesTls(q, Some(t)) && t.enabled && Clean(server)
    ensures Reads(ReadTls(q), t, server)
  {
    NameSurvives(q, t, server);
    AlpnSurvives(q, t);
    FingerprintRead(q);
    InsecureRead(q, t.insecure);
    KeysRead(q);
  }

  /** A TLS block survives exactly when it is canonical. */
  lemma TlsRoundTrip(q: Query, tls: Option<Tls>, server: string)
    requires CarriesTls(q, tls) && Clean(server)
    ensures BuildTls(q, server, tls.Some? && RealityOn(tls.value), tls.Some? && tls.value.enabled) == tls <==> CanonicalTls(tls)
  {
    if tls.Some? && tls.value.enabled {
      TlsReads(q, tls.value, server);
      AssembledSurvives(ReadTls(q), tls.value, server);
    }
  }

  // ------------------------------------------------------ transport parameters

  /** The word a kind is written under. */
  function WordOf(wire: Wire): string {
    match wire
    case WsWire => "ws"
    case GrpcWire => "grpc"
    case HttpWire => "http"
    case UpgradeWire => "httpupgrade"
    case QuicWire => "quic"
    case XhttpWire => "xhttp"
    case Plain => "tcp"
  }

  function KindText(transport: Option<Transport>): string { WordOf(WireOf(transport)) }

  function WireOf(transport: Option<Transport>): Wire {
    match transport
    case Some(Ws(_, _, _, _)) => WsWire
    case Some(Grpc(_)) => GrpcWire
    case Some(Http(_, _)) => HttpWire
    case Some(Upgrade(_, _)) => UpgradeWire
    case Some(Quic) => QuicWire
    case Some(Xhttp(_, _, _, _)) => XhttpWire
    case _ => Plain
  }

  lemma {:induction false} SpelledAt(spellings: seq<(string, Wire)>, k: nat)
    requires k < |spellings| && forall j :: 0 <= j < k ==> spellings[j].0 != spellings[k].0
    ensures Spelled(spellings, spellings[k].0) == spellings[k].1
  {
    if k > 0 {
      SpelledAt(spellings[1..], k - 1);
    }
  }

  lemma {:induction false} SpelledNowhere(spellings: seq<(string, Wire)>, value: string)
    requires forall i :: 0 <= i < |spellings| ==> spellings[i].0 != value
    ensures Spelled(spellings, value) == Plain
  {
    if spellings != [] {
      SpelledNowhere(spellings[1..], value);
    }
  }

  /** A length and a first letter tell the spellings apart, but for "grpc", "http" and their like. */
  lemma SpellingsDiffer(k: nat)
    requires k == 0 || k == 2 || k == 5 || k == 7 || k == 8 || k == 9
    ensures Spelled(SPELLINGS, SPELLINGS[k].0) == SPELLINGS[k].1
  {
    var s := SPELLINGS;
    assert |s[0].0| == 2 && |s[1].0| == 9 && |s[2].0| == 4 && |s[3].0| == 3 && |s[4].0| == 2 && |s[5].0| == 4;
    assert |s[6].0| == 3 && |s[7].0| == 11 && |s[8].0| == 4 && |s[9].0| == 5;
    assert s[2].0[0] == 'g' && s[5].0[0] == 'h' && s[8].0[0] == 'q';
    SpelledAt(s, k);
  }

  lemma PlainRead()
    ensures Spelled(SPELLINGS, "tcp") == Plain
  {
    var s, t := SPELLINGS, "tcp";
    assert |s[0].0| == 2 && |s[1].0| == 9 && |s[2].0| == 4 && |s[3].0| == 3 && |s[4].0| == 2 && |s[5].0| == 4;
    assert |s[6].0| == 3 && |s[7].0| == 11 && |s[8].0| == 4 && |s[9].0| == 5 && |s[10].0| == 9;
    assert s[3].0[0] == 'g' && s[6].0[0] == 'h' && t[0] == 't';
    SpelledNowhere(s, t);
  }

  lemma WordSpelled(spellings: seq<(string, Wire)>, word: string)
    requires forall i :: 0 <= i < |word| ==> 'a' <= word[i] <= 'z'
    ensures NormalizeTransport(spellings, Trim(word)) == Spelled(spellings, word)
  {
    WordRead(word);
  }

  /** Each kind's own word is read as that kind. */
  ghost predicate WordsRead(s: seq<(string, Wire)>) {
    forall wire :: Spelled(s, WordOf(wire)) == wire
  }

  lemma KnownWords()
    ensures WordsRead(SPELLINGS)
  {
    forall wire
      ensures Spelled(SPELLINGS, WordOf(wire)) == wire
    {
      match wire
      case Plain => PlainRead();
      case WsWire => SpellingsDiffer(0);
      case GrpcWire => SpellingsDiffer(2);
      case HttpWire => SpellingsDiffer(5);
      case UpgradeWire => SpellingsDiffer(7);
      case QuicWire => SpellingsDiffer(8);
      case XhttpWire => SpellingsDiffer(9);
    }
  }

  lemma WordLetters(wire: Wire)
    ensures forall i :: 0 <= i < |WordOf(wire)| ==> 'a' <= WordOf(wire)[i] <= 'z'
  {
  }

  /** Every kind is read back from the name it is written under. */
  lemma KindRead(spellings: seq<(string, Wire)>, transport: Option<Transport>)
    requires WordsRead(spellings)
    ensures NormalizeTransport(spellings, Trim(KindText(transport))) == WireOf(transport)
  {
    WordLetters(WireOf(transport));
    WordSpelled(spellings, WordOf(WireOf(transport)));
  }

  // ------------------------------------------------------------ WebSocket paths

  lemma EarlyRead(n: nat)
    ensures EarlyOf("ed=" + Itoa(n)) == n
  {
    var query := "ed=" + Itoa(n);
    DigitsOfItoa(n);
    assert forall i :: 3 <= i < |query| ==> query[i] == Itoa(n)[i - 3];
    CutAbsent(query, '&');
    assert query == "ed" + ['='] + Itoa(n);
    CutJoined("ed", '=', Itoa(n));
    AtoiOfItoa(n);
  }

  lemma EarlyWsPath(path: string, n: nat)
    requires n > 0
    ensures WsPath(path, n) == path + ['?'] + ("ed=" + Itoa(n))
    ensures '?' in WsPath(path, n) && !IsSpace(WsPath(path, n)[|WsPath(path, n)| - 1])
  {
    DigitsOfItoa(n);
    var w := WsPath(path, n);
    assert w[|path|] == '?';
    assert w[|w| - 1] == Itoa(n)[|Itoa(n)| - 1];
  }

  /** What is read of a path written with or without early data. */
  function ReadPath(path: string, earlyData: int): (string, int) {
    var (base, query) := CutAt(Or(Trim(WsPath(path, earlyData)), "/"), '?');
    (base, match query case Some(text) => EarlyOf(text) case None => 0)
  }

  lemma EarlyPathKept(path: string, n: nat)
    requires n > 0 && '?' !in path && (path == "" || !IsSpace(path[0]))
    ensures Trim(WsPath(path, n)) == WsPath(path, n) != ""
    ensures CutAt(WsPath(path, n), '?') == (path, Some("ed=" + Itoa(n)))
  {
    var w := WsPath(path, n);
    EarlyWsPath(path, n);
    assert w[0] == if path == "" then '?' else path[0];
    TrimFixes(w);
    CutJoined(path, '?', "ed=" + Itoa(n));
  }

  lemma EarlyPathSurvives(path: string, earlyData: int)
    requires earlyData > 0
    ensures CanonicalPath(path, earlyData) ==> ReadPath(path, earlyData) == (path, earlyData)
    ensures ReadPath(path, earlyData).0 == path ==> CanonicalPath(path, earlyData)
  {
    var w := WsPath(path, earlyData);
    CutAtMeans(Or(Trim(w), "/"), '?');
    TrimTrims(w);
    if CanonicalPath(path, earlyData) {
      EarlyPathKept(path, earlyData);
      EarlyRead(earlyData);
    }
  }

  lemma PlainPathSurvives(path: string, earlyData: int)
    requires earlyData <= 0
    ensures CanonicalPath(path, earlyData) ==> ReadPath(path, earlyData) == (path, 0)
    ensures ReadPath(path, earlyData).0 == path ==> '?' !in path && Clean(path)
  {
    var p := Or(Trim(path), "/");
    CutAtMeans(p, '?');
    TrimFixes(path);
    TrimFixes("/");
    if '?' !in path && Clean(path) {
      CutAbsent(path, '?');
    }
  }

  lemma WsPathRoundTrip(path: string, earlyData: int)
    ensures ReadPath(path, earlyData).0 == path && (if ReadPath(path, earlyData).1 > 0 then ReadPath(path, earlyData).1 else 0) == earlyData
      <==> CanonicalPath(path, earlyData)
  {
    if earlyData > 0 {
      EarlyPathSurvives(path, earlyData);
    } else {
      PlainPathSurvives(path, earlyData);
      CutAtMeans(Or(Trim(path), "/"), '?');
    }
  }

  // ------------------------------------------------------------------ transports

  /** The names and spellings are such as the readers expect. */
  ghost predicate Reader(known: Names) {
    "xmux" !in known.fields && WordsRead(known.spellings) && ModesRead(known.modes)
  }

  /** The transport parameters are those of a transport. */
  predicate CarriesTransport(q: Query, transport: Option<Transport>) {
    && q.other == NO_ALIASES && q.kind == KindText(transport)
    && match transport
       case Some(Ws(path, header, earlyData, _)) =>
         q.path == WsPath(path, earlyData) && q.host == (if header.Some? then header.value else "")
       case Some(Grpc(service)) => q.serviceName == service && q.path == ""
       case Some(Http(hosts, path)) => q.path == path && q.host == (if hosts != [] then hosts[0] else "")
       case Some(Upgrade(host, path)) => q.path == path && q.host == host
       case Some(Xhttp(host, path, mode, rest)) =>
         q.path == path && q.host == host && q.mode == mode && q.extra == (if rest != map[] then Some(rest) else None)
       case _ => true
  }

  lemma WithTransportCarries(q: Query, transport: Option<Transport>)
    requires q.other == NO_ALIASES && q.host == q.path == q.mode == q.serviceName == "" && q.extra.None?
    ensures CarriesTransport(WithTransport(q, transport), transport)
    ensures forall tls :: CarriesTls(q, tls) ==> CarriesTls(WithTransport(q, transport), tls)
    ensures WithTransport(q, transport).flow == q.flow && WithTransport(q, transport).encryption == q.encryption
  {
  }

  lemma HostPathRead(q: Query, server: string)
    requires Clean(server)
    ensures HostOf(q, server) == q.host <==> Clean(q.host)
    ensures Clean(HostOf(q, server))
    ensures PathOf(q) == q.path <==> Clean(q.path)
  {
    OrFallback(q.host, server);
    OrFallback(q.path, "/");
    TrimTrims(q.host);
  }

  lemma WsSurvives(q: Query, t: Transport, server: string)
    requires t.Ws? && CarriesTransport(q, Some(t)) && Clean(server)
    ensures BuildWs(q, server) == t <==>
      CanonicalPath(t.path, t.earlyData) && t.header.Some? && Clean(t.header.value)
      && t.earlyHeader == if t.earlyData > 0 then EARLY_HEADER else ""
  {
    HostPathRead(q, server);
    WsPathRoundTrip(t.path, t.earlyData);
  }

  predicate ModesRead(modes: seq<string>) {
    forall m <- modes :: Trim(m) == m && ToLower(m) == m
  }

  lemma ModeRead(modes: seq<string>, q: Query)
    requires ModesRead(modes)
    ensures NormalizeMode(modes, Trim(q.mode)) == q.mode <==> q.mode == "" || q.mode in modes
  {
  }

  lemma KnownModes()
    ensures ModesRead(MODES)
  {
    var modes := MODES;
    forall i | 0 <= i < |modes|
      ensures Trim(modes[i]) == modes[i] && ToLower(modes[i]) == modes[i]
    {
      TrimFixes(modes[i]);
      assert forall j :: 0 <= j < |modes[i]| ==> Lower(modes[i][j]) == modes[i][j];
    }
  }

  /** Settings survive exactly when the core knows every one of them. */
  lemma RestSurvives(known: Names, rest: map<string, Json>)
    requires "xmux" !in known.fields
    ensures Merged(known, map[], rest) == rest <==> CanonicalRest(known, rest)
  {
    var merged := Merged(known, map[], rest);
    if merged == rest {
      forall key <- rest
        ensures key in known.fields
          || (key == "xmux" && rest[key].Object? && rest[key].fields != map[] && forall name <- rest[key].fields :: name in known.mux)
      {
        assert key in merged;
        if key !in known.fields {
          assert rest[key] == Object(MuxKept(known, rest[key]));
        }
      }
    }
    if CanonicalRest(known, rest) {
      forall key <- rest
        ensures MergedAt(known, map[], rest, key) == Some(rest[key])
      {
        if key !in known.fields {
          assert MuxKept(known, rest[key]) == rest[key].fields;
        }
      }
    }
  }

  lemma XhttpJudged(known: Names, built: Transport, t: Transport)
    requires built.Xhttp? && t.Xhttp?
    requires built.host == t.host <==> Clean(t.host)
    requires built.path == t.path <==> Clean(t.path)
    requires built.mode == t.mode <==> t.mode == "" || t.mode in known.modes
    requires built.rest == t.rest <==> CanonicalRest(known, t.rest)
    ensures built == t <==> CanonicalTransport(known, Some(t))
  {
  }

  lemma RestRead(known: Names, q: Query, t: Transport, server: string)
    requires t.Xhttp? && CarriesTransport(q, Some(t)) && Reader(known)
    ensures BuildXhttp(known, q, server).rest == t.rest <==> CanonicalRest(known, t.rest)
  {
    FirstParamNone([q.other.xPadding, q.other.xPaddingLower]);
    RestSurvives(known, t.rest);
  }

  lemma XhttpHostPath(known: Names, q: Query, t: Transport, server: string)
    requires t.Xhttp? && CarriesTransport(q, Some(t)) && Clean(server)
    ensures BuildXhttp(known, q, server).host == t.host <==> Clean(t.host)
    ensures BuildXhttp(known, q, server).path == t.path <==> Clean(t.path)
  {
    HostPathRead(q, server);
  }

  lemma XhttpMode(known: Names, q: Query, t: Transport, server: string)
    requires t.Xhttp? && CarriesTransport(q, Some(t)) && Reader(known)
    ensures BuildXhttp(known, q, server).mode == t.mode <==> t.mode == "" || t.mode in known.modes
  {
    ModeRead(known.modes, q);
  }

  lemma XhttpSurvives(known: Names, q: Query, t: Transport, server: string)
    requires t.Xhttp? && CarriesTransport(q, Some(t)) && Clean(server) && Reader(known)
    ensures BuildXhttp(known, q, server) == t <==> CanonicalTransport(known, Some(t))
  {
    XhttpHostPath(known, q, t, server);
    XhttpMode(known, q, t, server);
    RestRead(known, q, t, server);
    XhttpJudged(known, BuildXhttp(known, q, server), t);
  }

  lemma HttpSurvives(q: Query, t: Transport, server: string)
    requires t.Http? && CarriesTransport(q, Some(t)) && Clean(server)
    ensures Http([HostOf(q, server)], PathOf(q)) == t <==> |t.hosts| == 1 && Clean(t.hosts[0]) && Clean(t.path)
  {
    HostPathRead(q, server);
    if |t.hosts| == 1 {
      assert t.hosts == [t.hosts[0]];
    }
  }

  lemma UpgradeSurvives(q: Query, t: Transport, server: string)
    requires t.Upgrade? && CarriesTransport(q, Some(t)) && Clean(server)
    ensures Upgrade(HostOf(q, server), PathOf(q)) == t <==> Clean(t.host) && Clean(t.path)
  {
    HostPathRead(q, server);
  }

  lemma GrpcSurvives(q: Query, t: Transport)
    requires t.Grpc? && CarriesTransport(q, Some(t))
    ensures Grpc(FirstParam(ServiceNames(q))) == t <==> Trimmed(t.service)
  {
    FirstParamOnly(ServiceNames(q));
    TrimFixes(t.service);
  }

  /** A transport survives exactly when it is canonical. */
  lemma TransportRoundTrip(known: Names, q: Query, transport: Option<Transport>, server: string)
    requires CarriesTransport(q, transport) && Clean(server) && Reader(known)
    ensures BuildTransport(known, WireOf(transport), q, server) == transport <==> CanonicalTransport(known, transport)
  {
    match transport
    case Some(Ws(_, _, _, _)) => WsSurvives(q, transport.value, server);
    case Some(Grpc(_)) => GrpcSurvives(q, transport.value);
    case Some(Http(_, _)) => HttpSurvives(q, transport.value, server);
    case Some(Xhttp(_, _, _, _)) => XhttpSurvives(known, q, transport.value, server);
    case Some(Upgrade(_, _)) => UpgradeSurvives(q, transport.value, server);
    case _ =>
  }

  // ------------------------------------------------------------ the round trips

  lemma SecurityRead(tls: Option<Tls>)
    ensures ToLower(Trim(SecurityText(tls))) == SecurityText(tls)
    ensures SecurityText(tls) == "none" <==> !(tls.Some? && tls.value.enabled)
    ensures SecurityText(tls) == "reality" <==> tls.Some? && tls.value.enabled && RealityOn(tls.value)
    ensures SecurityText(tls) == "none" || SecurityText(tls) == "reality" || SecurityText(tls) == "tls"
  {
    WordRead(SecurityText(tls));
  }

  lemma EncryptionSurvives(encryption: string)
    ensures var read := Trim(Or(encryption, "none"));
      (if ToLower(read) == "none" then "" else read) == encryption
      <==> (encryption != "" ==> Clean(encryption) && ToLower(encryption) != "none")
  {
    WordRead("none");
    TrimFixes(encryption);
    TrimTrims(encryption);
    assert ToLower("") == "";
  }

  /** Both blocks of a link that a writer filled from a given start. */
  lemma BlocksSurvive(known: Names, start: Query, tls: Option<Tls>, transport: Option<Transport>, server: string)
    requires Reader(known) && Clean(server)
    requires start == EMPTY.(encryption := start.encryption, flow := start.flow)
    ensures var q := WithTransport(WithTls(start, tls), transport);
      var security := ToLower(Trim(q.security));
      && q.flow == start.flow && q.encryption == start.encryption && q.other == NO_ALIASES
      && security == SecurityText(tls)
      && NormalizeTransport(known.spellings, Trim(q.kind)) == WireOf(transport)
      && (BuildTls(q, server, security == "reality", security != "none") == tls <==> CanonicalTls(tls))
      && (BuildTransport(known, WireOf(transport), q, server) == transport <==> CanonicalTransport(known, transport))
  {
    var secured := WithTls(start, tls);
    var q := WithTransport(secured, transport);
    WithTlsCarries(start, tls);
    WithTransportCarries(secured, transport);
    SecurityRead(tls);
    KindRead(known.spellings, transport);
    TlsRoundTrip(q, tls, server);
    TransportRoundTrip(known, q, transport, server);
  }

  /**
   * Writing a Trojan server and reading the link back returns the very same
   * server exactly when it is canonical.
   */
  lemma TrojanRoundTrip(known: Names, o: Trojan)
    requires Reader(known) && Clean(o.server) && o.port != 0
    ensures WriteTrojan(o).Some?
    ensures ParseTrojan(known, WriteTrojan(o).value) == Some(o) <==> CanonicalTrojan(known, o)
  {
    BlocksSurvive(known, EMPTY, o.tls, o.transport, o.server);
  }

  lemma TlsAskedFor(tls: Option<Tls>)
    ensures TlsAsked(SecurityText(tls)) <==> SecurityText(tls) != "none"
  {
    SecurityRead(tls);
    assert "xtls"[0] == 'x';
  }

  lemma FlowSurvives(o: Vless, wire: Wire)
    requires wire == WireOf(o.transport)
    requires o.transport.Some? ==> !o.transport.value.Unknown?
    ensures (if wire.Plain? && o.tls.Some? then Trim(o.flow) else "") == o.flow
      <==> (o.flow != "" ==> Clean(o.flow) && o.transport.None? && o.tls.Some?)
  {
    TrimFixes(o.flow);
    assert wire.Plain? <==> o.transport.None?;
  }

  /** A VLESS server put together from what was read, against the one written. */
  lemma AssembledVless(o: Vless, link: Link, tls: Option<Tls>, transport: Option<Transport>, known: Names)
    requires link.host == o.server && link.user == o.uuid
    requires tls == o.tls <==> CanonicalTls(o.tls)
    requires transport == o.transport <==> CanonicalTransport(known, o.transport)
    ensures
      && 0 < o.port <= 65535 && o.uuid != ""
      && AssembleVless(link, o.port, "", tls, WireOf(o.transport), Trim(o.flow), Trim(Or(o.encryption, "none")), transport) == o
      <==> CanonicalVless(known, o)
  {
    EncryptionSurvives(o.encryption);
    if CanonicalTransport(known, o.transport) {
      FlowSurvives(o, WireOf(o.transport));
    }
  }

  /** Reading a link that carries a server's parameters. */
  lemma VlessRead(known: Names, o: Vless, link: Link)
    requires link.host == o.server && link.user == o.uuid && link.port == Some(o.port) && Clean(o.server)
    requires link.query.other == NO_ALIASES
    requires link.query.flow == o.flow && link.query.encryption == Or(o.encryption, "none")
    requires ToLower(Trim(link.query.security)) == SecurityText(o.tls)
    requires NormalizeTransport(known.spellings, Trim(link.query.kind)) == WireOf(o.transport)
    requires BuildTls(link.query, o.server, SecurityText(o.tls) == "reality", SecurityText(o.tls) != "none") == o.tls
      <==> CanonicalTls(o.tls)
    requires BuildTransport(known, WireOf(o.transport), link.query, o.server) == o.transport <==> CanonicalTransport(known, o.transport)
    ensures ParseVless(known, link) == Some(o) <==> CanonicalVless(known, o)
  {
    var q := link.query;
    TlsAskedFor(o.tls);
    FirstParamNone([q.other.packetEncoding, q.other.packetUnderEncoding]);
    var tls := BuildTls(q, o.server, SecurityText(o.tls) == "reality", SecurityText(o.tls) != "none");
    AssembledVless(o, link, tls, BuildTransport(known, WireOf(o.transport), q, o.server), known);
  }

  /** VLESS likewise, with its flow and encryption. */
  lemma VlessRoundTrip(known: Names, o: Vless)
    requires Reader(known) && Clean(o.server) && o.port != 0
    ensures WriteVless(o).Some?
    ensures ParseVless(known, WriteVless(o).value) == Some(o) <==> CanonicalVless(known, o)
  {
    var start := EMPTY.(encryption := Or(o.encryption, "none"), flow := o.flow);
    BlocksSurvive(known, start, o.tls, o.transport, o.server);
    VlessRead(known, o, WriteVless(o).value);
  }

  lemma PaddingNames()
    ensures "xmux" !in XHTTP_PADDING
  {
    var fields := XHTTP_PADDING;
    assert forall i :: 0 <= i < |fields| ==> |fields[i]| != 4;
  }

  lemma UplinkNames()
    ensures "xmux" !in XHTTP_UPLINK
  {
    var fields := XHTTP_UPLINK;
    assert forall i :: 0 <= i < |fields| ==> |fields[i]| != 4;
  }

  lemma LimitNames()
    ensures "xmux" !in XHTTP_LIMITS
  {
    var fields := XHTTP_LIMITS;
    assert forall i :: 0 <= i < |fields| ==> |fields[i]| != 4;
  }

  /** With the settings names and spellings the app knows, both hold of every server. */
  lemma AppReads()
    ensures Reader(KNOWN)
  {
    KnownWords();
    KnownModes();
    PaddingNames();
    UplinkNames();
    LimitNames();
  }

  /** What the app's own reader gives back of what its writer wrote. */
  lemma AppRoundTrips(v: Vless, t: Trojan)
    ensures Clean(v.server) && v.port != 0 ==>
      WriteVless(v).Some? && (ParseVless(KNOWN, WriteVless(v).value) == Some(v) <==> CanonicalVless(KNOWN, v))
    ensures Clean(t.server) && t.port != 0 ==>
      WriteTrojan(t).Some? && (ParseTrojan(KNOWN, WriteTrojan(t).value) == Some(t) <==> CanonicalTrojan(KNOWN, t))
  {
    AppReads();
    if Clean(v.server) && v.port != 0 {
      VlessRoundTrip(KNOWN, v);
    }
    if Clean(t.server) && t.port != 0 {
      TrojanRoundTrip(KNOWN, t);
    }
  }
}
