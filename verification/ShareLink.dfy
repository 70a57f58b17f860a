// The link writer at work, and settings merged in place (internal/link/share.go,
// internal/link/xhttp.go).

module ShareLink {
  import opened Wrappers
  import opened Text
  import opened LinkText
  import opened LinkSpec

  /** A link's parameters while they are being set. */
  class Params {
    var values: Query

    constructor ()
      ensures values == EMPTY
    {
      values := EMPTY;
    }

    method WriteSecurity(t: Tls)
      modifies this
      ensures values == WithSecurity(old(values), t)
    {
      if t.reality.Some? && t.reality.value.enabled {
        values := values.(security := "reality", pbk := t.reality.value.publicKey);
        if t.reality.value.shortId != "" {
          values := values.(sid := t.reality.value.shortId);
        }
      } else {
        values := values.(security := "tls");
      }
    }

    method WriteTls(tls: Option<Tls>)
      modifies this
      ensures values == WithTls(old(values), tls)
    {
      if tls.None? || !tls.value.enabled {
        values := values.(security := "none");
        return;
      }
      var t := tls.value;
      WriteSecurity(t);
      if t.serverName != "" {
        values := values.(sni := t.serverName);
      }
      if t.alpn != [] {
        values := values.(alpn := JoinOn(t.alpn, ','));
      }
      if t.utls.Some? && t.utls.value.fingerprint != "" {
        values := values.(fp := t.utls.value.fingerprint);
      }
      if t.insecure {
        values := values.(allowInsecure := "1");
      }
    }

    method SetHost(host: string)
      modifies this
      ensures values == old(values).(host := Or(host, old(values).host))
    {
      if host != "" {
        values := values.(host := host);
      }
    }

    method WriteTransport(transport: Option<Transport>)
      modifies this
      ensures values == WithTransport(old(values), transport)
    {
      match transport {
        case Some(Ws(path, header, earlyData, _)) =>
          values := values.(kind := "ws");
          var whole := path;
          if earlyData > 0 {
            whole := whole + EARLY + Itoa(earlyData);
          }
          values := values.(path := whole);
          if header.Some? {
            SetHost(header.value);
          }
        case Some(Grpc(service)) => values := values.(kind := "grpc", serviceName := service);
        case Some(Http(hosts, path)) =>
          values := values.(kind := "http", path := path);
          if hosts != [] {
            values := values.(host := hosts[0]);
          }
        case Some(Upgrade(host, path)) =>
          values := values.(kind := "httpupgrade", path := path);
          SetHost(host);
        case Some(Quic) => values := values.(kind := "quic");
        case Some(Xhttp(host, path, mode, rest)) =>
          values := values.(kind := "xhttp", path := path);
          SetHost(host);
          if mode != "" {
            values := values.(mode := mode);
          }
          if rest != map[] {
            values := values.(extra := Some(rest));
          }
        case _ => values := values.(kind := "tcp");
      }
    }
  }

  method EncodeVless(o: Vless) returns (link: Option<Link>)
    ensures link == WriteVless(o)
  {
    if o.server == "" || o.port == 0 { return None; }
    var params := new Params();
    params.values := params.values.(encryption := if o.encryption == "" then "none" else o.encryption);
    if o.flow != "" {
      params.values := params.values.(flow := o.flow);
    }
    params.WriteTls(o.tls);
    params.WriteTransport(o.transport);
    return Some(Link(o.uuid, o.server, Some(o.port), params.values));
  }

  method EncodeTrojan(o: Trojan) returns (link: Option<Link>)
    ensures link == WriteTrojan(o)
  {
    if o.server == "" || o.port == 0 { return None; }
    var params := new Params();
    params.WriteTls(o.tls);
    params.WriteTransport(o.transport);
    return Some(Link(o.password, o.server, Some(o.port), params.values));
  }

  /** A transport's settings, merged into in place. */
  class Settings {
    var fields: map<string, Json>

    constructor (fields: map<string, Json>)
      ensures this.fields == fields
    {
      this.fields := fields;
    }

    function At(key: string): Option<Json>
      reads this
    {
      if key in fields then Some(fields[key]) else None
    }

    method MergeOne(known: Names, key: string, value: Json)
      modifies this
      ensures At(key) == MergedAt(known, old(fields), map[key := value], key)
      ensures forall other :: other != key ==> At(other) == old(At(other))
    {
      if key in known.fields {
        if key !in fields {
          fields := fields[key := value];
        }
      } else if key == "xmux" && value.Object? {
        var kept := map name | name in value.fields && name in known.mux :: value.fields[name];
        assert kept == MuxKept(known, value);
        if kept != map[] {
          fields := fields[key := Object(kept)];
        }
      }
    }

    /** The settings are taken in no particular order. */
    method Merge(known: Names, settings: map<string, Json>)
      modifies this
      ensures fields == Merged(known, old(fields), settings)
    {
      var left := settings.Keys;
      while left != {}
        invariant left <= settings.Keys
        invariant forall key :: key in left ==> At(key) == old(At(key))
        invariant forall key :: key !in left ==> At(key) == MergedAt(known, old(fields), settings, key)
        decreases left
      {
        var key :| key in left;
        MergeOne(known, key, settings[key]);
        left := left - {key};
      }
      ghost var merged := Merged(known, old(fields), settings);
      assert forall key :: At(key) == if key in merged then Some(merged[key]) else None;
    }
  }
}
