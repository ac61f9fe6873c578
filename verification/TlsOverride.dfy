/** The typed TLS override, config.go: deep copies of a TLS configuration on the heap, one for every
    host of a connection.

    A Go slice is an `array` here, a pointer a nullable reference. `TlsHolds(t, v, parts)` says that
    the configuration struct `t` has the contents `v` and that everything its contents are stored in
    besides the struct, directly or through nested slices and pools, lies in `parts`. */
module TlsOverride {
  import opened Options

  newtype byte = x: int | 0 <= x < 256
  type Text = seq<byte>

  class CertPool {
    var certs: seq<nat>

    constructor Clone(p: CertPool)
      ensures certs == p.certs
    {
      certs := p.certs;
    }
  }

  /** A certificate struct; `key` stands for the caller-owned private key, `leaf` for the parsed copy. */
  datatype Certificate = Certificate(
    chain: array<array<byte>>, algorithms: array<nat>, staple: array<byte>, timestamps: array<array<byte>>,
    key: nat, leaf: Option<nat>)

  class TlsConfig {
    var serverName: Text
    var rootCAs: CertPool?
    var clientCAs: CertPool?
    var nextProtos: array<Text>
    var cipherSuites: array<nat>
    var curves: array<nat>
    var echList: array<byte>
    var certificates: array<Certificate>
    var collaborators: nat  // callbacks, caches, clocks, writers: shared with the caller by contract

    /** `tls.Config.Clone`: a new struct sharing every slice and pool. */
    constructor Shallow(t: TlsConfig)
      ensures serverName == t.serverName && rootCAs == t.rootCAs && clientCAs == t.clientCAs
      ensures nextProtos == t.nextProtos && cipherSuites == t.cipherSuites && curves == t.curves
      ensures echList == t.echList && certificates == t.certificates && collaborators == t.collaborators
    {
      serverName, rootCAs, clientCAs := t.serverName, t.rootCAs, t.clientCAs;
      nextProtos, cipherSuites, curves := t.nextProtos, t.cipherSuites, t.curves;
      echList, certificates, collaborators := t.echList, t.certificates, t.collaborators;
    }

    /** The assignments of `cloneTLSConfig` to the copied struct. */
    method Replace(
      rootCAs: CertPool?, clientCAs: CertPool?, nextProtos: array<Text>, cipherSuites: array<nat>,
      curves: array<nat>, echList: array<byte>, certificates: array<Certificate>)
      modifies this
      ensures this.rootCAs == rootCAs && this.clientCAs == clientCAs && this.nextProtos == nextProtos
      ensures this.cipherSuites == cipherSuites && this.curves == curves && this.echList == echList
      ensures this.certificates == certificates
      ensures serverName == old(serverName) && collaborators == old(collaborators)
    {
      this.rootCAs, this.clientCAs, this.nextProtos := rootCAs, clientCAs, nextProtos;
      this.cipherSuites, this.curves, this.echList := cipherSuites, curves, echList;
      this.certificates := certificates;
    }
  }

  // ---- Contents ------------------------------------------------------------------------------

  datatype CertValue = CertValue(
    chain: seq<Text>, algorithms: seq<nat>, staple: Text, timestamps: seq<Text>, key: nat)

  datatype TlsValue = TlsValue(
    serverName: Text, rootCAs: Option<seq<nat>>, clientCAs: Option<seq<nat>>, nextProtos: seq<Text>,
    cipherSuites: seq<nat>, curves: seq<nat>, echList: Text, certificates: seq<CertValue>, collaborators: nat)

  ghost predicate Holds<T>(a: array<T>, v: seq<T>, repr: set<object>)
    reads repr
  {
    a in repr && a[..] == v
  }

  ghost predicate SlicesHold(a: array<array<byte>>, v: seq<Text>, repr: set<object>)
    reads repr
  {
    a in repr && a.Length == |v| && forall i | 0 <= i < a.Length :: Holds(a[i], v[i], repr)
  }

  ghost predicate CertHolds(c: Certificate, v: CertValue, repr: set<object>)
    reads repr
  {
    && SlicesHold(c.chain, v.chain, repr)
    && Holds(c.algorithms, v.algorithms, repr)
    && Holds(c.staple, v.staple, repr)
    && SlicesHold(c.timestamps, v.timestamps, repr)
    && c.key == v.key
  }

  ghost predicate PoolHolds(p: CertPool?, v: Option<seq<nat>>, repr: set<object>)
    reads repr
  {
    if p == null then v.None? else p in repr && v == Some(p.certs)
  }

  ghost predicate CertsHold(a: array<Certificate>, v: seq<CertValue>, repr: set<object>)
    reads repr
  {
    a in repr && a.Length == |v| && forall i | 0 <= i < a.Length :: CertHolds(a[i], v[i], repr)
  }

  ghost predicate PartsHold(
    rootCAs: CertPool?, clientCAs: CertPool?, nextProtos: array<Text>, cipherSuites: array<nat>, curves: array<nat>,
    echList: array<byte>, certificates: array<Certificate>, v: TlsValue, parts: set<object>)
    reads parts
  {
    && PoolHolds(rootCAs, v.rootCAs, parts)
    && PoolHolds(clientCAs, v.clientCAs, parts)
    && Holds(nextProtos, v.nextProtos, parts)
    && Holds(cipherSuites, v.cipherSuites, parts)
    && Holds(curves, v.curves, parts)
    && Holds(echList, v.echList, parts)
    && CertsHold(certificates, v.certificates, parts)
  }

  ghost predicate TlsHolds(t: TlsConfig, v: TlsValue, parts: set<object>)
    reads t, parts
  {
    && t !in parts
    && t.serverName == v.serverName
    && t.collaborators == v.collaborators
    && PartsHold(t.rootCAs, t.clientCAs, t.nextProtos, t.cipherSuites, t.curves, t.echList, t.certificates, v, parts)
  }

  // ---- Copies --------------------------------------------------------------------------------

  /** `append([]T(nil), input...)` */
  method CopySlice<T>(input: array<T>) returns (r: array<T>)
    ensures fresh(r) && r[..] == input[..]
  {
    r := new T[input.Length](i requires 0 <= i < input.Length reads input => input[i]);
  }

  method CloneByteSlices(input: array<array<byte>>, ghost v: seq<Text>, ghost from: set<object>)
    returns (r: array<array<byte>>, ghost repr: set<object>)
    requires SlicesHold(input, v, from)
    ensures fresh(repr) && SlicesHold(r, v, repr)
  {
    var none := new byte[0];
    r := new array<byte>[input.Length](_ => none);
    repr := {r};
    for i := 0 to input.Length
      invariant fresh(repr) && r in repr && r.Length == input.Length
      invariant forall j | 0 <= j < i :: Holds(r[j], v[j], repr)
      invariant SlicesHold(input, v, from)
    {
      assert Holds(input[i], v[i], from);
      var copy := CopySlice(input[i]);
      r[i] := copy;
      repr := repr + {copy};
    }
  }

  method ClonePool(p: CertPool?, ghost v: Option<seq<nat>>, ghost from: set<object>)
    returns (r: CertPool?, ghost repr: set<object>)
    requires PoolHolds(p, v, from)
    ensures fresh(repr) && PoolHolds(r, v, repr)
  {
    if p == null { return null, {}; }
    r := new CertPool.Clone(p);
    repr := {r};
  }

  /** The body of the certificate loop: every slice is copied, the parsed leaf is dropped. */
  method CloneCertificate(c: Certificate, ghost v: CertValue, ghost from: set<object>)
    returns (r: Certificate, ghost repr: set<object>)
    requires CertHolds(c, v, from)
    ensures fresh(repr) && CertHolds(r, v, repr) && r.leaf.None?
  {
    var chain, chainRepr := CloneByteSlices(c.chain, v.chain, from);
    var algorithms := CopySlice(c.algorithms);
    var staple := CopySlice(c.staple);
    var timestamps, timestampsRepr := CloneByteSlices(c.timestamps, v.timestamps, from);
    r := Certificate(chain, algorithms, staple, timestamps, c.key, None);
    repr := chainRepr + timestampsRepr + {algorithms, staple};
    SlicesGrow(chain, v.chain, chainRepr, repr);
    SlicesGrow(timestamps, v.timestamps, timestampsRepr, repr);
  }

  lemma SlicesGrow(a: array<array<byte>>, v: seq<Text>, small: set<object>, big: set<object>)
    requires SlicesHold(a, v, small) && small <= big
    ensures SlicesHold(a, v, big)
  {
  }

  lemma CertGrows(c: Certificate, v: CertValue, small: set<object>, big: set<object>)
    requires CertHolds(c, v, small) && small <= big
    ensures CertHolds(c, v, big)
  {
  }

  lemma CertsGrow(a: array<Certificate>, v: seq<CertValue>, small: set<object>, big: set<object>)
    requires CertsHold(a, v, small) && small <= big
    ensures CertsHold(a, v, big)
  {
  }

  /** Copies the certificate slice and then, in place, every certificate in it. */
  method CloneCertificates(input: array<Certificate>, ghost v: seq<CertValue>, ghost from: set<object>)
    returns (r: array<Certificate>, ghost repr: set<object>)
    requires CertsHold(input, v, from)
    ensures fresh(repr) && CertsHold(r, v, repr)
    ensures forall i | 0 <= i < r.Length :: r[i].leaf.None?
  {
    hide CertHolds;
    r := CopySlice(input);
    ghost var copies := {};  // what the copied certificates are stored in, apart from the slice itself
    for i := 0 to r.Length
      invariant fresh(copies) && r !in copies && r.Length == input.Length
      invariant CertsHold(input, v, from)
      invariant forall j | i <= j < r.Length :: r[j] == input[j]
      invariant forall j | 0 <= j < i :: CertHolds(r[j], v[j], copies) && r[j].leaf.None?
    {
      assert CertHolds(input[i], v[i], from);
      var copy, copyRepr := CloneCertificate(r[i], v[i], from);
      ghost var grown := copies + copyRepr;
      forall j | 0 <= j < i ensures CertHolds(r[j], v[j], grown) { CertGrows(r[j], v[j], copies, grown); }
      CertGrows(copy, v[i], copyRepr, grown);
      r[i] := copy;
      copies := grown;
    }
    repr := copies + {r};
    forall j | 0 <= j < r.Length ensures CertHolds(r[j], v[j], repr) { CertGrows(r[j], v[j], copies, repr); }
  }

  method CopyLists(input: TlsConfig, ghost v: TlsValue, ghost from: set<object>)
    returns (nextProtos: array<Text>, cipherSuites: array<nat>, curves: array<nat>, echList: array<byte>, ghost parts: set<object>)
    requires Holds(input.nextProtos, v.nextProtos, from) && Holds(input.cipherSuites, v.cipherSuites, from)
    requires Holds(input.curves, v.curves, from) && Holds(input.echList, v.echList, from)
    ensures fresh(parts)
    ensures Holds(nextProtos, v.nextProtos, parts) && Holds(cipherSuites, v.cipherSuites, parts)
    ensures Holds(curves, v.curves, parts) && Holds(echList, v.echList, parts)
  {
    nextProtos := CopySlice(input.nextProtos);
    cipherSuites := CopySlice(input.cipherSuites);
    curves := CopySlice(input.curves);
    echList := CopySlice(input.echList);
    parts := {nextProtos, cipherSuites, curves, echList};
  }

  /** The copy has the contents of the original, in storage of its own, and no parsed leaves. */
  method CloneTLSConfig(input: TlsConfig, ghost v: TlsValue, ghost from: set<object>)
    returns (r: TlsConfig, ghost parts: set<object>)
    requires TlsHolds(input, v, from)
    ensures fresh(parts) && fresh(r) && TlsHolds(r, v, parts)
    ensures forall i | 0 <= i < r.certificates.Length :: r.certificates[i].leaf.None?
  {
    hide CertsHold;
    r := new TlsConfig.Shallow(input);
    var roots, rootsRepr := ClonePool(input.rootCAs, v.rootCAs, from);
    var clients, clientsRepr := ClonePool(input.clientCAs, v.clientCAs, from);
    var nextProtos, cipherSuites, curves, echList, lists := CopyLists(input, v, from);
    var certificates, certsRepr := CloneCertificates(input.certificates, v.certificates, from);
    parts := lists + rootsRepr + clientsRepr + certsRepr;
    CertsGrow(certificates, v.certificates, certsRepr, parts);
    assert PartsHold(roots, clients, nextProtos, cipherSuites, curves, echList, certificates, v, parts);
    assert r !in parts;
    r.Replace(roots, clients, nextProtos, cipherSuites, curves, echList, certificates);
  }

  /** The server name a host gets: the caller's, or else its own. */
  function ForHost(v: TlsValue, host: Text): TlsValue {
    if v.serverName == [] then v.(serverName := host) else v
  }

  method TlsConfigForHost(input: TlsConfig, host: Text, ghost v: TlsValue, ghost from: set<object>)
    returns (r: TlsConfig, ghost parts: set<object>)
    requires TlsHolds(input, v, from)
    ensures fresh(parts) && fresh(r) && TlsHolds(r, ForHost(v, host), parts)
    ensures r.serverName == if input.serverName == [] then host else input.serverName
  {
    r, parts := CloneTLSConfig(input, v, from);
    if |r.serverName| == 0 { r.serverName := host; }
    assert PartsHold(r.rootCAs, r.clientCAs, r.nextProtos, r.cipherSuites, r.curves, r.echList, r.certificates, v, parts);
  }

  /** Writes a caller may later make to storage of its own: any at all. */
  method CallerWrites(storage: set<object>)
    modifies storage
  {
  }

  /** Isolation: after the copy, no write to the caller's configuration, slices, certificate bytes or
      pools changes what the host was given. */
  method LaterWritesDoNotReachCopy(input: TlsConfig, host: Text, ghost v: TlsValue, from: set<object>)
    returns (r: TlsConfig, ghost parts: set<object>)
    requires TlsHolds(input, v, from)
    modifies input, from
    ensures TlsHolds(r, ForHost(v, host), parts)
  {
    r, parts := TlsConfigForHost(input, host, v, from);
    CallerWrites(from + {input});
  }

  // ---- Every host ----------------------------------------------------------------------------

  class Fallback {
    var host: Text
    var tls: TlsConfig?

    constructor (host: Text)
      ensures this.host == host && tls == null
    {
      this.host, tls := host, null;
    }
  }

  /** The host has a configuration of its own, stored in `store`, with the override's contents. */
  ghost predicate Overridden(tls: TlsConfig?, host: Text, v: TlsValue, store: set<object>)
    reads store
  {
    tls != null && tls in store && TlsHolds(tls, ForHost(v, host), store - {tls})
  }

  method OverrideHost(f: Fallback, input: TlsConfig, ghost v: TlsValue, ghost from: set<object>)
    returns (ghost store: set<object>)
    requires TlsHolds(input, v, from)
    modifies f`tls
    ensures fresh(store) && Overridden(f.tls, f.host, v, store)
  {
    var copy, parts := TlsConfigForHost(input, f.host, v, from);
    f.tls := copy;
    store := parts + {copy};
    assert store - {copy} == parts;
  }

  /** Overrides one fallback after another; a pointer that occurs twice is overridden twice. Every
      host ends up with fresh storage, shared with no other host. */
  method OverrideFallbacks(fallbacks: seq<Fallback?>, input: TlsConfig, ghost v: TlsValue, ghost from: set<object>)
    returns (ghost stores: map<Fallback, set<object>>)
    requires null !in fallbacks
    requires TlsHolds(input, v, from) && forall f | f in fallbacks :: f !in from
    modifies (set f: Fallback | f in fallbacks)`tls
    ensures forall f: Fallback | f in fallbacks ::
              f in stores && Overridden(f.tls, f.host, v, stores[f])
    ensures forall f | f in stores :: fresh(stores[f])
    ensures forall f, g | f in stores && g in stores && f != g :: stores[f] !! stores[g]
  {
    hide TlsHolds;
    stores := map[];
    for i := 0 to |fallbacks|
      invariant TlsHolds(input, v, from)
      invariant forall j | 0 <= j < i :: fallbacks[j] in stores
      invariant forall f | f in stores :: f in fallbacks && fresh(stores[f]) && Overridden(f.tls, f.host, v, stores[f])
      invariant forall f, g | f in stores && g in stores && f != g :: stores[f] !! stores[g]
    {
      var f: Fallback := fallbacks[i];
      var store := OverrideHost(f, input, v, from);
      assert forall g | g in stores :: stores[g] !! store;
      stores := stores[f := store];
    }
  }

  method ClearFallbacks(fallbacks: seq<Fallback?>)
    requires null !in fallbacks
    modifies (set f: Fallback | f in fallbacks)`tls
    ensures forall f: Fallback | f in fallbacks :: f.tls == null
  {
    for i := 0 to |fallbacks|
      invariant forall j | 0 <= j < i :: fallbacks[j].tls == null
    {
      var f: Fallback := fallbacks[i];
      f.tls := null;
    }
  }
}
