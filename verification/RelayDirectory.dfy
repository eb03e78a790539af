/** The directory of advertised relay ports, shared with the status page. */
module RelayDirectories {
  import opened Bytes
  import opened SessionNames

  datatype PortKind = PdpKind | PtpKind

  /** One advertised port. */
  datatype Key = Key(mac: Mac, kind: PortKind, port: Port)

  datatype PortSet = PortSet(pdp: seq<Port>, ptp: seq<Port>) {
    function Of(kind: PortKind): seq<Port> { if kind == PdpKind then pdp else ptp }

    function With(kind: PortKind, ports: seq<Port>): PortSet {
      if kind == PdpKind then this.(pdp := ports) else this.(ptp := ports)
    }
  }

  ghost predicate StrictlyIncreasing(s: seq<Port>) {
    forall i, j :: 0 <= i < j < |s| ==> s[i] < s[j]
  }

  /** `std::lower_bound` on a port vector. */
  method LowerBound(ports: seq<Port>, port: Port) returns (it: nat)
    requires StrictlyIncreasing(ports)
    ensures it <= |ports|
    ensures forall i :: 0 <= i < it ==> ports[i] < port
    ensures forall i :: it <= i < |ports| ==> port <= ports[i]
  {
    it := 0;
    var hi := |ports|;
    while it < hi
      invariant it <= hi <= |ports|
      invariant forall i :: 0 <= i < it ==> ports[i] < port
      invariant forall i :: hi <= i < |ports| ==> port <= ports[i]
    {
      var mid := (it + hi) / 2;
      if ports[mid] < port { it := mid + 1; } else { hi := mid; }
    }
  }

  /** `std::find` on a port vector. */
  method FindPort(ports: seq<Port>, port: Port) returns (it: nat)
    ensures it <= |ports|
    ensures it < |ports| ==> ports[it] == port
    ensures it == |ports| ==> port !in ports
  {
    it := 0;
    while it < |ports| && ports[it] != port
      invariant it <= |ports| && port !in ports[..it]
    {
      it := it + 1;
    }
  }

  lemma InsertKeepsOrder(s: seq<Port>, it: nat, p: Port)
    requires StrictlyIncreasing(s) && it <= |s|
    requires forall i :: 0 <= i < it ==> s[i] < p
    requires forall i :: it <= i < |s| ==> p < s[i]
    ensures StrictlyIncreasing(s[..it] + [p] + s[it..])
    ensures forall q :: q in s[..it] + [p] + s[it..] <==> q in s || q == p
  {
    var t := s[..it] + [p] + s[it..];
    assert s == s[..it] + s[it..];
    assert p in t;
    forall q | q in s ensures q in t {
      assert q in s[..it] || q in s[it..];
    }
  }

  lemma EraseKeepsOrder(s: seq<Port>, it: nat)
    requires StrictlyIncreasing(s) && it < |s|
    ensures StrictlyIncreasing(s[..it] + s[it + 1..])
    ensures forall q :: q in s[..it] + s[it + 1..] <==> q in s && q != s[it]
  {
    var t := s[..it] + s[it + 1..];
    forall q | q in s && q != s[it] ensures q in t {
      var i :| 0 <= i < |s| && s[i] == q;
      assert t[if i < it then i else i - 1] == q;
    }
  }

  /** The triples that a table of port vectors advertises. */
  ghost function Triples(table: map<Mac, PortSet>): set<Key> {
    (set m, p | m in table && p in table[m].pdp :: Key(m, PdpKind, p))
    + (set m, p | m in table && p in table[m].ptp :: Key(m, PtpKind, p))
  }

  ghost predicate Lists(table: map<Mac, PortSet>, k: Key) {
    k.mac in table && k.port in table[k.mac].Of(k.kind)
  }

  lemma InTriples(table: map<Mac, PortSet>, k: Key)
    ensures k in Triples(table) <==> Lists(table, k)
  {
  }

  lemma TriplesAfter(table: map<Mac, PortSet>, after: map<Mac, PortSet>, key: Key, present: bool)
    requires forall k :: Lists(after, k) <==> if k == key then present else Lists(table, k)
    ensures Triples(after) == if present then Triples(table) + {key} else Triples(table) - {key}
  {
    forall k ensures k in Triples(after) <==> if k == key then present else k in Triples(table) {
      InTriples(table, k);
      InTriples(after, k);
    }
  }

  class RelayDirectory {
    var by_mac_: map<Mac, PortSet>

    ghost predicate Valid()
      reads this
    {
      forall m :: m in by_mac_ ==>
        && StrictlyIncreasing(by_mac_[m].pdp) && StrictlyIncreasing(by_mac_[m].ptp)
        && (by_mac_[m].pdp != [] || by_mac_[m].ptp != [])
    }

    /** The directory as the set of triples it advertises. */
    ghost function Ports(): set<Key>
      reads this
    {
      Triples(by_mac_)
    }

    constructor ()
      ensures Valid() && Ports() == {}
    {
      by_mac_ := map[];
    }

    /** True exactly when the triple is new; afterwards it is advertised and nothing else changed. */
    method Add(mac: Mac, kind: PortKind, port: Port) returns (added: bool)
      requires Valid()
      modifies this
      ensures Valid()
      ensures added <==> Key(mac, kind, port) !in old(Ports())
      ensures Ports() == old(Ports()) + {Key(mac, kind, port)}
    {
      ghost var was, key := by_mac_, Key(mac, kind, port);
      InTriples(was, key);
      var portSet := if mac in by_mac_ then by_mac_[mac] else PortSet([], []);
      var ports := portSet.Of(kind);
      var it := LowerBound(ports, port);
      if it != |ports| && ports[it] == port {
        added := false;
      } else {
        assert port !in ports;
        InsertKeepsOrder(ports, it, port);
        by_mac_ := by_mac_[mac := portSet.With(kind, ports[..it] + [port] + ports[it..])];
        added := true;
        TriplesAfter(was, by_mac_, key, true);
      }
    }

    /** Exactly the given triple goes. */
    method Remove(mac: Mac, kind: PortKind, port: Port)
      requires Valid()
      modifies this
      ensures Valid()
      ensures Ports() == old(Ports()) - {Key(mac, kind, port)}
    {
      ghost var was, key := by_mac_, Key(mac, kind, port);
      InTriples(was, key);
      if mac !in by_mac_ {
        return;
      }
      var portSet := by_mac_[mac];
      var ports := portSet.Of(kind);
      var it := FindPort(ports, port);
      if it != |ports| {
        EraseKeepsOrder(ports, it);
        portSet := portSet.With(kind, ports[..it] + ports[it + 1..]);
      }
      if portSet.pdp == [] && portSet.ptp == [] {
        by_mac_ := by_mac_ - {mac};
      } else {
        by_mac_ := by_mac_[mac := portSet];
      }
      TriplesAfter(was, by_mac_, key, false);
    }

    /** Absent exactly when the address advertises no port of either kind. */
    method Find(mac: Mac) returns (r: Option<PortSet>)
      requires Valid()
      ensures r.None? <==> forall kind, p :: Key(mac, kind, p) !in Ports()
      ensures r == if mac in by_mac_ then Some(by_mac_[mac]) else None
      ensures r.Some? ==>
        && StrictlyIncreasing(r.value.pdp) && StrictlyIncreasing(r.value.ptp)
        && forall kind, p :: p in r.value.Of(kind) <==> Key(mac, kind, p) in Ports()
    {
      forall kind, p ensures Key(mac, kind, p) in Ports() <==> Lists(by_mac_, Key(mac, kind, p)) {
        InTriples(by_mac_, Key(mac, kind, p));
      }
      if mac !in by_mac_ {
        r := None;
      } else {
        r := Some(by_mac_[mac]);
        ghost var kind := if r.value.pdp != [] then PdpKind else PtpKind;
        assert r.value.Of(kind)[0] in r.value.Of(kind);
        assert Key(mac, kind, r.value.Of(kind)[0]) in Ports();
      }
    }
  }
}
