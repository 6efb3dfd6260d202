/** The search loops both generations of `Webspace` run over the records of every
    webspace before changing their own: TXT-record verification, domain uniqueness
    and the external-port scan of `AddPort`. Go map iteration order is unspecified,
    so the port scan visits each map's keys in an arbitrary order. */
module Lookups {
  import opened Util

  /** The TXT-record check: every record is visited, and any exact match verifies. */
  method AnyEquals(records: seq<string>, correct: string) returns (verified: bool)
    ensures verified <==> correct in records
  {
    verified := false;
    for i := 0 to |records|
      invariant verified <==> correct in records[..i]
    {
      if records[i] == correct {
        verified := true;
      }
    }
    assert records[..|records|] == records;
  }

  /** Whether some webspace already lists `domain`. */
  predicate Listed(domainLists: seq<seq<string>>, domain: string) {
    exists i :: 0 <= i < |domainLists| && domain in domainLists[i]
  }

  lemma ListedSnoc(domainLists: seq<seq<string>>, ds: seq<string>, domain: string)
    ensures Listed(domainLists + [ds], domain) <==> Listed(domainLists, domain) || domain in ds
  {
    if Listed(domainLists, domain) {
      var i :| 0 <= i < |domainLists| && domain in domainLists[i];
      assert (domainLists + [ds])[i] == domainLists[i];
    }
    if domain in ds {
      assert (domainLists + [ds])[|domainLists|] == ds;
    }
  }

  /** The nested scan of `AddDomain`, returning at the first hit. */
  method DomainListed(domainLists: seq<seq<string>>, domain: string) returns (used: bool)
    ensures used <==> Listed(domainLists, domain)
  {
    for i := 0 to |domainLists|
      invariant !Listed(domainLists[..i], domain)
    {
      var ds := domainLists[i];
      for j := 0 to |ds|
        invariant domain !in ds[..j]
      {
        if ds[j] == domain {
          assert domainLists[i] == ds;
          return true;
        }
      }
      assert ds[..|ds|] == ds;
      assert domainLists[..i + 1] == domainLists[..i] + [ds];
      ListedSnoc(domainLists[..i], ds, domain);
    }
    assert domainLists[..|domainLists|] == domainLists;
    return false;
  }

  /** Whether some webspace forwards external port `p`. */
  predicate Forwarded(portMaps: seq<map<uint16, uint16>>, p: uint16) {
    exists i :: 0 <= i < |portMaps| && p in portMaps[i]
  }

  /** How many forwards the webspaces hold together. */
  function PortCount(portMaps: seq<map<uint16, uint16>>): nat {
    if portMaps == [] then 0 else PortCount(portMaps[..|portMaps| - 1]) + |portMaps[|portMaps| - 1]|
  }

  /** Every forwarded port, counted once per webspace that forwards it. */
  function PortMultiset(portMaps: seq<map<uint16, uint16>>): multiset<uint16> {
    if portMaps == [] then multiset{}
    else PortMultiset(portMaps[..|portMaps| - 1]) + multiset(portMaps[|portMaps| - 1].Keys)
  }

  /** The ports of a scan, one group per webspace in order. */
  function Concat(parts: seq<seq<uint16>>): seq<uint16> {
    if parts == [] then [] else Concat(parts[..|parts| - 1]) + parts[|parts| - 1]
  }

  /** `parts[i]` lists the keys of the `i`th webspace's map once each, in the
      order a `range` over that map met them. */
  ghost predicate ScanParts(parts: seq<seq<uint16>>, portMaps: seq<map<uint16, uint16>>) {
    |parts| == |portMaps| && forall i :: 0 <= i < |parts| ==> multiset(parts[i]) == multiset(portMaps[i].Keys)
  }

  /** An order the nested scan can collect the used ports in: the webspaces in
      turn, each contributing all its keys in some map order. */
  ghost predicate ScanOrder(order: seq<uint16>, portMaps: seq<map<uint16, uint16>>) {
    exists parts :: ScanParts(parts, portMaps) && order == Concat(parts)
  }

  /** A webspace's keys are never interleaved with another's: with `{1002}` met
      before `{1001}`, the only order the scan can collect is `[1002, 1001]`. */
  lemma ScanOrderGroups(order: seq<uint16>)
    requires ScanOrder(order, [map[1002 := 80], map[1001 := 80]])
    ensures order == [1002, 1001]
  {
    var portMaps: seq<map<uint16, uint16>> := [map[1002 := 80], map[1001 := 80]];
    var parts :| ScanParts(parts, portMaps) && order == Concat(parts);
    assert multiset(parts[0]) == multiset{1002};
    assert multiset(parts[1]) == multiset{1001};
    SingleKey(parts[0], 1002);
    SingleKey(parts[1], 1001);
    assert parts[..1][..0] == [];
    assert Concat(parts[..1]) == parts[0];
    assert Concat(parts) == Concat(parts[..1]) + parts[1];
  }

  /** The only sequence holding exactly one `k` is `[k]`. */
  lemma SingleKey(s: seq<uint16>, k: uint16)
    requires multiset(s) == multiset{k}
    ensures s == [k]
  {
    assert |s| == |multiset(s)| == 1;
    assert s[0] in multiset(s);
  }

  /** The scan of `AddPort`: report a clash when any webspace forwards `external`
      already; when `external` is 0, also collect every forwarded port, webspace
      by webspace, each map's keys in whatever order the iteration yields them. */
  method ScanPorts(portMaps: seq<map<uint16, uint16>>, external: uint16) returns (clash: bool, allPorts: seq<uint16>)
    ensures clash <==> Forwarded(portMaps, external)
    ensures !clash && external == 0 ==> ScanOrder(allPorts, portMaps)
    ensures !clash && external == 0 ==> multiset(allPorts) == PortMultiset(portMaps)
    ensures !clash && external == 0 ==> |allPorts| == PortCount(portMaps)
    ensures !clash && external == 0 ==> forall p :: p in allPorts <==> Forwarded(portMaps, p)
  {
    allPorts := [];
    ghost var parts: seq<seq<uint16>> := [];
    for i := 0 to |portMaps|
      invariant !Forwarded(portMaps[..i], external)
      invariant external == 0 ==> ScanParts(parts, portMaps[..i]) && allPorts == Concat(parts)
      invariant external == 0 ==> multiset(allPorts) == PortMultiset(portMaps[..i])
      invariant external == 0 ==> |allPorts| == PortCount(portMaps[..i])
      invariant external == 0 ==> forall p :: p in allPorts <==> Forwarded(portMaps[..i], p)
    {
      var m := portMaps[i];
      var hit;
      ghost var before := allPorts;
      hit, allPorts := ScanKeys(m, external, allPorts);
      if hit {
        assert portMaps[i] == m;
        return true, allPorts;
      }
      assert portMaps[..i + 1][..i] == portMaps[..i];
      assert portMaps[..i + 1][i] == m;
      ForwardedSnoc(portMaps[..i], m);
      assert portMaps[..i + 1] == portMaps[..i] + [m];
      assert PortMultiset(portMaps[..i + 1]) == PortMultiset(portMaps[..i]) + multiset(m.Keys);
      if external == 0 {
        PartsSnoc(parts, portMaps[..i], before, allPorts, m);
        parts := parts + [allPorts[|before|..]];
      }
    }
    assert portMaps[..|portMaps|] == portMaps;
    return false, allPorts;
  }

  /** Appending one webspace's keys to a scan order extends its groups by one. */
  lemma PartsSnoc(parts: seq<seq<uint16>>, portMaps: seq<map<uint16, uint16>>, before: seq<uint16>,
                  after: seq<uint16>, m: map<uint16, uint16>)
    requires ScanParts(parts, portMaps) && before == Concat(parts)
    requires |before| <= |after| && after[..|before|] == before
    requires multiset(after[|before|..]) == multiset(m.Keys)
    ensures ScanParts(parts + [after[|before|..]], portMaps + [m])
    ensures after == Concat(parts + [after[|before|..]])
  {
    var next := parts + [after[|before|..]];
    assert next[..|parts|] == parts;
    assert after == before + after[|before|..];
  }

  /** One webspace's turn in the scan of `AddPort`: stop on `external`; when
      `external` is 0, append the keys of `m` to `before`. */
  method ScanKeys(m: map<uint16, uint16>, external: uint16, before: seq<uint16>) returns (hit: bool, after: seq<uint16>)
    ensures hit <==> external in m
    ensures !hit && external == 0 ==> |before| <= |after| && after[..|before|] == before
    ensures !hit && external == 0 ==> multiset(after[|before|..]) == multiset(m.Keys)
    ensures !hit && external == 0 ==> multiset(after) == multiset(before) + multiset(m.Keys)
    ensures !hit && external == 0 ==> |after| == |before| + |m.Keys|
    ensures !hit && external == 0 ==> forall p :: p in after <==> p in before || p in m
  {
    var keys := m.Keys;
    // The keys appended so far, in the order the iteration met them.
    var met: seq<uint16> := [];
    while keys != {}
      invariant keys <= m.Keys
      invariant external !in m.Keys - keys
      invariant external == 0 ==> multiset(met) == multiset(m.Keys - keys) && |met| == |m.Keys - keys|
      decreases |keys|
    {
      var e :| e in keys;
      if e == external {
        return true, before + met;
      }
      if external == 0 {
        met := met + [e];
      }
      assert m.Keys - (keys - {e}) == (m.Keys - keys) + {e};
      keys := keys - {e};
    }
    assert m.Keys - keys == m.Keys;
    hit, after := false, before + met;
    assert after[..|before|] == before && after[|before|..] == met;
    if external == 0 {
      forall p ensures p in after <==> p in before || p in m {
        assert p in met <==> p in multiset(met);
      }
    }
  }

  lemma ForwardedSnoc(portMaps: seq<map<uint16, uint16>>, m: map<uint16, uint16>)
    ensures forall p :: Forwarded(portMaps + [m], p) <==> Forwarded(portMaps, p) || p in m
    ensures PortCount(portMaps + [m]) == PortCount(portMaps) + |m|
  {
    assert (portMaps + [m])[..|portMaps|] == portMaps;
    forall p | Forwarded(portMaps, p) ensures Forwarded(portMaps + [m], p) {
      var i :| 0 <= i < |portMaps| && p in portMaps[i];
      assert (portMaps + [m])[i] == portMaps[i];
    }
    forall p | p in m ensures Forwarded(portMaps + [m], p) {
      assert (portMaps + [m])[|portMaps|] == m;
    }
  }
}
