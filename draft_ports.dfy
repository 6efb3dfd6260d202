/** Port-forward bookkeeping of the older generation (webspaced/internal/webspace/ports.go):
    the same map of forwards with no Kubernetes Service to mirror. A forward is
    listening from `Add` until it is stopped; `Shutdown` stops every listener but
    keeps the map. */
module DraftPorts {
  import opened Util
  import opened Errors
  import Ports

  /** On every port outside `skip`, `after` is `before` trimmed to the ports some
      webspace of `all` uses. */
  ghost predicate TrimmedOutside(before: map<uint16, Ports.Forward>, after: map<uint16, Ports.Forward>,
                                 all: seq<map<uint16, uint16>>, skip: set<uint16>)
  {
    (forall e :: e !in skip ==> (e in after <==> e in before && Ports.UsedBySome(all, e)))
    && (forall e :: e !in skip && e in after ==> after[e] == before[e])
  }

  /** Every listener `AddAll` opens for `ports` comes up. */
  predicate ListensAll(ports: map<uint16, uint16>, listen: uint16 -> Option<Error>) {
    forall e :: e in ports ==> listen(e).None?
  }

  /** The older generation mirrors no port into a Kubernetes Service. */
  function NoService(e: uint16): Ports.K8sReply {
    Ports.K8sReply(None, None)
  }

  /** The listeners after the rounds of `AddAll` on the ports in `run`, in order:
      a round opens its port's listener or leaves it closed. */
  ghost function ListeningAfter(l: set<uint16>, listen: uint16 -> Option<Error>, run: seq<uint16>): set<uint16> {
    if run == [] then l
    else
      var e := run[|run| - 1];
      var before := ListeningAfter(l, listen, run[..|run| - 1]);
      if listen(e).None? then before + {e} else before - {e}
  }

  /** After the rounds on `run`, a port of `run` listens exactly when its listener
      came up, and any other port listens as it did before. */
  lemma {:induction false} ListeningAfterAt(l: set<uint16>, listen: uint16 -> Option<Error>, run: seq<uint16>, d: uint16)
    ensures d in run ==> (d in ListeningAfter(l, listen, run) <==> listen(d).None?)
    ensures d !in run ==> (d in ListeningAfter(l, listen, run) <==> d in l)
  {
    if run != [] {
      var init := run[..|run| - 1];
      assert run == init + [run[|run| - 1]];
      ListeningAfterAt(l, listen, init, d);
    }
  }

  /** After the first `n` rounds of `AddAll`, a port whose round ran listens exactly
      when it has a forward, and every other port listens as before. */
  lemma ListeningFollowsForwards(fw: map<uint16, Ports.Forward>, l: set<uint16>, ports: map<uint16, uint16>, addr: string,
                                 listen: uint16 -> Option<Error>, order: seq<uint16>, n: nat)
    requires forall k :: 0 <= k < |order| ==> order[k] in ports
    requires Ports.RangeOver(order, ports.Keys) && n <= |order|
    ensures var f := Ports.ForwardsOutcome(fw, ports, addr, listen, order, n);
            var after := ListeningAfter(l, listen, order[..n]);
            (forall e :: e !in order[..n] ==> (e in after <==> e in l))
            && (forall e :: e in order[..n] ==> (e in after <==> e in f))
  {
    Ports.ForwardsOutcomeInstalled(fw, ports, addr, listen, order, n);
    forall e {
      ListeningAfterAt(l, listen, order[..n], e);
    }
  }

  class PortsManager {
    var forwards: map<uint16, Ports.Forward>
    /** The external ports whose listener is open. */
    var listening: set<uint16>

    /** Only a recorded forward can be listening. */
    predicate Valid()
      reads this
    {
      listening <= forwards.Keys
    }

    constructor ()
      ensures Valid() && forwards == map[] && listening == {}
    {
      forwards := map[];
      listening := {};
    }

    /** `Add`: refuse a forwarded port, open the listener, record the forward. */
    method Add(e: uint16, backend: Option<string>, hook: Ports.Hook, listen: Option<Error>) returns (err: Option<Error>)
      requires Valid()
      modifies this
      ensures Valid()
      ensures e in old(forwards) ==> err == Some(Root(Used)) && forwards == old(forwards) && listening == old(listening)
      ensures e !in old(forwards) && listen.Some? ==> err == listen && forwards == old(forwards) && listening == old(listening)
      ensures e !in old(forwards) && listen.None? ==>
        err.None? && forwards == old(forwards)[e := Ports.Forward(e, backend, hook)] && listening == old(listening) + {e}
    {
      if e in forwards {
        return Some(Root(Used));
      }
      if listen.Some? {
        return listen;
      }
      listening := listening + {e};
      forwards := forwards[e := Ports.Forward(e, backend, hook)];
      return None;
    }

    /** `Remove`: refuse an unknown port, otherwise stop and forget its forward. */
    method Remove(e: uint16) returns (err: Option<Error>)
      requires Valid()
      modifies this
      ensures Valid()
      ensures e !in old(forwards) ==> err == Some(Root(NotFound)) && forwards == old(forwards) && listening == old(listening)
      ensures e in old(forwards) ==> err.None? && forwards == old(forwards) - {e} && listening == old(listening) - {e}
    {
      if e !in forwards {
        return Some(Root(NotFound));
      }
      listening := listening - {e};
      forwards := forwards - {e};
      return None;
    }

    /** `Trim`: refuse when two webspaces share an external port; otherwise remove
        exactly the forwards no webspace uses. */
    method Trim(all: seq<map<uint16, uint16>>) returns (err: Option<Error>)
      requires Valid()
      modifies this
      ensures Valid()
      ensures err.Some? <==> exists p :: Ports.SharedPort(all, p)
      ensures err.Some? ==> forwards == old(forwards) && listening == old(listening)
      ensures err.Some? ==>
        exists p: uint16 :: Ports.SharedPort(all, p) && err == Some(Foreign("more than one webspace uses external port " + DecimalString(p)))
      ensures err.None? ==> forall e :: e in forwards <==> e in old(forwards) && Ports.UsedBySome(all, e)
      ensures forall e :: e in forwards ==> forwards[e] == old(forwards)[e]
      ensures err.None? ==> forall e :: e in listening <==> e in old(listening) && Ports.UsedBySome(all, e)
    {
      var shared, allPorts := Ports.CollectPorts(all);
      if shared.Some? {
        return Some(Foreign("more than one webspace uses external port " + DecimalString(shared.value)));
      }
      var rest := forwards.Keys - allPorts;
      ghost var fw0 := forwards;
      ghost var l0 := listening;
      while rest != {}
        invariant Valid()
        invariant rest <= forwards.Keys
        invariant forall e :: e in rest ==> e !in allPorts
        invariant forall e :: e in forwards <==> e in fw0 && (e in allPorts || e in rest)
        invariant forall e :: e in forwards ==> forwards[e] == fw0[e]
        invariant forall e :: e in listening <==> e in l0 && (e in allPorts || e in rest)
        decreases |rest|
      {
        var e :| e in rest;
        var _ := Remove(e);
        rest := rest - {e};
      }
      return None;
    }

    /** One round of `AddAll`: drop any forward on `e`, then add the forward
        towards `addr` while the loop variable holds `internal`: the newer
        generation's round without a Service. */
    method Readd(e: uint16, internal: uint16, addr: string, listen: Option<Error>) returns (err: Option<Error>)
      requires Valid()
      modifies this
      ensures Valid()
      ensures forwards == Ports.ReaddForward(old(forwards), e, internal, addr, listen)
      ensures err == listen
      ensures listening == if err.None? then old(listening) + {e} else old(listening) - {e}
    {
      if e in forwards {
        var _ := Remove(e);
      }
      var f := Ports.ForwardFor(e, internal, addr);
      err := Add(e, f.backend, f.hook, listen);
    }

    /** `AddAll`: for each port of the webspace, in Go map order (`order`), drop an
        existing forward and add it again; stop at the first failure, after
        `rounds` rounds. As in the newer generation, the internal port is one loop
        variable for all rounds, and every hook of a stopped webspace reads it
        after `AddAll` has returned. */
    method AddAll(ports: map<uint16, uint16>, addr: string, listen: uint16 -> Option<Error>)
      returns (err: Option<Error>, ghost order: seq<uint16>, ghost rounds: nat)
      requires Valid()
      modifies this
      ensures Valid()
      ensures Ports.RangeOver(order, ports.Keys) && forall k :: 0 <= k < |order| ==> order[k] in ports
      ensures rounds == Ports.RoundsRun(false, listen, NoService, order)
      ensures Ports.Progress(forwards, [], err) == Ports.AddAllOutcome(false, old(forwards), [], ports, addr, listen, NoService, order)
      ensures err.None? <==> ListensAll(ports, listen)
      ensures err.None? ==> Ports.AddedAll(forwards, ports, addr)
      ensures Ports.SameOutside(old(forwards), forwards, ports.Keys)
      ensures forall e :: e !in order[..rounds] ==> (e in listening <==> e in old(listening))
      ensures forall e :: e in order[..rounds] ==> (e in listening <==> e in forwards)
    {
      ghost var fw0, l0 := forwards, listening;
      var keys := Ports.RangeOrder(ports.Keys);
      order := keys;
      var added, j := ReaddEach(ports, addr, listen, keys);
      // Go's `i` ends on the last round run.
      if j > 0 {
        ShareLoopVariable(keys[..j], addr, ports[keys[j - 1]]);
      }
      err := if added.Some? then Some(Wrap("failed to add port forward for: ", added.value)) else None;
      rounds := j;
      Ports.ServiceAfterHas(false, [], listen, NoService, keys[..j]);
      Ports.AddAllOutcomeSummary(false, fw0, [], ports, addr, listen, NoService, keys);
      ListeningFollowsForwards(fw0, l0, ports, addr, listen, keys, j);
    }

    /** The loop of `AddAll` over the keys in `order`, met once each: one `Readd`
        per key, up to and including the first that fails, after `rounds` rounds.
        A port whose round ran listens exactly when it has a forward. */
    method ReaddEach(ports: map<uint16, uint16>, addr: string, listen: uint16 -> Option<Error>, order: seq<uint16>)
      returns (err: Option<Error>, rounds: nat)
      requires Valid()
      requires forall k :: 0 <= k < |order| ==> order[k] in ports
      modifies this
      ensures Valid()
      ensures rounds == Ports.RoundsRun(false, listen, NoService, order)
      ensures forwards == Ports.ForwardsAfter(old(forwards), ports, addr, listen, order[..rounds])
      ensures err == if 0 < rounds && Ports.RoundFails(false, order[rounds - 1], listen, NoService)
                     then Some(Ports.RoundError(false, order[rounds - 1], listen, NoService)) else None
      ensures listening == ListeningAfter(old(listening), listen, order[..rounds])
    {
      ghost var fw0, l0 := forwards, listening;
      var j := 0;
      while j < |order|
        invariant j <= |order| && Valid()
        invariant Ports.RoundsRun(false, listen, NoService, order) == j + Ports.RoundsRun(false, listen, NoService, order[j..])
        invariant 0 < j ==> !Ports.RoundFails(false, order[j - 1], listen, NoService)
        invariant forwards == Ports.ForwardsAfter(fw0, ports, addr, listen, order[..j])
        invariant listening == ListeningAfter(l0, listen, order[..j])
      {
        var e := order[j];
        assert order[j..][0] == e && order[j..][1..] == order[j + 1..];
        assert order[..j + 1][..j] == order[..j] && order[..j + 1][j] == e;
        err := Readd(e, ports[e], addr, listen(e));
        if err.Some? {
          return err, j + 1;
        }
        j := j + 1;
      }
      assert order[j..] == [];
      return None, j;
    }

    /** The loop variable of `AddAll` ends holding `shared`: every start-then-connect
        hook installed on `done` reads it. */
    method ShareLoopVariable(done: seq<uint16>, addr: string, shared: uint16)
      requires Valid()
      modifies this
      ensures Valid()
      ensures forwards == Ports.ShareHooks(old(forwards), addr, done, shared)
      ensures listening == old(listening)
    {
      if addr == "" {
        forwards := map e | e in forwards :: if e in done then forwards[e].(hook := Ports.StartThenConnect(shared)) else forwards[e];
      }
    }

    /** `Shutdown`: stop every listener; the forwards stay recorded. */
    method Shutdown()
      requires Valid()
      modifies this
      ensures Valid()
      ensures forwards == old(forwards) && listening == {}
    {
      var rest := forwards.Keys;
      while rest != {}
        invariant forwards == old(forwards)
        invariant rest <= forwards.Keys
        invariant listening <= rest
        decreases |rest|
      {
        var e :| e in rest;
        listening := listening - {e};
        rest := rest - {e};
      }
    }
  }
}
