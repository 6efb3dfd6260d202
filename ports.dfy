/** Port-forward bookkeeping of the current generation (internal/webspace/ports.go).
    The manager keeps one forward per external port and, when a Kubernetes Service is
    configured, mirrors the forwarded ports into that Service's port list. Opening a
    listener and every Kubernetes call are replies handed to the operations; the
    conflict-retry loop around the Service update is folded into one reply. */
module Ports {
  import opened Util
  import opened Errors

  /** What a forward does before connecting a client: nothing, or start the webspace
      and then connect to its address at the internal port. */
  datatype Hook = NoHook | StartThenConnect(internal: uint16)

  /** An active forward: its external port, the backend address if already known,
      and its hook. */
  datatype Forward = Forward(ePort: uint16, backend: Option<string>, hook: Hook)

  /** An entry of the Service's `spec.ports`. */
  datatype ServicePort = ServicePort(name: string, port: int, protocol: string, targetPort: int)

  /** Replies of the Service `Get` and `Update` calls (`None` is success). */
  datatype K8sReply = K8sReply(get: Option<Error>, update: Option<Error>)

  /** The Service entry a forward of external port `e` owns. */
  function ServicePortFor(e: uint16): (sp: ServicePort)
    ensures sp.port == e && sp.targetPort == e && sp.protocol == "TCP"
    ensures sp.name == "ws-fwd-" + DecimalString(e)
  {
    ServicePort("ws-fwd-" + DecimalString(e), e, "TCP", e)
  }

  predicate HasPort(ps: seq<ServicePort>, e: int) {
    exists i :: 0 <= i < |ps| && ps[i].port == e
  }

  /** The Service port list after `Add`: every entry on port `e` is overwritten by
      the forward's entry, or the entry is appended when none was there. */
  function Upserted(ps: seq<ServicePort>, e: uint16): seq<ServicePort> {
    if HasPort(ps, e) then seq(|ps|, i requires 0 <= i < |ps| => if ps[i].port == e then ServicePortFor(e) else ps[i])
    else ps + [ServicePortFor(e)]
  }

  /** `Upserted` lists the forward's entry, overwrites every entry on its port,
      appends only when there was none, and keeps every other entry in place. */
  lemma UpsertedSound(ps: seq<ServicePort>, e: uint16)
    ensures var r := Upserted(ps, e);
            ServicePortFor(e) in r
            && |r| == (if HasPort(ps, e) then |ps| else |ps| + 1)
            && (forall i :: 0 <= i < |ps| && ps[i].port != e ==> r[i] == ps[i])
            && (forall i :: 0 <= i < |r| && r[i].port == e ==> r[i] == ServicePortFor(e))
            && (forall sp :: sp in ps && sp.port != e ==> sp in r)
  {
    var r := Upserted(ps, e);
    if HasPort(ps, e) {
      var k :| 0 <= k < |ps| && ps[k].port == e;
      assert r[k] == ServicePortFor(e);
      forall sp | sp in ps && sp.port != e ensures sp in r {
        var j :| 0 <= j < |ps| && ps[j] == sp;
        assert r[j] == sp;
      }
    } else {
      assert r[|ps|] == ServicePortFor(e);
    }
  }

  /** The overwrite-or-append loop of `Add` over the Service's port list. */
  method UpsertServicePort(ps: seq<ServicePort>, e: uint16) returns (r: seq<ServicePort>)
    ensures r == Upserted(ps, e)
  {
    r := ps;
    var existing := false;
    for i := 0 to |ps|
      invariant |r| == |ps|
      invariant forall k :: 0 <= k < i ==> r[k] == if ps[k].port == e then ServicePortFor(e) else ps[k]
      invariant forall k :: i <= k < |ps| ==> r[k] == ps[k]
      invariant existing <==> exists k :: 0 <= k < i && ps[k].port == e
    {
      if r[i].port == e {
        r := r[i := ServicePortFor(e)];
        existing := true;
      }
    }
    if !existing {
      r := r + [ServicePortFor(e)];
    }
  }

  /** Index of the first Service entry on port `e`. */
  function FirstPortIndex(ps: seq<ServicePort>, e: int): (i: nat)
    requires HasPort(ps, e)
    ensures i < |ps| && ps[i].port == e
    ensures forall k :: 0 <= k < i ==> ps[k].port != e
  {
    if ps[0].port == e then 0
    else
      assert HasPort(ps[1..], e) by {
        var k :| 0 <= k < |ps| && ps[k].port == e;
        assert ps[1..][k - 1] == ps[k];
      }
      1 + FirstPortIndex(ps[1..], e)
  }

  /** The search loop of `Remove`: the first index on port `e`, or -1. */
  method FindPortIndex(ps: seq<ServicePort>, e: uint16) returns (index: int)
    ensures index == -1 <==> !HasPort(ps, e)
    ensures index != -1 ==> index == FirstPortIndex(ps, e)
  {
    index := -1;
    for i := 0 to |ps|
      invariant forall k :: 0 <= k < i ==> ps[k].port != e
    {
      if ps[i].port == e {
        index := i;
        break;
      }
    }
  }

  /** The Service port list after a `Remove` that touches Kubernetes. */
  function ServiceAfterRemove(ps: seq<ServicePort>, e: uint16): (r: seq<ServicePort>)
    ensures HasPort(ps, e) ==> |r| == |ps| - 1 && multiset(r) == multiset(ps) - multiset{ps[FirstPortIndex(ps, e)]}
    ensures !HasPort(ps, e) ==> r == ps
  {
    if HasPort(ps, e) then
      SwapRemoveContents(ps, FirstPortIndex(ps, e));
      SwapRemove(ps, FirstPortIndex(ps, e))
    else ps
  }

  /** Removing port `e`'s entry keeps every other port's entries. */
  lemma {:induction false} ServiceAfterRemoveKeepsOthers(ps: seq<ServicePort>, e: uint16, sp: ServicePort)
    requires sp.port != e
    ensures multiset(ServiceAfterRemove(ps, e))[sp] == multiset(ps)[sp]
    ensures HasPort(ServiceAfterRemove(ps, e), sp.port) <==> HasPort(ps, sp.port)
  {
    var r := ServiceAfterRemove(ps, e);
    if HasPort(ps, e) {
      assert ps[FirstPortIndex(ps, e)] != sp;
      var p := sp.port;
      if HasPort(ps, p) {
        var k :| 0 <= k < |ps| && ps[k].port == p;
        assert ps[k] in multiset(ps);
        assert ps[k] != ps[FirstPortIndex(ps, e)];
        assert ps[k] in multiset(r);
        var j :| 0 <= j < |r| && r[j] == ps[k];
      }
      if HasPort(r, p) {
        var k :| 0 <= k < |r| && r[k].port == p;
        assert r[k] in multiset(r);
        assert r[k] in multiset(ps);
        var j :| 0 <= j < |ps| && ps[j] == r[k];
      }
    }
  }

  /** How many Service entries are on port `p`. */
  function CountOn(ps: seq<ServicePort>, p: int): nat {
    if ps == [] then 0 else CountOn(ps[..|ps| - 1], p) + if ps[|ps| - 1].port == p then 1 else 0
  }

  lemma {:induction false} CountOnHas(ps: seq<ServicePort>, p: int)
    ensures CountOn(ps, p) > 0 <==> HasPort(ps, p)
  {
    if ps != [] {
      var init := ps[..|ps| - 1];
      CountOnHas(init, p);
      if HasPort(init, p) {
        var k :| 0 <= k < |init| && init[k].port == p;
        assert ps[k].port == p;
      }
      if HasPort(ps, p) && ps[|ps| - 1].port != p {
        var k :| 0 <= k < |ps| && ps[k].port == p;
        assert init[k].port == p;
      }
    }
  }

  lemma {:induction false} CountOnUpdate(ps: seq<ServicePort>, k: nat, x: ServicePort, p: int)
    requires k < |ps|
    ensures CountOn(ps[k := x], p) + (if ps[k].port == p then 1 else 0) == CountOn(ps, p) + (if x.port == p then 1 else 0)
  {
    var last := |ps| - 1;
    if k == last {
      assert ps[k := x][..last] == ps[..last];
    } else {
      assert ps[k := x][..last] == ps[..last][k := x];
      CountOnUpdate(ps[..last], k, x, p);
    }
  }

  /** Removing port `e`'s entry takes exactly one entry off port `e`, when it has
      one, and leaves the count on every other port. */
  lemma CountAfterRemove(ps: seq<ServicePort>, e: uint16, p: int)
    ensures CountOn(ServiceAfterRemove(ps, e), p) + (if p == e && HasPort(ps, e) then 1 else 0) == CountOn(ps, p)
  {
    if HasPort(ps, e) {
      var i := FirstPortIndex(ps, e);
      var last := |ps| - 1;
      var updated := ps[i := ps[last]];
      CountOnUpdate(ps, i, ps[last], p);
      assert updated[last] == ps[last];
      assert updated[..last] == SwapRemove(ps, i);
    }
  }

  function UpdateError(e: Error): Error {
    Wrap("failed to update Kubernetes Service: ", e)
  }

  function GetError(e: Error): Error {
    UpdateError(Wrap("failed to get Kubernetes Service: ", e))
  }

  /** The outcome of the Service update in `Add`. */
  function AddK8sError(k8s: K8sReply): (err: Option<Error>)
    ensures err.None? <==> k8s.get.None? && k8s.update.None?
  {
    if k8s.get.Some? then Some(GetError(k8s.get.value))
    else if k8s.update.Some? then Some(UpdateError(k8s.update.value))
    else None
  }

  /** The outcome of the Service update in `Remove`: no `Update` is sent when the
      Service has no entry on the port. */
  function RemoveK8sError(ps: seq<ServicePort>, e: uint16, k8s: K8sReply): (err: Option<Error>)
    ensures err.None? <==> k8s.get.None? && (HasPort(ps, e) ==> k8s.update.None?)
  {
    if k8s.get.Some? then Some(GetError(k8s.get.value))
    else if HasPort(ps, e) && k8s.update.Some? then Some(UpdateError(k8s.update.value))
    else None
  }

  /** The forward `AddAll` installs for external port `e` of a webspace reachable at
      `addr` ("" while it is not running). */
  function ForwardFor(e: uint16, internal: uint16, addr: string): (f: Forward)
    ensures f.ePort == e
    ensures addr != "" ==> f.backend == Some(addr + ":" + DecimalString(internal)) && f.hook == NoHook
    ensures addr == "" ==> f.backend == None && f.hook == StartThenConnect(internal)
  {
    if addr != "" then Forward(e, Some(addr + ":" + DecimalString(internal)), NoHook)
    else Forward(e, None, StartThenConnect(internal))
  }

  /** Whether two webspaces claim the same external port. */
  predicate SharedPort(all: seq<map<uint16, uint16>>, p: uint16) {
    exists i, j :: 0 <= i < j < |all| && p in all[i] && p in all[j]
  }

  predicate UsedBySome(all: seq<map<uint16, uint16>>, p: uint16) {
    exists i :: 0 <= i < |all| && p in all[i]
  }

  /** The forward a round of `AddAll` leaves on external port `e` once the loop
      variable `i` holds `shared`. A running webspace's backend is resolved from
      `i` within the round; a stopped webspace's hook reads `i` only when a client
      connects. A `range` loop of Go before 1.22 has one `i` for all its rounds,
      so that hook dials the internal port of the round the loop ended on. */
  function ForwardAsWritten(e: uint16, internal: uint16, addr: string, shared: uint16): (f: Forward)
    ensures f.ePort == e && f.backend == ForwardFor(e, internal, addr).backend
  {
    if addr != "" then ForwardFor(e, internal, addr) else ForwardFor(e, shared, addr)
  }

  /** The forward as written is the one intended for the port exactly when the
      webspace is running or the loop ended on a round with the same internal port. */
  lemma ForwardAsWrittenAgrees(e: uint16, internal: uint16, addr: string, shared: uint16)
    ensures ForwardAsWritten(e, internal, addr, shared) == ForwardFor(e, internal, addr) <==> addr != "" || shared == internal
  {
    if addr == "" && shared != internal {
      assert ForwardAsWritten(e, internal, addr, shared).hook.internal == shared;
    }
  }

  /** Every external port of `ports` has the forward a round of `AddAll` leaves
      for it, the loop variable having ended on `shared`. */
  predicate ForwardsAll(fw: map<uint16, Forward>, ports: map<uint16, uint16>, addr: string, shared: uint16) {
    forall e :: e in ports ==> e in fw && fw[e] == ForwardAsWritten(e, ports[e], addr, shared)
  }

  /** What a successful `AddAll` leaves for a webspace's ports: their forwards as
      written, with every hook sharing the internal port of one of them. */
  predicate AddedAll(fw: map<uint16, Forward>, ports: map<uint16, uint16>, addr: string) {
    ports == map[] || exists last :: last in ports && ForwardsAll(fw, ports, addr, ports[last])
  }

  /** For a running webspace, `AddAll` leaves every port the forward intended for it. */
  lemma AddedAllRunning(fw: map<uint16, Forward>, ports: map<uint16, uint16>, addr: string)
    requires addr != ""
    ensures AddedAll(fw, ports, addr) <==> forall e :: e in ports ==> e in fw && fw[e] == ForwardFor(e, ports[e], addr)
  {
    if forall e :: e in ports ==> e in fw && fw[e] == ForwardFor(e, ports[e], addr) {
      if ports != map[] {
        var last :| last in ports;
        assert ForwardsAll(fw, ports, addr, ports[last]);
      }
    }
  }

  /** Outside `ports`, the forward table is as it was. */
  ghost predicate SameOutside(before: map<uint16, Forward>, after: map<uint16, Forward>, ports: set<uint16>) {
    (forall e :: e !in ports ==> (e in after <==> e in before))
    && (forall e :: e !in ports && e in after ==> after[e] == before[e])
  }

  /** The Service entries follow the forwards that went from `before` to `after`:
      every port whose forward stayed keeps its entries, each as often as before,
      and a port whose forward went lost one entry, when a Service is configured
      (`named`) and had one. */
  ghost predicate EntriesFollow(before: map<uint16, Forward>, after: map<uint16, Forward>,
                                svcBefore: seq<ServicePort>, svcAfter: seq<ServicePort>, named: bool)
  {
    (forall sp: ServicePort :: sp.port !in before.Keys - after.Keys ==> multiset(svcAfter)[sp] == multiset(svcBefore)[sp])
    && (forall e :: e in before && e !in after ==>
          CountOn(svcAfter, e) + (if named && HasPort(svcBefore, e) then 1 else 0) == CountOn(svcBefore, e))
  }

  /** Each port of `done` has the forward a round of `AddAll` leaves for it, the
      loop variable now holding `shared`. */
  ghost predicate Installed(fw: map<uint16, Forward>, ports: map<uint16, uint16>, addr: string, done: set<uint16>, shared: uint16) {
    forall d :: d in done ==> d in ports && d in fw && fw[d] == ForwardAsWritten(d, ports[d], addr, shared)
  }

  /** Each port of `done` has its own forward, as `ForwardFor` builds it. */
  ghost predicate InstalledOwn(fw: map<uint16, Forward>, ports: map<uint16, uint16>, addr: string, done: set<uint16>) {
    forall d :: d in done ==> d in ports && d in fw && fw[d] == ForwardFor(d, ports[d], addr)
  }

  /** The Service lists the entry of each port of `done`. */
  ghost predicate ServiceHas(svc: seq<ServicePort>, done: set<uint16>) {
    forall d :: d in done ==> ServicePortFor(d) in svc
  }

  /** The keys of a Go map in the order a `range` over it meets them: each once. */
  ghost predicate RangeOver(order: seq<uint16>, keys: set<uint16>) {
    multiset(order) == multiset(keys)
  }

  /** A `range` over a map with keys `keys`, in an order the runtime leaves open. */
  method RangeOrder(keys: set<uint16>) returns (order: seq<uint16>)
    ensures RangeOver(order, keys)
    ensures forall k :: 0 <= k < |order| ==> order[k] in keys
  {
    order := [];
    var rest := keys;
    while rest != {}
      invariant rest <= keys
      invariant multiset(order) == multiset(keys - rest)
      invariant forall k :: 0 <= k < |order| ==> order[k] in keys
      decreases |rest|
    {
      var e :| e in rest;
      assert keys - (rest - {e}) == (keys - rest) + {e};
      order := order + [e];
      rest := rest - {e};
    }
    assert keys - rest == keys;
  }

  /** The keys met by the first `n` rounds of a `range`. */
  ghost function Rounds(order: seq<uint16>, n: nat): set<uint16>
    requires n <= |order|
  {
    set x | x in order[..n]
  }

  /** A `range` meets no key twice. */
  lemma RangeDistinct(order: seq<uint16>, keys: set<uint16>, i: nat, j: nat)
    requires RangeOver(order, keys) && i < j < |order|
    ensures order[i] != order[j]
  {
    var y := order[j];
    assert order == order[..j] + order[j..];
    assert order[j..][0] == y;
    assert multiset(order) == multiset(order[..j]) + multiset(order[j..]);
    assert y in multiset(order);
    assert multiset(keys)[y] == 1;
    assert multiset(order[..j])[y] == 0;
    assert order[..j][i] == order[i];
  }

  /** Once every round of a `range` has run, every key has had its round. */
  lemma RoundsAll(order: seq<uint16>, keys: set<uint16>)
    requires RangeOver(order, keys)
    ensures Rounds(order, |order|) == keys
  {
    assert order[..|order|] == order;
    forall x ensures x in Rounds(order, |order|) <==> x in keys {
      assert x in order <==> x in multiset(order);
    }
  }

  /** The state `AddAll` works on, and the error it ends with. */
  datatype Progress = Progress(forwards: map<uint16, Forward>, svcPorts: seq<ServicePort>, err: Option<Error>)

  /** Whether the round of `AddAll` on port `e` fails; `named` tells whether a
      Kubernetes Service is configured. */
  predicate RoundFails(named: bool, e: uint16, listen: uint16 -> Option<Error>, k8s: uint16 -> K8sReply) {
    listen(e).Some? || (named && AddK8sError(k8s(e)).Some?)
  }

  /** The error of a failing round of `AddAll`: the listener's, else the Service update's. */
  function RoundError(named: bool, e: uint16, listen: uint16 -> Option<Error>, k8s: uint16 -> K8sReply): Error
    requires RoundFails(named, e, listen, k8s)
  {
    if listen(e).Some? then listen(e).value else AddK8sError(k8s(e)).value
  }

  /** The forward table after a round of `AddAll` on port `e`: `Remove(e, false)`
      drops any forward on `e`, then `Add` installs the one `ForwardFor` gives
      unless its listener, whose reply is `listen`, fails. */
  function ReaddForward(fw: map<uint16, Forward>, e: uint16, internal: uint16, addr: string, listen: Option<Error>): (r: map<uint16, Forward>)
    ensures listen.None? ==> e in r && r[e] == ForwardFor(e, internal, addr)
    ensures listen.Some? ==> e !in r
    ensures SameOutside(fw, r, {e})
  {
    if listen.Some? then fw - {e} else fw[e := ForwardFor(e, internal, addr)]
  }

  /** The Service port list after a round of `AddAll` on port `e`: only a round
      whose listener and Service update both succeed changes it. */
  function ReaddService(named: bool, svc: seq<ServicePort>, e: uint16, listen: Option<Error>, k8s: K8sReply): seq<ServicePort> {
    if named && listen.None? && AddK8sError(k8s).None? then Upserted(svc, e) else svc
  }

  /** The forward table after the rounds of `AddAll` on the ports in `run`, in order. */
  function ForwardsAfter(fw: map<uint16, Forward>, ports: map<uint16, uint16>, addr: string, listen: uint16 -> Option<Error>,
                         run: seq<uint16>): map<uint16, Forward>
    requires forall k :: 0 <= k < |run| ==> run[k] in ports
  {
    if run == [] then fw
    else
      var e := run[|run| - 1];
      ReaddForward(ForwardsAfter(fw, ports, addr, listen, run[..|run| - 1]), e, ports[e], addr, listen(e))
  }

  /** The Service port list after the rounds of `AddAll` on the ports in `run`, in order. */
  function ServiceAfter(named: bool, svc: seq<ServicePort>, listen: uint16 -> Option<Error>, k8s: uint16 -> K8sReply,
                        run: seq<uint16>): seq<ServicePort>
  {
    if run == [] then svc
    else
      var e := run[|run| - 1];
      ReaddService(named, ServiceAfter(named, svc, listen, k8s, run[..|run| - 1]), e, listen(e), k8s(e))
  }

  /** How many rounds `AddAll` runs over `order`: up to and including the first that fails. */
  function RoundsRun(named: bool, listen: uint16 -> Option<Error>, k8s: uint16 -> K8sReply, order: seq<uint16>): (n: nat)
    ensures n <= |order|
    ensures forall k :: 0 <= k < n - 1 ==> !RoundFails(named, order[k], listen, k8s)
    ensures n < |order| ==> 0 < n && RoundFails(named, order[n - 1], listen, k8s)
    decreases |order|
  {
    if order == [] then 0
    else if RoundFails(named, order[0], listen, k8s) then 1
    else 1 + RoundsRun(named, listen, k8s, order[1..])
  }

  /** The ports of the rounds in `run` whose listener came up: they hold a forward. */
  ghost function Kept(listen: uint16 -> Option<Error>, run: seq<uint16>): set<uint16> {
    set d | d in run && listen(d).None?
  }

  /** Every start-then-connect hook installed on the ports in `done` reads the loop
      variable, which ends holding `shared`. */
  function ShareHooks(fw: map<uint16, Forward>, addr: string, done: seq<uint16>, shared: uint16): map<uint16, Forward> {
    if addr != "" then fw
    else map e | e in fw :: if e in done then fw[e].(hook := StartThenConnect(shared)) else fw[e]
  }

  /** The forward table after the first `n` rounds of `AddAll` over `order`, with
      the hooks they installed sharing the internal port of the last of them. */
  function ForwardsOutcome(fw: map<uint16, Forward>, ports: map<uint16, uint16>, addr: string,
                           listen: uint16 -> Option<Error>, order: seq<uint16>, n: nat): map<uint16, Forward>
    requires forall k :: 0 <= k < |order| ==> order[k] in ports
    requires n <= |order|
  {
    var after := ForwardsAfter(fw, ports, addr, listen, order[..n]);
    if n == 0 then after else ShareHooks(after, addr, order[..n], ports[order[n - 1]])
  }

  /** The outcome of `AddAll` over a webspace's `ports`, met in `order`: the
      rounds it runs, the hooks they installed sharing the internal port of the
      last of them, and the error of a failing last round, wrapped. */
  function AddAllOutcome(named: bool, fw: map<uint16, Forward>, svc: seq<ServicePort>, ports: map<uint16, uint16>, addr: string,
                         listen: uint16 -> Option<Error>, k8s: uint16 -> K8sReply, order: seq<uint16>): Progress
    requires forall k :: 0 <= k < |order| ==> order[k] in ports
  {
    var n := RoundsRun(named, listen, k8s, order);
    Progress(ForwardsOutcome(fw, ports, addr, listen, order, n),
             ServiceAfter(named, svc, listen, k8s, order[..n]),
             if n > 0 && RoundFails(named, order[n - 1], listen, k8s)
             then Some(Wrap("failed to add port forward for: ", RoundError(named, order[n - 1], listen, k8s)))
             else None)
  }

  /** The first `j` rounds of `AddAll` over `order` have run and succeeded, taking
      the forward table from `fw0` to `fw` and the Service list from `ps0` to `svc`. */
  ghost predicate Ran(named: bool, fw0: map<uint16, Forward>, ps0: seq<ServicePort>, fw: map<uint16, Forward>, svc: seq<ServicePort>,
                      ports: map<uint16, uint16>, addr: string, listen: uint16 -> Option<Error>, k8s: uint16 -> K8sReply,
                      order: seq<uint16>, j: nat)
    requires forall k :: 0 <= k < |order| ==> order[k] in ports
  {
    j <= |order|
    && RoundsRun(named, listen, k8s, order) == j + RoundsRun(named, listen, k8s, order[j..])
    && (0 < j ==> !RoundFails(named, order[j - 1], listen, k8s))
    && fw == ForwardsAfter(fw0, ports, addr, listen, order[..j])
    && svc == ServiceAfter(named, ps0, listen, k8s, order[..j])
  }

  /** The loop of `AddAll` over `order` has ended after `rounds` rounds, with the
      error of the last of them if it failed, having taken the forward table from
      `fw0` to `fw` and the Service list from `ps0` to `svc`. */
  ghost predicate Ended(named: bool, fw0: map<uint16, Forward>, ps0: seq<ServicePort>, fw: map<uint16, Forward>, svc: seq<ServicePort>,
                        ports: map<uint16, uint16>, addr: string, listen: uint16 -> Option<Error>, k8s: uint16 -> K8sReply,
                        order: seq<uint16>, rounds: nat, err: Option<Error>)
    requires forall k :: 0 <= k < |order| ==> order[k] in ports
  {
    rounds == RoundsRun(named, listen, k8s, order)
    && fw == ForwardsAfter(fw0, ports, addr, listen, order[..rounds])
    && svc == ServiceAfter(named, ps0, listen, k8s, order[..rounds])
    && err == if 0 < rounds && RoundFails(named, order[rounds - 1], listen, k8s)
              then Some(RoundError(named, order[rounds - 1], listen, k8s)) else None
  }

  /** Round `j` of `AddAll` over `order` extends the rounds before it by one, and
      is the last round run when it fails. */
  lemma RoundStep(named: bool, fw0: map<uint16, Forward>, ps0: seq<ServicePort>, fw: map<uint16, Forward>, svc: seq<ServicePort>,
                  ports: map<uint16, uint16>, addr: string, listen: uint16 -> Option<Error>, k8s: uint16 -> K8sReply,
                  order: seq<uint16>, j: nat)
    requires forall k :: 0 <= k < |order| ==> order[k] in ports
    requires j < |order| && Ran(named, fw0, ps0, fw, svc, ports, addr, listen, k8s, order, j)
    ensures var e := order[j];
            var fw1 := ReaddForward(fw, e, ports[e], addr, listen(e));
            var svc1 := ReaddService(named, svc, e, listen(e), k8s(e));
            (RoundFails(named, e, listen, k8s) ==>
               Ended(named, fw0, ps0, fw1, svc1, ports, addr, listen, k8s, order, j + 1, Some(RoundError(named, e, listen, k8s))))
            && (!RoundFails(named, e, listen, k8s) ==> Ran(named, fw0, ps0, fw1, svc1, ports, addr, listen, k8s, order, j + 1))
  {
    assert order[..j + 1][..j] == order[..j] && order[..j + 1][j] == order[j];
    assert order[j..][0] == order[j] && order[j..][1..] == order[j + 1..];
  }

  /** Once every round of `AddAll` over `order` has run and succeeded, the rounds run are all of them. */
  lemma RanAll(named: bool, fw0: map<uint16, Forward>, ps0: seq<ServicePort>, fw: map<uint16, Forward>, svc: seq<ServicePort>,
               ports: map<uint16, uint16>, addr: string, listen: uint16 -> Option<Error>, k8s: uint16 -> K8sReply,
               order: seq<uint16>)
    requires forall k :: 0 <= k < |order| ==> order[k] in ports
    requires Ran(named, fw0, ps0, fw, svc, ports, addr, listen, k8s, order, |order|)
    ensures Ended(named, fw0, ps0, fw, svc, ports, addr, listen, k8s, order, |order|, None)
  {
    assert order[|order|..] == [];
  }

  /** Port `d`, met at most once in `run`, after the rounds on `run`: it has its
      own forward when its round ran and its listener came up, none when its
      listener failed, and the one it had when it has no round. */
  lemma {:induction false} ForwardsAfterAt(fw: map<uint16, Forward>, ports: map<uint16, uint16>, addr: string,
                                           listen: uint16 -> Option<Error>, run: seq<uint16>, d: uint16)
    requires forall k :: 0 <= k < |run| ==> run[k] in ports
    requires multiset(run)[d] <= 1
    ensures var f := ForwardsAfter(fw, ports, addr, listen, run);
            (d in run && listen(d).None? ==> d in ports && d in f && f[d] == ForwardFor(d, ports[d], addr))
            && (d in run && listen(d).Some? ==> d !in f)
            && (d !in run ==> (d in f <==> d in fw) && (d in fw ==> f[d] == fw[d]))
  {
    if run != [] {
      var init := run[..|run| - 1];
      var e := run[|run| - 1];
      assert run == init + [e];
      assert multiset(run) == multiset(init) + multiset{e};
      if d != e {
        ForwardsAfterAt(fw, ports, addr, listen, init, d);
      } else {
        assert e in run;
      }
    }
  }

  /** With a Service, rounds that all succeed leave the entry of each of their
      ports in it; without one, the Service list is untouched. */
  lemma {:induction false} ServiceAfterHas(named: bool, svc: seq<ServicePort>, listen: uint16 -> Option<Error>, k8s: uint16 -> K8sReply,
                                           run: seq<uint16>)
    ensures !named ==> ServiceAfter(named, svc, listen, k8s, run) == svc
    ensures named && (forall k :: 0 <= k < |run| ==> !RoundFails(named, run[k], listen, k8s)) ==>
              ServiceHas(ServiceAfter(named, svc, listen, k8s, run), set x | x in run)
  {
    if run != [] {
      var init := run[..|run| - 1];
      var e := run[|run| - 1];
      ServiceAfterHas(named, svc, listen, k8s, init);
      if named && forall k :: 0 <= k < |run| ==> !RoundFails(named, run[k], listen, k8s) {
        var before := ServiceAfter(named, svc, listen, k8s, init);
        var after := Upserted(before, e);
        UpsertedSound(before, e);
        forall x | x in run ensures ServicePortFor(x) in after {
          if x != e {
            assert x in init by {
              assert run == init + [e];
            }
            assert ServicePortFor(x).port != e;
          }
        }
      }
    }
  }

  /** `AddAll` fails exactly when some round does, and then reports the error of
      the first failing round, wrapped. */
  lemma AddAllOutcomeError(named: bool, fw: map<uint16, Forward>, svc: seq<ServicePort>, ports: map<uint16, uint16>,
                           addr: string, listen: uint16 -> Option<Error>, k8s: uint16 -> K8sReply, order: seq<uint16>)
    requires forall k :: 0 <= k < |order| ==> order[k] in ports
    requires RangeOver(order, ports.Keys)
    ensures var o := AddAllOutcome(named, fw, svc, ports, addr, listen, k8s, order);
            var n := RoundsRun(named, listen, k8s, order);
            (o.err.None? <==> forall e :: e in ports ==> !RoundFails(named, e, listen, k8s))
            && (o.err.None? ==> n == |order|)
            && (o.err.Some? ==> 0 < n && RoundFails(named, order[n - 1], listen, k8s)
                                && o.err == Some(Wrap("failed to add port forward for: ", RoundError(named, order[n - 1], listen, k8s))))
            && (forall k :: 0 <= k < n - 1 ==> !RoundFails(named, order[k], listen, k8s))
  {
    RangeKeys(order, ports);
  }

  /** The ports of a webspace are the keys a `range` over them meets. */
  lemma RangeKeys(order: seq<uint16>, ports: map<uint16, uint16>)
    requires RangeOver(order, ports.Keys)
    ensures forall e :: e in ports <==> exists k :: 0 <= k < |order| && order[k] == e
  {
    forall e ensures e in ports <==> exists k :: 0 <= k < |order| && order[k] == e {
      assert e in ports <==> e in multiset(order);
    }
  }

  /** After the first `n` rounds of a `range` over a webspace's ports, the ports
      whose listener came up have their own forward, those whose listener failed
      have none, and nothing else changed. */
  lemma ForwardsAfterRun(fw: map<uint16, Forward>, ports: map<uint16, uint16>, addr: string,
                         listen: uint16 -> Option<Error>, order: seq<uint16>, n: nat)
    requires forall k :: 0 <= k < |order| ==> order[k] in ports
    requires RangeOver(order, ports.Keys) && n <= |order|
    ensures var after := ForwardsAfter(fw, ports, addr, listen, order[..n]);
            InstalledOwn(after, ports, addr, Kept(listen, order[..n]))
            && (forall d :: d in order[..n] && listen(d).Some? ==> d !in after)
            && SameOutside(fw, after, Rounds(order, n))
  {
    var run := order[..n];
    assert order == run + order[n..];
    assert multiset(order) == multiset(run) + multiset(order[n..]);
    var after := ForwardsAfter(fw, ports, addr, listen, run);
    forall d ensures (d in run && listen(d).None? ==> d in ports && d in after && after[d] == ForwardFor(d, ports[d], addr))
                     && (d in run && listen(d).Some? ==> d !in after)
                     && (d !in run ==> (d in after <==> d in fw) && (d in fw ==> after[d] == fw[d]))
    {
      assert multiset(order)[d] == multiset(ports.Keys)[d];
      ForwardsAfterAt(fw, ports, addr, listen, run, d);
    }
  }

  /** Sharing the loop variable turns each port's own forward into the forward as
      written, and touches no port outside `done`. */
  lemma ShareHooksInstalled(fw: map<uint16, Forward>, ports: map<uint16, uint16>, addr: string,
                            done: seq<uint16>, shared: uint16, kept: set<uint16>)
    requires InstalledOwn(fw, ports, addr, kept)
    requires forall d :: d in kept ==> d in done
    ensures Installed(ShareHooks(fw, addr, done, shared), ports, addr, kept, shared)
    ensures ShareHooks(fw, addr, done, shared).Keys == fw.Keys
    ensures SameOutside(fw, ShareHooks(fw, addr, done, shared), set x | x in done)
  {
    var r := ShareHooks(fw, addr, done, shared);
    forall d | d in kept ensures r[d] == ForwardAsWritten(d, ports[d], addr, shared) {
      if addr == "" {
        assert d in fw && d in done && r[d] == fw[d].(hook := StartThenConnect(shared));
      }
    }
  }

  /** After the first `n` rounds of `AddAll`, each port whose round ran and whose
      listener came up has its forward as written, with the loop variable ended on
      the last round run; one whose listener failed has none; and nothing outside
      the rounds run changes. */
  lemma ForwardsOutcomeInstalled(fw: map<uint16, Forward>, ports: map<uint16, uint16>, addr: string,
                                 listen: uint16 -> Option<Error>, order: seq<uint16>, n: nat)
    requires forall k :: 0 <= k < |order| ==> order[k] in ports
    requires RangeOver(order, ports.Keys) && n <= |order|
    ensures var f := ForwardsOutcome(fw, ports, addr, listen, order, n);
            (0 < n ==> Installed(f, ports, addr, Kept(listen, order[..n]), ports[order[n - 1]]))
            && (forall d :: d in order[..n] && listen(d).Some? ==> d !in f)
            && SameOutside(fw, f, Rounds(order, n))
  {
    var after := ForwardsAfter(fw, ports, addr, listen, order[..n]);
    ForwardsAfterRun(fw, ports, addr, listen, order, n);
    if 0 < n {
      ShareHooksInstalled(after, ports, addr, order[..n], ports[order[n - 1]], Kept(listen, order[..n]));
      assert (set x | x in order[..n]) == Rounds(order, n);
    }
  }

  /** When every round of `AddAll` succeeded, every port of the webspace has its
      forward as written. */
  lemma AddAllOutcomeAdded(named: bool, fw: map<uint16, Forward>, svc: seq<ServicePort>, ports: map<uint16, uint16>,
                           addr: string, listen: uint16 -> Option<Error>, k8s: uint16 -> K8sReply, order: seq<uint16>)
    requires forall k :: 0 <= k < |order| ==> order[k] in ports
    requires RangeOver(order, ports.Keys)
    ensures var o := AddAllOutcome(named, fw, svc, ports, addr, listen, k8s, order);
            o.err.None? ==> AddedAll(o.forwards, ports, addr)
  {
    var n := RoundsRun(named, listen, k8s, order);
    var o := AddAllOutcome(named, fw, svc, ports, addr, listen, k8s, order);
    if o.err.None? {
      ForwardsOutcomeInstalled(fw, ports, addr, listen, order, n);
      AddAllOutcomeError(named, fw, svc, ports, addr, listen, k8s, order);
      RoundsAll(order, ports.Keys);
      if 0 < n {
        assert Kept(listen, order[..n]) == ports.Keys;
        assert ForwardsAll(o.forwards, ports, addr, ports[order[n - 1]]);
      } else {
        assert ports.Keys == {};
      }
    }
  }

  /** With a Service, a successful `AddAll` leaves the entry of every port of the
      webspace in it; without one, the Service list is untouched. */
  lemma AddAllOutcomeService(named: bool, fw: map<uint16, Forward>, svc: seq<ServicePort>, ports: map<uint16, uint16>,
                             addr: string, listen: uint16 -> Option<Error>, k8s: uint16 -> K8sReply, order: seq<uint16>)
    requires forall k :: 0 <= k < |order| ==> order[k] in ports
    requires RangeOver(order, ports.Keys)
    ensures var o := AddAllOutcome(named, fw, svc, ports, addr, listen, k8s, order);
            (!named ==> o.svcPorts == svc)
            && (named && o.err.None? ==> ServiceHas(o.svcPorts, ports.Keys))
  {
    var n := RoundsRun(named, listen, k8s, order);
    ServiceAfterHas(named, svc, listen, k8s, order[..n]);
    AddAllOutcomeError(named, fw, svc, ports, addr, listen, k8s, order);
    RoundsAll(order, ports.Keys);
    assert order[..|order|] == order;
  }

  /** What callers of `AddAll` rely on: it fails exactly when some round does,
      a success leaves the webspace's forwards as written, and ports outside the
      webspace keep theirs. */
  lemma AddAllOutcomeSummary(named: bool, fw: map<uint16, Forward>, svc: seq<ServicePort>, ports: map<uint16, uint16>,
                             addr: string, listen: uint16 -> Option<Error>, k8s: uint16 -> K8sReply, order: seq<uint16>)
    requires forall k :: 0 <= k < |order| ==> order[k] in ports
    requires RangeOver(order, ports.Keys)
    ensures var o := AddAllOutcome(named, fw, svc, ports, addr, listen, k8s, order);
            (o.err.None? <==> forall e :: e in ports ==> !RoundFails(named, e, listen, k8s))
            && (o.err.None? ==> AddedAll(o.forwards, ports, addr))
            && SameOutside(fw, o.forwards, ports.Keys)
  {
    AddAllOutcomeError(named, fw, svc, ports, addr, listen, k8s, order);
    ForwardsOutcomeInstalled(fw, ports, addr, listen, order, RoundsRun(named, listen, k8s, order));
    AddAllOutcomeAdded(named, fw, svc, ports, addr, listen, k8s, order);
    RoundsAll(order, ports.Keys);
    var n := RoundsRun(named, listen, k8s, order);
    assert Rounds(order, n) <= Rounds(order, |order|);
  }

  /** A stopped webspace forwarding 8080 to 80 and 2222 to 22, met by the loop in
      that order, with every listener and Service update succeeding: `AddAll`
      leaves 8080 a hook that dials internal port 22, not 80. */
  lemma SharedHookMisroutes(named: bool, fw: map<uint16, Forward>, svc: seq<ServicePort>,
                            listen: uint16 -> Option<Error>, k8s: uint16 -> K8sReply)
    requires forall e :: listen(e).None? && k8s(e) == K8sReply(None, None)
    ensures var o := AddAllOutcome(named, fw, svc, map[8080 := 80, 2222 := 22], "", listen, k8s, [8080, 2222]);
            o.err.None? && 8080 in o.forwards && o.forwards[8080].hook == StartThenConnect(22) && o.forwards[8080] != ForwardFor(8080, 80, "")
  {
    var ports := map[8080 := 80, 2222 := 22];
    var order: seq<uint16> := [8080, 2222];
    assert order[1..] == [2222] && order[1..][1..] == [];
    assert RoundsRun(named, listen, k8s, order) == 2;
    assert order[..2] == order;
    ForwardsAfterAt(fw, ports, "", listen, order, 8080);
  }

  class PortsManager {
    const svcName: string
    var forwards: map<uint16, Forward>
    /** The `spec.ports` of the configured Kubernetes Service. */
    var svcPorts: seq<ServicePort>

    constructor (svcName: string, svcPorts: seq<ServicePort>)
      ensures this.svcName == svcName && this.svcPorts == svcPorts && forwards == map[]
    {
      this.svcName := svcName;
      this.svcPorts := svcPorts;
      forwards := map[];
    }

    /** Whether `Remove(e, true)` fails on the Service update, given the Service as
        it was before a batch of removals. */
    predicate RemovalFails(ps: seq<ServicePort>, e: uint16, k8s: K8sReply) {
      svcName != "" && RemoveK8sError(ps, e, k8s).Some?
    }

    /** On every port outside `skip`, `after` is `before` trimmed to the ports some
        webspace of `all` uses; a forward whose Service entry could not be removed
        from `svc` stays. */
    ghost predicate TrimmedOutside(before: map<uint16, Forward>, after: map<uint16, Forward>, all: seq<map<uint16, uint16>>,
                             svc: seq<ServicePort>, k8s: uint16 -> K8sReply, skip: set<uint16>)
    {
      (forall e :: e !in skip ==>
         (e in after <==> e in before && (UsedBySome(all, e) || RemovalFails(svc, e, k8s(e)))))
      && (forall e :: e !in skip && e in after ==> after[e] == before[e])
    }

    /** Every listener and Service update `AddAll` makes for `ports` succeeds. */
    predicate AddsSucceed(ports: map<uint16, uint16>, listen: uint16 -> Option<Error>, k8s: uint16 -> K8sReply) {
      forall e :: e in ports ==> !RoundFails(svcName != "", e, listen, k8s)
    }

    /** `Add`: refuse a port that is already forwarded, open the listener, record the
        forward, then mirror it into the Service. A Service failure is reported but
        the forward stays. */
    method Add(e: uint16, backend: Option<string>, hook: Hook, listen: Option<Error>, k8s: K8sReply)
      returns (err: Option<Error>)
      modifies this
      ensures e in old(forwards) ==> err == Some(Root(Used)) && forwards == old(forwards) && svcPorts == old(svcPorts)
      ensures e !in old(forwards) && listen.Some? ==> err == listen && forwards == old(forwards) && svcPorts == old(svcPorts)
      ensures e !in old(forwards) && listen.None? ==>
        forwards == old(forwards)[e := Forward(e, backend, hook)]
        && err == (if svcName == "" then None else AddK8sError(k8s))
        && svcPorts == (if svcName != "" && err.None? then Upserted(old(svcPorts), e) else old(svcPorts))
    {
      if e in forwards {
        return Some(Root(Used));
      }
      if listen.Some? {
        return listen;
      }
      forwards := forwards[e := Forward(e, backend, hook)];
      if svcName != "" {
        if k8s.get.Some? {
          return Some(GetError(k8s.get.value));
        }
        var updated := UpsertServicePort(svcPorts, e);
        if k8s.update.Some? {
          return Some(UpdateError(k8s.update.value));
        }
        svcPorts := updated;
      }
      return None;
    }

    /** `Remove`: refuse an unknown port; when asked, drop the port's first entry from
        the Service (a missing entry is only warned about); then stop and forget the
        forward. A Service failure leaves everything as it was. */
    method Remove(e: uint16, updateK8s: bool, k8s: K8sReply) returns (err: Option<Error>)
      modifies this
      ensures e !in old(forwards) ==> err == Some(Root(NotFound))
      ensures e in old(forwards) ==>
        err == (if svcName != "" && updateK8s then RemoveK8sError(old(svcPorts), e, k8s) else None)
      ensures err.Some? ==> forwards == old(forwards) && svcPorts == old(svcPorts)
      ensures err.None? ==> forwards == old(forwards) - {e}
      ensures err.None? ==>
        svcPorts == (if svcName != "" && updateK8s then ServiceAfterRemove(old(svcPorts), e) else old(svcPorts))
    {
      if e !in forwards {
        return Some(Root(NotFound));
      }
      if svcName != "" && updateK8s {
        if k8s.get.Some? {
          return Some(GetError(k8s.get.value));
        }
        var index := FindPortIndex(svcPorts, e);
        if index != -1 {
          var end := |svcPorts| - 1;
          var updated := svcPorts[index := svcPorts[end]][..end];
          if k8s.update.Some? {
            return Some(UpdateError(k8s.update.value));
          }
          svcPorts := updated;
        }
      }
      forwards := forwards - {e};
      return None;
    }

    /** Remove each of `ports`, in an unspecified order, ignoring failures: a port
        whose Service update fails keeps its forward. */
    method RemoveEach(ports: set<uint16>, k8s: uint16 -> K8sReply)
      requires ports <= forwards.Keys
      modifies this
      ensures forall e :: e in forwards <==> e in old(forwards) && (e !in ports || RemovalFails(old(svcPorts), e, k8s(e)))
      ensures forall e :: e in forwards ==> forwards[e] == old(forwards)[e]
      ensures EntriesFollow(old(forwards), forwards, old(svcPorts), svcPorts, svcName != "")
      ensures multiset(svcPorts) <= multiset(old(svcPorts))
    {
      var rest := ports;
      ghost var ps0 := svcPorts;
      ghost var fw0 := forwards;
      while rest != {}
        invariant rest <= ports
        invariant RemovedSoFar(fw0, ps0, forwards, svcPorts, ports, rest, k8s)
        decreases |rest|
      {
        var e :| e in rest;
        ghost var fw1, ps1 := forwards, svcPorts;
        var err := Remove(e, true, k8s(e));
        RemoveNext(fw0, ps0, fw1, ps1, forwards, svcPorts, ports, rest, e, k8s, err);
        rest := rest - {e};
      }
    }

    /** How far `RemoveEach` over `ports` has come from `fw0` and `ps0` to `fw` and
        `svc`, with `rest` still to remove: the removed ports are gone unless their
        Service update failed, and the Service has lost one entry per port removed
        with it. */
    ghost predicate RemovedSoFar(fw0: map<uint16, Forward>, ps0: seq<ServicePort>, fw: map<uint16, Forward>, svc: seq<ServicePort>,
                                 ports: set<uint16>, rest: set<uint16>, k8s: uint16 -> K8sReply)
    {
      && rest <= fw.Keys
      && (forall e :: e in fw <==> e in fw0 && (e !in ports - rest || RemovalFails(ps0, e, k8s(e))))
      && (forall e :: e in fw ==> fw[e] == fw0[e])
      && (forall e :: e in rest ==> CountOn(svc, e) == CountOn(ps0, e))
      && EntriesFollow(fw0, fw, ps0, svc, svcName != "")
      && multiset(svc) <= multiset(ps0)
    }

    /** One round of `RemoveEach`, a `Remove(e, true)` on a port still to go, keeps
        `RemovedSoFar`. */
    lemma RemoveNext(fw0: map<uint16, Forward>, ps0: seq<ServicePort>, fw1: map<uint16, Forward>, ps1: seq<ServicePort>,
                     fw2: map<uint16, Forward>, ps2: seq<ServicePort>, ports: set<uint16>, rest: set<uint16>, e: uint16,
                     k8s: uint16 -> K8sReply, err: Option<Error>)
      requires e in rest && rest <= ports
      requires RemovedSoFar(fw0, ps0, fw1, ps1, ports, rest, k8s)
      requires err == (if svcName != "" then RemoveK8sError(ps1, e, k8s(e)) else None)
      requires fw2 == if err.None? then fw1 - {e} else fw1
      requires ps2 == if err.None? && svcName != "" then ServiceAfterRemove(ps1, e) else ps1
      ensures RemovedSoFar(fw0, ps0, fw2, ps2, ports, rest - {e}, k8s)
    {
      CountOnHas(ps1, e);
      CountOnHas(ps0, e);
      assert err.None? <==> !RemovalFails(ps0, e, k8s(e));
      RemoveNextForwards(fw0, ps0, fw1, fw2, ports, rest, e, k8s, err.None?);
      RemoveKeepsOthers(ps1, ps2, e, svcName != "" && err.None?);
      EntriesStep(fw0, ps0, fw1, ps1, fw2, ps2, e, svcName != "", err.None?);
    }

    /** The forward table's part of `RemoveNext`: the port goes exactly when its
        removal succeeds, and every other forward stays as it was. */
    lemma RemoveNextForwards(fw0: map<uint16, Forward>, ps0: seq<ServicePort>, fw1: map<uint16, Forward>, fw2: map<uint16, Forward>,
                             ports: set<uint16>, rest: set<uint16>, e: uint16, k8s: uint16 -> K8sReply, removed: bool)
      requires e in rest && rest <= ports && rest <= fw1.Keys
      requires forall x :: x in fw1 <==> x in fw0 && (x !in ports - rest || RemovalFails(ps0, x, k8s(x)))
      requires forall x :: x in fw1 ==> fw1[x] == fw0[x]
      requires removed <==> !RemovalFails(ps0, e, k8s(e))
      requires fw2 == if removed then fw1 - {e} else fw1
      ensures rest - {e} <= fw2.Keys
      ensures forall x :: x in fw2 <==> x in fw0 && (x !in ports - (rest - {e}) || RemovalFails(ps0, x, k8s(x)))
      ensures forall x :: x in fw2 ==> fw2[x] == fw0[x]
    {
    }

    /** `Trim`: refuse when two webspaces share an external port; otherwise remove
        every forward no webspace uses any more. */
    method Trim(all: seq<map<uint16, uint16>>, k8s: uint16 -> K8sReply) returns (err: Option<Error>)
      modifies this
      ensures err.Some? <==> exists p :: SharedPort(all, p)
      ensures err.Some? ==> forwards == old(forwards) && svcPorts == old(svcPorts)
      ensures err.Some? ==>
        exists p: uint16 :: SharedPort(all, p) && err == Some(Foreign("more than one webspace uses external port " + DecimalString(p)))
      ensures err.None? ==> forall e ::
        e in forwards <==> e in old(forwards) && (UsedBySome(all, e) || RemovalFails(old(svcPorts), e, k8s(e)))
      ensures forall e :: e in forwards ==> forwards[e] == old(forwards)[e]
      ensures EntriesFollow(old(forwards), forwards, old(svcPorts), svcPorts, svcName != "")
      ensures multiset(svcPorts) <= multiset(old(svcPorts))
    {
      err := None;
      var shared, allPorts := CollectPorts(all);
      if shared.Some? {
        return Some(Foreign("more than one webspace uses external port " + DecimalString(shared.value)));
      }
      RemoveEach(forwards.Keys - allPorts, k8s);
    }

    /** `Shutdown`: remove every forward, ignoring failures. */
    method Shutdown(k8s: uint16 -> K8sReply)
      modifies this
      ensures forall e :: e in forwards <==> e in old(forwards) && RemovalFails(old(svcPorts), e, k8s(e))
      ensures forall e :: e in forwards ==> forwards[e] == old(forwards)[e]
      ensures svcName == "" ==> forwards == map[]
      ensures EntriesFollow(old(forwards), forwards, old(svcPorts), svcPorts, svcName != "")
      ensures multiset(svcPorts) <= multiset(old(svcPorts))
    {
      RemoveEach(forwards.Keys, k8s);
    }

    /** `AddAll`: for each port of the webspace, in Go map order (`order`), drop an
        existing forward without touching the Service, then add the forward again;
        stop at the first failure, after `rounds` rounds. The loop variable holding
        the internal port is one variable for all rounds, and every hook of a
        stopped webspace reads it when a connection arrives, after `AddAll` has
        returned: so each such hook dials the internal port of the last round. */
    method AddAll(ports: map<uint16, uint16>, addr: string, listen: uint16 -> Option<Error>,
                  k8s: uint16 -> K8sReply) returns (err: Option<Error>, ghost order: seq<uint16>, ghost rounds: nat)
      modifies this
      ensures RangeOver(order, ports.Keys) && forall k :: 0 <= k < |order| ==> order[k] in ports
      ensures rounds == RoundsRun(svcName != "", listen, k8s, order)
      ensures Progress(forwards, svcPorts, err) == AddAllOutcome(svcName != "", old(forwards), old(svcPorts), ports, addr, listen, k8s, order)
      ensures err.None? <==> AddsSucceed(ports, listen, k8s)
      ensures err.None? ==> AddedAll(forwards, ports, addr)
      ensures SameOutside(old(forwards), forwards, ports.Keys)
    {
      ghost var named := svcName != "";
      ghost var fw0, ps0 := forwards, svcPorts;
      var keys := RangeOrder(ports.Keys);
      order := keys;
      var added, j := ReaddEach(ports, addr, listen, k8s, keys);
      // Go's `i` ends on the last round run.
      if j > 0 {
        ShareLoopVariable(keys[..j], addr, ports[keys[j - 1]]);
      }
      err := if added.Some? then Some(Wrap("failed to add port forward for: ", added.value)) else None;
      rounds := j;
      AddAllOutcomeSummary(named, fw0, ps0, ports, addr, listen, k8s, keys);
    }

    /** The loop of `AddAll` over the keys in `order`: one `Readd` per key, up to
        and including the first that fails, after `rounds` rounds. */
    method ReaddEach(ports: map<uint16, uint16>, addr: string, listen: uint16 -> Option<Error>, k8s: uint16 -> K8sReply,
                  order: seq<uint16>) returns (err: Option<Error>, rounds: nat)
      requires forall k :: 0 <= k < |order| ==> order[k] in ports
      modifies this
      ensures Ended(svcName != "", old(forwards), old(svcPorts), forwards, svcPorts, ports, addr, listen, k8s, order, rounds, err)
    {
      ghost var named := svcName != "";
      ghost var fw0, ps0 := forwards, svcPorts;
      var j := 0;
      assert order[..0] == [] && order[0..] == order;
      while j < |order|
        invariant Ran(named, fw0, ps0, forwards, svcPorts, ports, addr, listen, k8s, order, j)
        decreases |order| - j
      {
        err := ReaddRound(fw0, ps0, ports, addr, listen, k8s, order, j);
        if err.Some? {
          return err, j + 1;
        }
        j := j + 1;
      }
      RanAll(named, fw0, ps0, forwards, svcPorts, ports, addr, listen, k8s, order);
      return None, j;
    }

    /** Round `j` of the loop of `AddAll` over `order`, the rounds before it having
        taken the state from `fw0` and `ps0`: a failing round is the last one run. */
    method ReaddRound(ghost fw0: map<uint16, Forward>, ghost ps0: seq<ServicePort>, ports: map<uint16, uint16>, addr: string,
                      listen: uint16 -> Option<Error>, k8s: uint16 -> K8sReply, order: seq<uint16>, j: nat)
      returns (err: Option<Error>)
      requires forall k :: 0 <= k < |order| ==> order[k] in ports
      requires j < |order| && Ran(svcName != "", fw0, ps0, forwards, svcPorts, ports, addr, listen, k8s, order, j)
      modifies this
      ensures err.Some? <==> RoundFails(svcName != "", order[j], listen, k8s)
      ensures err.Some? ==> Ended(svcName != "", fw0, ps0, forwards, svcPorts, ports, addr, listen, k8s, order, j + 1, err)
      ensures err.None? ==> Ran(svcName != "", fw0, ps0, forwards, svcPorts, ports, addr, listen, k8s, order, j + 1)
    {
      var e := order[j];
      RoundStep(svcName != "", fw0, ps0, forwards, svcPorts, ports, addr, listen, k8s, order, j);
      err := Readd(e, ports[e], addr, listen(e), k8s(e));
    }

    /** The loop variable of `AddAll` ends holding `shared`: every start-then-connect
        hook installed on `done` reads it. */
    method ShareLoopVariable(done: seq<uint16>, addr: string, shared: uint16)
      modifies this
      ensures forwards == ShareHooks(old(forwards), addr, done, shared)
      ensures svcPorts == old(svcPorts)
    {
      if addr == "" {
        forwards := map e | e in forwards :: if e in done then forwards[e].(hook := StartThenConnect(shared)) else forwards[e];
      }
    }

    /** One round of `AddAll`: drop the port's forward if there is one, then add
        it again towards `addr`, while the loop variable holds `internal`. */
    method Readd(e: uint16, internal: uint16, addr: string, listen: Option<Error>, k8s: K8sReply)
      returns (err: Option<Error>)
      modifies this
      ensures forwards == ReaddForward(old(forwards), e, internal, addr, listen)
      ensures svcPorts == ReaddService(svcName != "", old(svcPorts), e, listen, k8s)
      ensures err == if listen.Some? then listen else if svcName != "" then AddK8sError(k8s) else None
    {
      if e in forwards {
        // Without the Service update, removing a present port cannot fail.
        var _ := Remove(e, false, K8sReply(None, None));
      }
      var f := ForwardFor(e, internal, addr);
      err := Add(e, f.backend, f.hook, listen, k8s);
    }
  }

  /** One `Remove(e, true)`, successful or not, leaves the Service entries of every
      other port as they were. */
  lemma RemoveKeepsOthers(before: seq<ServicePort>, after: seq<ServicePort>, e: uint16, touch: bool)
    requires after == if touch then ServiceAfterRemove(before, e) else before
    ensures forall sp: ServicePort :: sp.port != e ==> multiset(after)[sp] == multiset(before)[sp]
    ensures forall p: int :: p != e ==> (HasPort(after, p) <==> HasPort(before, p))
    ensures forall p: int :: CountOn(after, p) + (if touch && p == e && HasPort(before, e) then 1 else 0) == CountOn(before, p)
    ensures multiset(after) <= multiset(before)
  {
    if touch {
      forall p: int ensures CountOn(after, p) + (if p == e && HasPort(before, e) then 1 else 0) == CountOn(before, p) {
        CountAfterRemove(before, e, p);
      }
    }
    if after != before {
      forall sp: ServicePort | sp.port != e
        ensures multiset(after)[sp] == multiset(before)[sp]
        ensures HasPort(after, sp.port) <==> HasPort(before, sp.port)
      {
        ServiceAfterRemoveKeepsOthers(before, e, sp);
      }
      forall p: int | p != e ensures HasPort(after, p) <==> HasPort(before, p) {
        var probe := ServicePort("", p, "", 0);
        assert probe.port != e;
      }
    }
  }

  /** One `Remove(e, true)` of a batch keeps `EntriesFollow` from the batch's
      start: a removal drops the forward and, with a Service, one entry on `e`. */
  lemma EntriesStep(fw0: map<uint16, Forward>, ps0: seq<ServicePort>, fw1: map<uint16, Forward>, ps1: seq<ServicePort>,
                    fw2: map<uint16, Forward>, ps2: seq<ServicePort>, e: uint16, named: bool, removed: bool)
    requires EntriesFollow(fw0, fw1, ps0, ps1, named)
    requires fw1.Keys <= fw0.Keys && e in fw1
    requires CountOn(ps1, e) == CountOn(ps0, e)
    requires fw2 == if removed then fw1 - {e} else fw1
    requires ps2 == if named && removed then ServiceAfterRemove(ps1, e) else ps1
    requires forall sp: ServicePort :: sp.port != e ==> multiset(ps2)[sp] == multiset(ps1)[sp]
    requires forall p: int :: CountOn(ps2, p) + (if named && removed && p == e && HasPort(ps1, e) then 1 else 0) == CountOn(ps1, p)
    ensures EntriesFollow(fw0, fw2, ps0, ps2, named)
  {
    CountOnHas(ps1, e);
    CountOnHas(ps0, e);
    forall sp: ServicePort | sp.port !in fw0.Keys - fw2.Keys
      ensures multiset(ps2)[sp] == multiset(ps0)[sp]
    {
      assert sp.port !in fw0.Keys - fw1.Keys;
    }
  }

  /** The external ports of the first `n` webspaces. */
  function PortsOf(all: seq<map<uint16, uint16>>, n: nat): set<uint16>
    requires n <= |all|
  {
    if n == 0 then {} else PortsOf(all, n - 1) + all[n - 1].Keys
  }

  lemma {:induction false} PortsOfUsed(all: seq<map<uint16, uint16>>, n: nat, p: uint16)
    requires n <= |all|
    ensures p in PortsOf(all, n) <==> exists a :: 0 <= a < n && p in all[a]
  {
    if n > 0 {
      PortsOfUsed(all, n - 1, p);
    }
  }

  /** No port of webspace `b < n` already belongs to an earlier webspace. */
  predicate DisjointUpTo(all: seq<map<uint16, uint16>>, n: nat)
    requires n <= |all|
  {
    forall b :: 0 <= b < n ==> PortsOf(all, b) !! all[b].Keys
  }

  lemma {:induction false} DisjointNoShared(all: seq<map<uint16, uint16>>)
    ensures DisjointUpTo(all, |all|) <==> forall p :: !SharedPort(all, p)
  {
    if DisjointUpTo(all, |all|) {
      forall p, a, b | 0 <= a < b < |all| && p in all[a] ensures p !in all[b] {
        PortsOfUsed(all, b, p);
      }
    } else {
      var b, p :| 0 <= b < |all| && p in PortsOf(all, b) && p in all[b].Keys;
      PortsOfUsed(all, b, p);
      var a :| 0 <= a < b && p in all[a];
      assert SharedPort(all, p);
    }
  }

  lemma DisjointStep(all: seq<map<uint16, uint16>>, i: nat)
    requires i < |all|
    requires DisjointUpTo(all, i)
    requires PortsOf(all, i) !! all[i].Keys
    ensures DisjointUpTo(all, i + 1)
  {
  }

  /** The inner loop of `Trim`'s first pass: add one webspace's ports to the set,
      stopping at a port that is already in it. */
  method AddKeys(seen: set<uint16>, m: map<uint16, uint16>) returns (dup: Option<uint16>, r: set<uint16>)
    ensures dup.None? <==> seen !! m.Keys
    ensures dup.Some? ==> dup.value in seen && dup.value in m
    ensures dup.None? ==> r == seen + m.Keys
  {
    r := seen;
    var keys := m.Keys;
    while keys != {}
      invariant keys <= m.Keys
      invariant r == seen + (m.Keys - keys)
      invariant seen !! (m.Keys - keys)
      decreases |keys|
    {
      var e :| e in keys;
      if e in r {
        return Some(e), r;
      }
      r := r + {e};
      keys := keys - {e};
    }
    assert m.Keys - keys == m.Keys;
    return None, r;
  }

  /** The first loop of `Trim`: gather the external ports of every webspace, and
      stop at the first port met a second time. */
  method CollectPorts(all: seq<map<uint16, uint16>>) returns (shared: Option<uint16>, allPorts: set<uint16>)
    ensures shared.None? <==> forall p :: !SharedPort(all, p)
    ensures shared.Some? ==> SharedPort(all, shared.value)
    ensures shared.None? ==> forall p :: p in allPorts <==> UsedBySome(all, p)
  {
    allPorts := {};
    for i := 0 to |all|
      invariant allPorts == PortsOf(all, i)
      invariant DisjointUpTo(all, i)
    {
      var dup;
      dup, allPorts := AddKeys(allPorts, all[i]);
      if dup.Some? {
        var e := dup.value;
        PortsOfUsed(all, i, e);
        var a :| 0 <= a < i && e in all[a];
        assert 0 <= a < i < |all| && e in all[a] && e in all[i];
        assert SharedPort(all, e);
        DisjointNoShared(all);
        return dup, allPorts;
      }
      DisjointStep(all, i);
    }
    DisjointNoShared(all);
    forall p ensures p in allPorts <==> UsedBySome(all, p) {
      PortsOfUsed(all, |all|, p);
    }
    return None, allPorts;
  }
}
