/** The registry's tables and the invariant that links them: the handle
    list, each handle's proxy and membership lists, the proxies' back
    pointers and the listeners registered on the outputs. Each kind of
    in-place edit the manager makes is shown here to keep the invariant. */
module Registry {
  import opened Types
  import opened Fanout
  import opened Outputs
  import opened Idle
  import opened Lifecycle
  import opened Replay

  /** The manager's lists, as values. */
  datatype Tables = Tables(
    toplevels: seq<HandleId>,
    handles: map<HandleId, Handle>,
    proxies: map<ProxyId, Proxy>,
    bindings: seq<ManagerResource>,
    listeners: seq<Membership>,
    nextHandle: HandleId,
    nextProxy: ProxyId,
    nextBinding: ManagerResourceId)

  /** One handle's own lists are consistent: no proxy and no output twice,
      every proxy alive and pointing back at the handle, and a listener
      registered for every output membership. */
  ghost predicate HandleOk(hs: map<HandleId, Handle>, proxies: map<ProxyId, Proxy>,
                           listeners: seq<Membership>, h: HandleId)
    requires h in hs
  {
    && Distinct(hs[h].resources)
    && Distinct(hs[h].outputs)
    && (forall p :: p in hs[h].resources ==> p in proxies && proxies[p].handle == Some(h))
    && (forall o :: o in hs[h].outputs ==> Membership(h, o) in listeners)
  }

  /** A proxy still attached to a handle is listed by that handle. */
  ghost predicate ProxyOk(hs: map<HandleId, Handle>, proxies: map<ProxyId, Proxy>, p: ProxyId)
    requires p in proxies
  {
    proxies[p].handle.Some? ==> proxies[p].handle.value in hs && p in hs[proxies[p].handle.value].resources
  }

  /** A registered listener belongs to a live membership. */
  ghost predicate ListenerOk(hs: map<HandleId, Handle>, m: Membership) {
    m.handle in hs && m.output in hs[m.handle].outputs
  }

  /** The structural invariant. Each per-element quantifier fires only on
      its own predicate, so a proof names the handle, proxy or listener it
      needs. */
  ghost predicate Consistent(r: Tables) {
    && Distinct(r.toplevels)
    && (forall i :: 0 <= i < |r.toplevels| ==> r.toplevels[i] in r.handles)
    && (forall h :: h in r.handles ==> h in r.toplevels && h < r.nextHandle)
    && (forall h {:trigger HandleOk(r.handles, r.proxies, r.listeners, h)} ::
          h in r.handles ==> HandleOk(r.handles, r.proxies, r.listeners, h))
    && (forall h :: h in r.handles ==> Live(r.handles[h].resources, r.proxies))
    && (forall p :: p in r.proxies ==> p < r.nextProxy)
    && (forall p {:trigger ProxyOk(r.handles, r.proxies, p)} :: p in r.proxies ==> ProxyOk(r.handles, r.proxies, p))
    && Distinct(r.bindings)
    && (forall b :: b in r.bindings ==> b.id < r.nextBinding)
    && Distinct(r.listeners)
    && (forall m {:trigger ListenerOk(r.handles, m)} :: m in r.listeners ==> ListenerOk(r.handles, m))
  }

  /** The pending flushes: at most one per handle, and only for live handles. */
  predicate PendingOk(idle: seq<HandleId>, hs: map<HandleId, Handle>) {
    Distinct(idle) && forall h :: h in idle ==> h in hs
  }

  /** Pending flushes stay valid while the set of live handles is unchanged. */
  lemma PendingSameKeys(idle: seq<HandleId>, hs: map<HandleId, Handle>, hs': map<HandleId, Handle>)
    requires PendingOk(idle, hs) && hs'.Keys == hs.Keys
    ensures PendingOk(idle, hs')
  {
    forall h | h in idle ensures h in hs' {
      assert h in hs.Keys;
    }
  }

  /** A proxy is listed by at most one handle: the one it points back at. */
  lemma ListedOnce(r: Tables, h: HandleId, p: ProxyId)
    requires Consistent(r) && h in r.handles && p in r.handles[h].resources
    ensures p in r.proxies && r.proxies[p].handle == Some(h)
    ensures forall x :: x in r.handles && p in r.handles[x].resources ==> x == h
  {
    assert HandleOk(r.handles, r.proxies, r.listeners, h);
    forall x | x in r.handles && p in r.handles[x].resources ensures x == h {
      assert HandleOk(r.handles, r.proxies, r.listeners, x);
    }
  }

  /** Replacing a handle's properties, parent included, keeps the invariant
      as long as its proxy and membership lists stay the same. */
  lemma ReplaceOk(r: Tables, h: HandleId, t: Handle)
    requires Consistent(r) && h in r.handles
    requires t.resources == r.handles[h].resources && t.outputs == r.handles[h].outputs
    ensures Consistent(r.(handles := r.handles[h := t]))
  {
    var r' := r.(handles := r.handles[h := t]);
    forall x | x in r'.handles ensures HandleOk(r'.handles, r'.proxies, r'.listeners, x) {
      assert HandleOk(r.handles, r.proxies, r.listeners, x);
    }
    forall p | p in r'.proxies ensures ProxyOk(r'.handles, r'.proxies, p) {
      assert ProxyOk(r.handles, r.proxies, p);
    }
    forall m | m in r'.listeners ensures ListenerOk(r'.handles, m) {
      assert ListenerOk(r.handles, m);
    }
  }

  /** Replacing a handle keeps every parent pointer live when the new
      parent is live or is the old one. */
  lemma ReplaceParentsOk(hs: map<HandleId, Handle>, h: HandleId, t: Handle)
    requires ParentsIn(hs) && h in hs
    requires t.parent == hs[h].parent || t.parent.None? || t.parent.value in hs
    ensures ParentsIn(hs[h := t])
  {
    assert ParentOf(hs, h) == hs[h].parent;
    var hs' := hs[h := t];
    forall x | x in hs' ensures ParentOf(hs', x).Some? ==> ParentOf(hs', x).value in hs' {
      if x != h {
        assert ParentOf(hs', x) == ParentOf(hs, x);
      }
    }
  }

  /** A new handle with no parent keeps every parent pointer live. */
  lemma AddParentsOk(hs: map<HandleId, Handle>, h: HandleId, t: Handle)
    requires ParentsIn(hs) && h !in hs && t.parent.None?
    ensures ParentsIn(hs[h := t])
  {
    var hs' := hs[h := t];
    forall x | x in hs' ensures ParentOf(hs', x).Some? ==> ParentOf(hs', x).value in hs' {
      if x != h {
        assert ParentOf(hs', x) == ParentOf(hs, x);
      }
    }
  }

  /** output_enter's new membership: the output goes to the head of the
      handle's list and a listener is registered last on the output. */
  lemma JoinOk(r: Tables, h: HandleId, o: OutputId)
    requires Consistent(r) && h in r.handles && o !in r.handles[h].outputs
    ensures Consistent(r.(handles := r.handles[h := r.handles[h].(outputs := [o] + r.handles[h].outputs)],
                          listeners := r.listeners + [Membership(h, o)]))
  {
    var m := Membership(h, o);
    var r' := r.(handles := r.handles[h := r.handles[h].(outputs := [o] + r.handles[h].outputs)],
                 listeners := r.listeners + [m]);
    assert m in r.listeners ==> ListenerOk(r.handles, m);
    assert HandleOk(r.handles, r.proxies, r.listeners, h);
    DistinctAdd(o, r.handles[h].outputs);
    DistinctAdd(m, r.listeners);
    forall x | x in r'.handles ensures HandleOk(r'.handles, r'.proxies, r'.listeners, x) {
      assert HandleOk(r.handles, r.proxies, r.listeners, x);
    }
    forall p | p in r'.proxies ensures ProxyOk(r'.handles, r'.proxies, p) {
      assert ProxyOk(r.handles, r.proxies, p);
    }
    forall n | n in r'.listeners ensures ListenerOk(r'.handles, n) {
      if n != m { assert ListenerOk(r.handles, n); }
    }
  }

  /** toplevel_output_destroy: the membership and its listener go together. */
  lemma LeaveOk(r: Tables, h: HandleId, o: OutputId)
    requires Consistent(r) && h in r.handles
    ensures Consistent(r.(handles := r.handles[h := r.handles[h].(outputs := Remove(r.handles[h].outputs, o))],
                          listeners := Remove(r.listeners, Membership(h, o))))
  {
    var r' := r.(handles := r.handles[h := r.handles[h].(outputs := Remove(r.handles[h].outputs, o))],
                 listeners := Remove(r.listeners, Membership(h, o)));
    forall x | x in r'.handles ensures HandleOk(r'.handles, r'.proxies, r'.listeners, x) {
      assert HandleOk(r.handles, r.proxies, r.listeners, x);
      LeftHandleOk(r.handles, r.proxies, r.listeners, h, o, x);
    }
    forall p | p in r'.proxies ensures ProxyOk(r'.handles, r'.proxies, p) {
      assert ProxyOk(r.handles, r.proxies, p);
    }
    forall n | n in r'.listeners ensures ListenerOk(r'.handles, n) {
      assert ListenerOk(r.handles, n);
      LeftListenerOk(r.handles, r.listeners, h, o, n);
    }
  }

  /** LeaveOk, for one handle's lists. */
  lemma LeftHandleOk(hs: map<HandleId, Handle>, proxies: map<ProxyId, Proxy>, ls: seq<Membership>,
                     h: HandleId, o: OutputId, x: HandleId)
    requires h in hs && x in hs && HandleOk(hs, proxies, ls, x)
    ensures HandleOk(hs[h := hs[h].(outputs := Remove(hs[h].outputs, o))], proxies, Remove(ls, Membership(h, o)), x)
  {
  }

  /** LeaveOk, for one remaining listener. */
  lemma LeftListenerOk(hs: map<HandleId, Handle>, ls: seq<Membership>, h: HandleId, o: OutputId, n: Membership)
    requires h in hs && n in Remove(ls, Membership(h, o)) && ListenerOk(hs, n)
    ensures ListenerOk(hs[h := hs[h].(outputs := Remove(hs[h].outputs, o))], n)
  {
  }

  /** create_toplevel_resource_for_resource on the tables: the next proxy
      number, for client `c` at version `v`, at the head of `h`'s list. */
  function Attached(r: Tables, h: HandleId, c: ClientId, v: nat): Tables
    requires h in r.handles
  {
    r.(handles := r.handles[h := r.handles[h].(resources := [r.nextProxy] + r.handles[h].resources)],
       proxies := r.proxies[r.nextProxy := Proxy(c, v, Some(h))],
       nextProxy := r.nextProxy + 1)
  }

  lemma AttachOk(r: Tables, h: HandleId, c: ClientId, v: nat)
    requires Consistent(r) && h in r.handles
    ensures Consistent(Attached(r, h, c, v))
  {
    var p := r.nextProxy;
    var r' := r.(handles := r.handles[h := r.handles[h].(resources := [p] + r.handles[h].resources)],
                 proxies := r.proxies[p := Proxy(c, v, Some(h))],
                 nextProxy := p + 1);
    assert p !in r.proxies;
    forall x | x in r'.handles
      ensures HandleOk(r'.handles, r'.proxies, r'.listeners, x) && Live(r'.handles[x].resources, r'.proxies)
    {
      assert HandleOk(r.handles, r.proxies, r.listeners, x);
      AttachedHandleOk(r.handles, r.proxies, r.listeners, h, Proxy(c, v, Some(h)), p, x);
    }
    forall q | q in r'.proxies ensures ProxyOk(r'.handles, r'.proxies, q) {
      if q != p {
        assert ProxyOk(r.handles, r.proxies, q);
        AttachedProxyOk(r.handles, r.proxies, h, Proxy(c, v, Some(h)), p, q);
      }
    }
    forall m | m in r'.listeners ensures ListenerOk(r'.handles, m) {
      assert ListenerOk(r.handles, m);
    }
  }

  /** AttachOk, for one handle's lists. */
  lemma AttachedHandleOk(hs: map<HandleId, Handle>, proxies: map<ProxyId, Proxy>, ls: seq<Membership>,
                         h: HandleId, n: Proxy, p: ProxyId, x: HandleId)
    requires h in hs && x in hs && HandleOk(hs, proxies, ls, x) && p !in proxies && n.handle == Some(h)
    ensures var hs' := hs[h := hs[h].(resources := [p] + hs[h].resources)];
            HandleOk(hs', proxies[p := n], ls, x) && Live(hs'[x].resources, proxies[p := n])
  {
    if x == h {
      DistinctAdd(p, hs[h].resources);
    }
  }

  /** AttachOk, for one older proxy's back pointer. */
  lemma AttachedProxyOk(hs: map<HandleId, Handle>, proxies: map<ProxyId, Proxy>,
                        h: HandleId, n: Proxy, p: ProxyId, q: ProxyId)
    requires h in hs && q in proxies && q != p && ProxyOk(hs, proxies, q)
    ensures ProxyOk(hs[h := hs[h].(resources := [p] + hs[h].resources)], proxies[p := n], q)
  {
  }

  /** One step of destroy's first loop: the head proxy `q` is unlinked from
      the handle and detached (its user data set to null). */
  lemma DetachHeadOk(r: Tables, h: HandleId, q: ProxyId)
    requires Consistent(r) && h in r.handles
    requires r.handles[h].resources != [] && q == r.handles[h].resources[0]
    ensures q in r.proxies
    ensures Consistent(r.(handles := r.handles[h := r.handles[h].(resources := r.handles[h].resources[1..])],
                          proxies := r.proxies[q := r.proxies[q].(handle := None)]))
  {
    var rs := r.handles[h].resources;
    ListedOnce(r, h, q);
    var hs' := r.handles[h := r.handles[h].(resources := rs[1..])];
    var ps' := r.proxies[q := r.proxies[q].(handle := None)];
    DetachedHandlesOk(r, h, q);
    DetachedProxiesOk(r, h, q);
    forall m | m in r.listeners ensures ListenerOk(hs', m) {
      assert ListenerOk(r.handles, m);
    }
  }

  /** DetachHeadOk, for the handles' lists. */
  lemma DetachedHandlesOk(r: Tables, h: HandleId, q: ProxyId)
    requires Consistent(r) && h in r.handles
    requires r.handles[h].resources != [] && q == r.handles[h].resources[0]
    ensures q in r.proxies
    ensures var hs' := r.handles[h := r.handles[h].(resources := r.handles[h].resources[1..])];
            var ps' := r.proxies[q := r.proxies[q].(handle := None)];
            forall x :: x in hs' ==> HandleOk(hs', ps', r.listeners, x) && Live(hs'[x].resources, ps')
  {
    ListedOnce(r, h, q);
    var hs' := r.handles[h := r.handles[h].(resources := r.handles[h].resources[1..])];
    var ps' := r.proxies[q := r.proxies[q].(handle := None)];
    forall x | x in hs' ensures HandleOk(hs', ps', r.listeners, x) && Live(hs'[x].resources, ps') {
      DetachedHandleOk(r, h, q, x);
    }
  }

  /** DetachHeadOk, for one handle's lists. */
  lemma DetachedHandleOk(r: Tables, h: HandleId, q: ProxyId, x: HandleId)
    requires Consistent(r) && h in r.handles && x in r.handles
    requires r.handles[h].resources != [] && q == r.handles[h].resources[0]
    ensures q in r.proxies
    ensures var hs' := r.handles[h := r.handles[h].(resources := r.handles[h].resources[1..])];
            var ps' := r.proxies[q := r.proxies[q].(handle := None)];
            HandleOk(hs', ps', r.listeners, x) && Live(hs'[x].resources, ps')
  {
    ListedOnce(r, h, q);
    assert HandleOk(r.handles, r.proxies, r.listeners, x);
    if x == h {
      DetachedOwnerOk(r.handles, r.proxies, r.listeners, h);
    } else {
      DetachedOtherOk(r.handles, r.proxies, r.listeners, h, q, x);
    }
  }

  /** The handle whose head proxy is detached keeps its own lists consistent. */
  lemma DetachedOwnerOk(hs: map<HandleId, Handle>, proxies: map<ProxyId, Proxy>, ls: seq<Membership>, h: HandleId)
    requires h in hs && hs[h].resources != [] && HandleOk(hs, proxies, ls, h)
    ensures var q := hs[h].resources[0];
            var hs' := hs[h := hs[h].(resources := hs[h].resources[1..])];
            var ps' := proxies[q := proxies[q].(handle := None)];
            HandleOk(hs', ps', ls, h) && Live(hs'[h].resources, ps')
  {
    DistinctTail(hs[h].resources);
  }

  /** Any other handle, which does not list the detached proxy, is unaffected. */
  lemma DetachedOtherOk(hs: map<HandleId, Handle>, proxies: map<ProxyId, Proxy>, ls: seq<Membership>,
                        h: HandleId, q: ProxyId, x: HandleId)
    requires h in hs && x in hs && x != h && q in proxies && hs[h].resources != []
    requires HandleOk(hs, proxies, ls, x) && q !in hs[x].resources
    ensures var hs' := hs[h := hs[h].(resources := hs[h].resources[1..])];
            var ps' := proxies[q := proxies[q].(handle := None)];
            HandleOk(hs', ps', ls, x) && Live(hs'[x].resources, ps')
  {
  }

  /** DetachHeadOk, for the proxies' back pointers. */
  lemma DetachedProxiesOk(r: Tables, h: HandleId, q: ProxyId)
    requires Consistent(r) && h in r.handles
    requires r.handles[h].resources != [] && q == r.handles[h].resources[0]
    ensures q in r.proxies
    ensures var hs' := r.handles[h := r.handles[h].(resources := r.handles[h].resources[1..])];
            var ps' := r.proxies[q := r.proxies[q].(handle := None)];
            forall p :: p in ps' ==> ProxyOk(hs', ps', p)
  {
    ListedOnce(r, h, q);
    var hs' := r.handles[h := r.handles[h].(resources := r.handles[h].resources[1..])];
    var ps' := r.proxies[q := r.proxies[q].(handle := None)];
    forall p | p in ps' ensures ProxyOk(hs', ps', p) {
      if p != q {
        assert ProxyOk(r.handles, r.proxies, p);
        DetachedProxyOk(r.handles, r.proxies, h, p);
      }
    }
  }

  /** A proxy other than the detached head keeps its back pointer. */
  lemma DetachedProxyOk(hs: map<HandleId, Handle>, proxies: map<ProxyId, Proxy>, h: HandleId, p: ProxyId)
    requires h in hs && hs[h].resources != [] && p in proxies && p != hs[h].resources[0]
    requires hs[h].resources[0] in proxies
    requires ProxyOk(hs, proxies, p)
    ensures var q := hs[h].resources[0];
            var hs' := hs[h := hs[h].(resources := hs[h].resources[1..])];
            var ps' := proxies[q := proxies[q].(handle := None)];
            ProxyOk(hs', ps', p)
  {
    var rs := hs[h].resources;
    assert rs == [rs[0]] + rs[1..];
  }

  /** A handle with no proxy and no membership left can leave the registry. */
  lemma UnlinkOk(r: Tables, h: HandleId)
    requires Consistent(r) && h in r.handles
    requires r.handles[h].resources == [] && r.handles[h].outputs == []
    ensures Consistent(r.(toplevels := Remove(r.toplevels, h), handles := r.handles - {h}))
  {
    var r' := r.(toplevels := Remove(r.toplevels, h), handles := r.handles - {h});
    forall i | 0 <= i < |r'.toplevels| ensures r'.toplevels[i] in r'.handles {
      assert r'.toplevels[i] in r'.toplevels;
    }
    forall x | x in r'.handles ensures HandleOk(r'.handles, r'.proxies, r'.listeners, x) {
      assert HandleOk(r.handles, r.proxies, r.listeners, x);
    }
    forall p | p in r'.proxies ensures ProxyOk(r'.handles, r'.proxies, p) {
      assert ProxyOk(r.handles, r.proxies, p);
    }
    forall m | m in r'.listeners ensures ListenerOk(r'.handles, m) {
      assert ListenerOk(r.handles, m);
    }
  }

  /** handle_create's loop over the bindings `bs` for the empty handle
      `h`, on the tables. */
  function SpawnedTables(r: Tables, h: HandleId, bs: seq<ManagerResource>): Tables
    requires h in r.handles
  {
    r.(handles := r.handles[h := r.handles[h].(resources := NewestFirst(r.nextProxy, |bs|))],
       proxies := Spawned(r.proxies, bs, r.nextProxy, h),
       nextProxy := r.nextProxy + |bs|)
  }

  /** The loop is a create_toplevel_resource_for_resource per binding. */
  lemma SpawnedTablesSnoc(r: Tables, h: HandleId, bs: seq<ManagerResource>)
    requires h in r.handles && bs != []
    ensures SpawnedTables(r, h, bs)
            == Attached(SpawnedTables(r, h, bs[..|bs| - 1]), h, bs[|bs| - 1].client, bs[|bs| - 1].version)
  {
    var r1 := SpawnedTables(r, h, bs[..|bs| - 1]);
    UpdateTwice(r.handles, h, r1.handles[h], r1.handles[h].(resources := [r1.nextProxy] + r1.handles[h].resources));
  }

  /** handle_create's loop over the bindings keeps the tables consistent:
      the fresh handle gets one live proxy per binding, newest first. */
  lemma {:induction false} AttachAllOk(r: Tables, h: HandleId, bs: seq<ManagerResource>)
    requires Consistent(r) && h in r.handles && r.handles[h].resources == []
    ensures Consistent(SpawnedTables(r, h, bs))
    decreases |bs|
  {
    if bs == [] {
      assert r.handles[h := r.handles[h].(resources := NewestFirst(r.nextProxy, 0))] == r.handles;
      assert SpawnedTables(r, h, bs) == r;
    } else {
      var bs', b := bs[..|bs| - 1], bs[|bs| - 1];
      SpawnedTablesSnoc(r, h, bs);
      AttachAllOk(r, h, bs');
      AttachOk(SpawnedTables(r, h, bs'), h, b.client, b.version);
    }
  }

  /** The tables after wlr_foreign_toplevel_handle_v1_create: a fresh handle
      at the head of the list, with one proxy per binding, newest first. */
  function Created(r: Tables): Tables
  {
    var h := r.nextHandle;
    r.(toplevels := [h] + r.toplevels,
       handles := r.handles[h := NewHandle.(resources := NewestFirst(r.nextProxy, |r.bindings|))],
       proxies := Spawned(r.proxies, r.bindings, r.nextProxy, h),
       nextHandle := h + 1,
       nextProxy := r.nextProxy + |r.bindings|)
  }

  /** Creating a handle keeps the tables consistent and no parent dangling. */
  lemma CreateHandleOk(r: Tables)
    requires Consistent(r) && ParentsIn(r.handles)
    ensures Consistent(Created(r)) && ParentsIn(Created(r).handles)
  {
    var h := r.nextHandle;
    CreateOk(r);
    var r1 := r.(toplevels := [h] + r.toplevels, handles := r.handles[h := NewHandle], nextHandle := h + 1);
    AttachAllOk(r1, h, r.bindings);
    UpdateTwice(r.handles, h, NewHandle, NewHandle.(resources := NewestFirst(r.nextProxy, |r.bindings|)));
    assert h !in r.handles;
    AddParentsOk(r.handles, h, NewHandle.(resources := NewestFirst(r.nextProxy, |r.bindings|)));
  }

  /** The tables after pass one of foreign_toplevel_manager_bind for client
      `c` at version `v`: the new binding at the head of the list, and a
      proxy of every live handle for it. */
  function Bound(r: Tables, c: ClientId, v: nat): Tables
    requires forall t :: t in r.toplevels ==> t in r.handles
  {
    r.(bindings := [ManagerResource(r.nextBinding, c, v)] + r.bindings,
       nextBinding := r.nextBinding + 1,
       handles := Greeted(r.handles, r.toplevels, r.nextProxy),
       proxies := Introduced(r.proxies, r.toplevels, r.nextProxy, c, v),
       nextProxy := r.nextProxy + |r.toplevels|)
  }

  /** Pass one of bind over the handles `ts`, on the tables. */
  function GreetedTables(r: Tables, ts: seq<HandleId>, c: ClientId, v: nat): Tables
    requires forall t :: t in ts ==> t in r.handles
  {
    r.(handles := Greeted(r.handles, ts, r.nextProxy),
       proxies := Introduced(r.proxies, ts, r.nextProxy, c, v),
       nextProxy := r.nextProxy + |ts|)
  }

  /** Pass one is a create_toplevel_resource_for_resource per handle. */
  lemma GreetedTablesSnoc(r: Tables, ts: seq<HandleId>, c: ClientId, v: nat)
    requires ts != [] && forall t :: t in ts ==> t in r.handles
    ensures forall t :: t in ts[..|ts| - 1] ==> t in r.handles
    ensures ts[|ts| - 1] in GreetedTables(r, ts[..|ts| - 1], c, v).handles
    ensures GreetedTables(r, ts, c, v) == Attached(GreetedTables(r, ts[..|ts| - 1], c, v), ts[|ts| - 1], c, v)
  {
    GreetSnoc(r.handles, r.proxies, ts, r.nextProxy, c, v);
  }

  /** Pass one of bind keeps the tables consistent, one handle at a time. */
  lemma {:induction false} GreetAllOk(r: Tables, ts: seq<HandleId>, c: ClientId, v: nat)
    requires Consistent(r) && forall t :: t in ts ==> t in r.handles
    ensures Consistent(GreetedTables(r, ts, c, v))
    decreases |ts|
  {
    if ts == [] {
      assert GreetedTables(r, ts, c, v) == r;
    } else {
      var n := |ts| - 1;
      GreetedTablesSnoc(r, ts, c, v);
      GreetAllOk(r, ts[..n], c, v);
      AttachOk(GreetedTables(r, ts[..n], c, v), ts[n], c, v);
    }
  }

  /** Pass one of bind leaves every parent pointer as it was. */
  lemma {:induction false} GreetParentsIn(hs: map<HandleId, Handle>, ts: seq<HandleId>, start: ProxyId)
    requires ParentsIn(hs) && forall t :: t in ts ==> t in hs
    ensures ParentsIn(Greeted(hs, ts, start))
    decreases |ts|
  {
    if ts != [] {
      var n := |ts| - 1;
      GreetSnoc(hs, map[], ts, start, 0, 0);
      GreetParentsIn(hs, ts[..n], start);
      var g := Greeted(hs, ts[..n], start);
      ReplaceParentsOk(g, ts[n], g[ts[n]].(resources := [start + n] + g[ts[n]].resources));
    }
  }

  /** Every handle of the registry is live. */
  lemma ToplevelsLive(r: Tables)
    requires Consistent(r)
    ensures forall t :: t in r.toplevels ==> t in r.handles
  {
    forall t | t in r.toplevels ensures t in r.handles {
      var i :| 0 <= i < |r.toplevels| && r.toplevels[i] == t;
    }
  }

  /** The registry lists exactly the live handles, each with live proxies. */
  lemma RegistryLive(r: Tables)
    requires Consistent(r)
    ensures forall t :: t in r.toplevels ==> t in r.handles && Live(r.handles[t].resources, r.proxies)
    ensures forall t :: t in r.handles ==> t in r.toplevels
  {
    ToplevelsLive(r);
  }

  /** Binding the manager keeps the tables consistent and no parent dangling. */
  lemma BindOk(r: Tables, c: ClientId, v: nat)
    requires Consistent(r) && ParentsIn(r.handles)
    ensures Consistent(Bound(r, c, v)) && ParentsIn(Bound(r, c, v).handles)
  {
    AddBindingOk(r, c, v);
    var r0 := r.(bindings := [ManagerResource(r.nextBinding, c, v)] + r.bindings, nextBinding := r.nextBinding + 1);
    ToplevelsLive(r);
    GreetAllOk(r0, r.toplevels, c, v);
    GreetParentsIn(r.handles, r.toplevels, r.nextProxy);
  }

  /** What pass two of bind relies on, drawn from the invariant before and
      after pass one. */
  lemma BoundFacts(r: Tables, c: ClientId, v: nat)
    requires Consistent(r) && ParentsIn(r.handles)
    ensures Distinct(r.toplevels) && forall t :: t in r.toplevels ==> t in r.handles
    ensures forall p :: p in r.proxies ==> p < r.nextProxy
    ensures var r' := Bound(r, c, v);
            (forall h :: h in r'.handles ==> Live(r'.handles[h].resources, r'.proxies)) && ParentsIn(r'.handles)
  {
    ToplevelsLive(r);
    BindOk(r, c, v);
  }

  /** After pass one of bind, pass two finds each handle's new proxy at
      the head of its list, owned by the binding client, so the replay
      can run. */
  lemma BindReady(r: Tables, c: ClientId, v: nat)
    requires Distinct(r.toplevels) && forall t :: t in r.toplevels ==> t in r.handles
    requires forall p :: p in r.proxies ==> p < r.nextProxy
    requires var r' := Bound(r, c, v);
             (forall h :: h in r'.handles ==> Live(r'.handles[h].resources, r'.proxies)) && ParentsIn(r'.handles)
    ensures ReplayReady(r.toplevels, r.nextProxy, Bound(r, c, v).handles, Bound(r, c, v).proxies)
    ensures HeadsFor(r.toplevels, r.nextProxy, Bound(r, c, v).handles, Bound(r, c, v).proxies, c)
  {
    var ts, start := r.toplevels, r.nextProxy;
    var r' := Bound(r, c, v);
    GreetedShape(r.handles, ts, start);
    IntroducedShape(r.proxies, ts, start, c, v);
    forall k | 0 <= k < |ts|
      ensures ts[k] in r'.handles && start + k in r'.proxies
      ensures r'.handles[ts[k]].resources == [start + k] + r.handles[ts[k]].resources
      ensures r'.proxies[start + k].client == c
    {
    }
  }

  /** Everything pass one of bind establishes, on the tables: they stay
      consistent, no parent dangles, the pending flushes stay valid, and
      pass two can run. */
  lemma BindAllOk(r: Tables, c: ClientId, v: nat, idle: seq<HandleId>)
    requires Consistent(r) && ParentsIn(r.handles) && PendingOk(idle, r.handles)
    ensures forall t :: t in r.toplevels ==> t in r.handles
    ensures Consistent(Bound(r, c, v)) && ParentsIn(Bound(r, c, v).handles)
    ensures PendingOk(idle, Bound(r, c, v).handles)
    ensures ReplayReady(r.toplevels, r.nextProxy, Bound(r, c, v).handles, Bound(r, c, v).proxies)
    ensures HeadsFor(r.toplevels, r.nextProxy, Bound(r, c, v).handles, Bound(r, c, v).proxies, c)
  {
    BoundFacts(r, c, v);
    BindOk(r, c, v);
    BindReady(r, c, v);
    PendingSameKeys(idle, r.handles, Bound(r, c, v).handles);
  }

  /** wlr_foreign_toplevel_handle_v1_create: a fresh, empty handle at the
      head of the registry. */
  lemma CreateOk(r: Tables)
    requires Consistent(r)
    ensures Consistent(r.(toplevels := [r.nextHandle] + r.toplevels,
                          handles := r.handles[r.nextHandle := NewHandle],
                          nextHandle := r.nextHandle + 1))
  {
    var h := r.nextHandle;
    var r' := r.(toplevels := [h] + r.toplevels, handles := r.handles[h := NewHandle], nextHandle := h + 1);
    assert h !in r.handles;
    assert h !in r.toplevels;
    DistinctAdd(h, r.toplevels);
    forall i | 0 <= i < |r'.toplevels| ensures r'.toplevels[i] in r'.handles {
      if i > 0 { assert r'.toplevels[i] == r.toplevels[i - 1]; }
    }
    forall x | x in r'.handles ensures HandleOk(r'.handles, r'.proxies, r'.listeners, x) {
      if x != h { assert HandleOk(r.handles, r.proxies, r.listeners, x); }
    }
    forall p | p in r'.proxies ensures ProxyOk(r'.handles, r'.proxies, p) {
      assert ProxyOk(r.handles, r.proxies, p);
    }
    forall m | m in r'.listeners ensures ListenerOk(r'.handles, m) {
      assert ListenerOk(r.handles, m);
    }
  }

  /** foreign_toplevel_resource_destroy for a proxy still attached to `h`:
      it is unlinked from the handle's list and forgotten. */
  lemma DropAttachedOk(r: Tables, h: HandleId, p: ProxyId)
    requires Consistent(r) && p in r.proxies && r.proxies[p].handle == Some(h)
    ensures h in r.handles
    ensures Consistent(r.(handles := r.handles[h := r.handles[h].(resources := Remove(r.handles[h].resources, p))],
                          proxies := r.proxies - {p}))
  {
    assert ProxyOk(r.handles, r.proxies, p);
    var r' := r.(handles := r.handles[h := r.handles[h].(resources := Remove(r.handles[h].resources, p))],
                 proxies := r.proxies - {p});
    ListedOnce(r, h, p);
    forall x | x in r'.handles
      ensures HandleOk(r'.handles, r'.proxies, r'.listeners, x) && Live(r'.handles[x].resources, r'.proxies)
    {
      assert HandleOk(r.handles, r.proxies, r.listeners, x);
      DroppedHandleOk(r.handles, r.proxies, r.listeners, h, p, x);
    }
    forall q | q in r'.proxies ensures ProxyOk(r'.handles, r'.proxies, q) {
      assert ProxyOk(r.handles, r.proxies, q);
    }
    forall m | m in r'.listeners ensures ListenerOk(r'.handles, m) {
      assert ListenerOk(r.handles, m);
    }
  }

  /** DropAttachedOk, for one handle's lists. */
  lemma DroppedHandleOk(hs: map<HandleId, Handle>, proxies: map<ProxyId, Proxy>, ls: seq<Membership>,
                        h: HandleId, p: ProxyId, x: HandleId)
    requires h in hs && x in hs && HandleOk(hs, proxies, ls, x)
    requires x != h ==> p !in hs[x].resources
    ensures var hs' := hs[h := hs[h].(resources := Remove(hs[h].resources, p))];
            HandleOk(hs', proxies - {p}, ls, x) && Live(hs'[x].resources, proxies - {p})
  {
  }

  /** foreign_toplevel_resource_destroy for a detached proxy: no handle
      lists it, so it is only forgotten. */
  lemma DropDetachedOk(r: Tables, p: ProxyId)
    requires Consistent(r) && p in r.proxies && r.proxies[p].handle.None?
    ensures Consistent(r.(proxies := r.proxies - {p}))
  {
    var r' := r.(proxies := r.proxies - {p});
    forall x | x in r'.handles
      ensures HandleOk(r'.handles, r'.proxies, r'.listeners, x) && Live(r'.handles[x].resources, r'.proxies)
    {
      assert HandleOk(r.handles, r.proxies, r.listeners, x);
    }
    forall q | q in r'.proxies ensures ProxyOk(r'.handles, r'.proxies, q) {
      assert ProxyOk(r.handles, r.proxies, q);
    }
  }

  /** foreign_toplevel_manager_bind: a fresh manager resource at the head
      of the manager's list. */
  lemma AddBindingOk(r: Tables, c: ClientId, v: nat)
    requires Consistent(r)
    ensures Consistent(r.(bindings := [ManagerResource(r.nextBinding, c, v)] + r.bindings,
                          nextBinding := r.nextBinding + 1))
  {
    var b := ManagerResource(r.nextBinding, c, v);
    assert b !in r.bindings;
    DistinctAdd(b, r.bindings);
  }

  /** foreign_toplevel_manager_resource_destroy: the manager resource is
      unlinked from the manager's list. */
  lemma RemoveBindingOk(r: Tables, b: ManagerResource)
    requires Consistent(r)
    ensures Consistent(r.(bindings := Remove(r.bindings, b)))
  {
  }

  /** Every handle listening on output `o` is live and on the output. */
  lemma ListenersLive(r: Tables, o: OutputId)
    requires Consistent(r)
    ensures forall t :: t in ListenersOn(r.listeners, o) ==> t in r.handles && o in r.handles[t].outputs
    ensures Distinct(ListenersOn(r.listeners, o))
  {
    forall t | t in ListenersOn(r.listeners, o) ensures t in r.handles && o in r.handles[t].outputs {
      assert ListenerOk(r.handles, Membership(t, o));
    }
  }

  /** Every handle on output `o` is listening on it. */
  lemma OnOutputListens(r: Tables, o: OutputId)
    requires Consistent(r)
    ensures forall t :: t in r.handles && o in r.handles[t].outputs ==> t in ListenersOn(r.listeners, o)
  {
    forall t | t in r.handles && o in r.handles[t].outputs ensures t in ListenersOn(r.listeners, o) {
      MemberListens(r, t, o);
    }
  }

  /** A handle on output `o` is listening on it. */
  lemma MemberListens(r: Tables, t: HandleId, o: OutputId)
    requires Consistent(r) && t in r.handles && o in r.handles[t].outputs
    ensures t in ListenersOn(r.listeners, o)
  {
    assert HandleOk(r.handles, r.proxies, r.listeners, t);
  }

  /** No proxy is listed by two handles, and no handle lists one twice. */
  lemma ProxiesOwnedOnce(r: Tables)
    requires Consistent(r)
    ensures OwnedOnce(r.handles)
    ensures forall h :: h in r.handles ==> Distinct(r.handles[h].resources)
  {
    forall h | h in r.handles ensures Distinct(r.handles[h].resources) {
      assert HandleOk(r.handles, r.proxies, r.listeners, h);
    }
    forall h1, h2, p | h1 in r.handles && h2 in r.handles && p in r.handles[h1].resources && p in r.handles[h2].resources
      ensures h1 == h2
    {
      ListedOnce(r, h1, p);
    }
  }
}
