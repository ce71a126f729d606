/** What creating and destroying handles sends: the announcements of new
    proxies on the manager bindings, and the parent events that un-parent
    the children of a destroyed handle. */
module Lifecycle {
  import opened Types
  import opened Fanout
  import opened Idle

  /** The proxies `start .. start + n` as a handle lists them once each was
      inserted at the head in turn: newest first. */
  function NewestFirst(start: ProxyId, n: nat): seq<ProxyId>
  {
    if n == 0 then [] else [start + n - 1] + NewestFirst(start, n - 1)
  }

  /** Newest first lists each of the `n` proxies once, counting down. */
  lemma {:induction false} NewestFirstShape(start: ProxyId, n: nat)
    ensures |NewestFirst(start, n)| == n
    ensures forall k :: 0 <= k < n ==> NewestFirst(start, n)[k] == start + n - 1 - k
    ensures forall p :: p in NewestFirst(start, n) <==> start <= p < start + n
    ensures Distinct(NewestFirst(start, n))
  {
    if n > 0 {
      NewestFirstShape(start, n - 1);
      var r := NewestFirst(start, n);
      assert r == [start + n - 1] + NewestFirst(start, n - 1);
      forall k | 0 < k < n ensures r[k] == start + n - 1 - k {
        assert r[k] == NewestFirst(start, n - 1)[k - 1];
      }
    }
  }

  /** wlr_foreign_toplevel_handle_v1_create's announcements: the k-th
      manager binding is told about the new proxy `start + k`. */
  function AnnounceMsgs(bs: seq<ManagerResource>, start: ProxyId): seq<Msg>
  {
    if bs == [] then []
    else AnnounceMsgs(bs[..|bs| - 1], start) + [ToManager(bs[|bs| - 1].id, NewToplevel(start + |bs| - 1))]
  }

  /** One announcement per binding, in binding order, each naming its own
      new proxy. */
  lemma {:induction false} AnnounceShape(bs: seq<ManagerResource>, start: ProxyId)
    ensures |AnnounceMsgs(bs, start)| == |bs|
    ensures forall k :: 0 <= k < |bs| ==> AnnounceMsgs(bs, start)[k] == ToManager(bs[k].id, NewToplevel(start + k))
    decreases |bs|
  {
    if bs != [] {
      var bs' := bs[..|bs| - 1];
      AnnounceShape(bs', start);
      forall k | 0 <= k < |bs| - 1 ensures AnnounceMsgs(bs, start)[k] == ToManager(bs[k].id, NewToplevel(start + k)) {
        assert bs[k] == bs'[k];
      }
    }
  }

  /** The proxies once a new proxy of `h` was created for each binding of
      `bs` in turn: the k-th, for binding `bs[k]`, is numbered `start + k`
      and carries that binding's client and version. */
  function Spawned(ps: map<ProxyId, Proxy>, bs: seq<ManagerResource>, start: ProxyId, h: HandleId): map<ProxyId, Proxy>
  {
    if bs == [] then ps
    else
      var b := bs[|bs| - 1];
      Spawned(ps, bs[..|bs| - 1], start, h)[start + |bs| - 1 := Proxy(b.client, b.version, Some(h))]
  }

  /** Creating the proxies keeps every older proxy and adds exactly the
      numbers `start .. start + |bs|`, each attached to `h`. */
  lemma {:induction false} SpawnedProxies(ps: map<ProxyId, Proxy>, bs: seq<ManagerResource>, start: ProxyId, h: HandleId)
    requires forall p :: p in ps ==> p < start
    ensures forall p :: p in Spawned(ps, bs, start, h) <==> p in ps || start <= p < start + |bs|
    ensures forall p :: p in ps ==> Spawned(ps, bs, start, h)[p] == ps[p]
    ensures forall k :: 0 <= k < |bs| ==>
      Spawned(ps, bs, start, h)[start + k] == Proxy(bs[k].client, bs[k].version, Some(h))
    decreases |bs|
  {
    if bs != [] {
      var bs' := bs[..|bs| - 1];
      SpawnedProxies(ps, bs', start, h);
      forall k | 0 <= k < |bs| - 1 ensures bs[k] == bs'[k] { }
    }
  }

  /** One more turn of the creation loop: binding `bs[i]` gets proxy
      `start + i`, listed first, announced last. */
  lemma AttachStep(ps: map<ProxyId, Proxy>, bs: seq<ManagerResource>, start: ProxyId, h: HandleId, i: nat,
                    s: seq<Msg>)
    requires i < |bs|
    ensures NewestFirst(start, i + 1) == [start + i] + NewestFirst(start, i)
    ensures Spawned(ps, bs[..i + 1], start, h)
            == Spawned(ps, bs[..i], start, h)[start + i := Proxy(bs[i].client, bs[i].version, Some(h))]
    ensures s + AnnounceMsgs(bs[..i + 1], start)
            == s + AnnounceMsgs(bs[..i], start) + [ToManager(bs[i].id, NewToplevel(start + i))]
  {
    assert bs[..i + 1][..i] == bs[..i];
  }

  /** The handles of `ts` whose parent is `h`, in the order of `ts`. */
  function Children(ts: seq<HandleId>, hs: map<HandleId, Handle>, h: HandleId): (r: seq<HandleId>)
    requires forall t :: t in ts ==> t in hs
    ensures forall t :: t in r <==> t in ts && ParentOf(hs, t) == Some(h)
  {
    if ts == [] then []
    else
      var t := ts[|ts| - 1];
      assert forall x :: x in ts[..|ts| - 1] ==> x in ts;
      Children(ts[..|ts| - 1], hs, h) + (if ParentOf(hs, t) == Some(h) then [t] else [])
  }

  /** The last pass of wlr_foreign_toplevel_handle_v1_destroy: every child
      of `h` in `ts`, in registry order, has its parent set to null, which
      tells each of its proxies that it has no parent any more. */
  function ReparentMsgs(ts: seq<HandleId>, hs: map<HandleId, Handle>, proxies: map<ProxyId, Proxy>,
                        h: HandleId): seq<Msg>
    requires forall t :: t in ts ==> t in hs && Live(hs[t].resources, proxies)
  {
    if ts == [] then []
    else
      var t := ts[|ts| - 1];
      assert forall x :: x in ts[..|ts| - 1] ==> x in ts;
      ReparentMsgs(ts[..|ts| - 1], hs, proxies, h)
      + (if ParentOf(hs, t) == Some(h) then ParentFanout(hs[t].resources, proxies, None) else [])
  }

  /** Un-parenting sends null-parent events and nothing else. */
  lemma {:induction false} ReparentOnlyNull(ts: seq<HandleId>, hs: map<HandleId, Handle>,
                                            proxies: map<ProxyId, Proxy>, h: HandleId)
    requires forall t :: t in ts ==> t in hs && Live(hs[t].resources, proxies)
    ensures forall m :: m in ReparentMsgs(ts, hs, proxies, h) ==> m.ToHandle? && m.event == Parent(None)
    decreases |ts|
  {
    if ts != [] {
      var t := ts[|ts| - 1];
      assert forall x :: x in ts[..|ts| - 1] ==> x in ts;
      ReparentOnlyNull(ts[..|ts| - 1], hs, proxies, h);
      ParentFanoutShape(hs[t].resources, proxies, None);
    }
  }

  /** Each proxy of a child of the destroyed handle that knows the parent
      event gets exactly one null-parent event; every other proxy gets none. */
  lemma {:induction false} ReparentDelivers(ts: seq<HandleId>, hs: map<HandleId, Handle>,
                                            proxies: map<ProxyId, Proxy>, h: HandleId, p: ProxyId)
    requires forall t :: t in ts ==> t in hs && Live(hs[t].resources, proxies)
    requires Distinct(ts) && OwnedOnce(hs)
    requires forall t :: t in hs ==> Distinct(hs[t].resources)
    ensures EventsTo(ReparentMsgs(ts, hs, proxies, h), p)
            == if (exists t :: t in ts && ParentOf(hs, t) == Some(h) && p in hs[t].resources)
                  && p in proxies && proxies[p].version >= ParentSinceVersion
               then [Parent(None)] else []
    decreases |ts|
  {
    if ts != [] {
      var ts' := ts[..|ts| - 1];
      var t := ts[|ts| - 1];
      assert ts == ts' + [t];
      DistinctInit(ts);
      ReparentDelivers(ts', hs, proxies, h, p);
      var tail := if ParentOf(hs, t) == Some(h) then ParentFanout(hs[t].resources, proxies, None) else [];
      EventsToAppend(ReparentMsgs(ts', hs, proxies, h), tail, p);
      if ParentOf(hs, t) == Some(h) {
        ParentFanoutDelivers(hs[t].resources, proxies, None, p);
        if p in hs[t].resources {
          forall t' | t' in ts' ensures p !in hs[t'].resources {
            assert t' != t;
          }
        }
      }
    }
  }

  /** The registry after destroy's last pass: every handle whose parent was
      `h` has a null parent, every other handle is as it was. */
  function Orphaned(hs: map<HandleId, Handle>, h: HandleId): (r: map<HandleId, Handle>)
    ensures r.Keys == hs.Keys
    ensures forall t :: t in r ==> ParentOf(r, t) != Some(h)
    ensures forall t :: t in r ==> r[t].resources == hs[t].resources && r[t].outputs == hs[t].outputs
    ensures forall t :: t in r ==> r[t] == if ParentOf(hs, t) == Some(h) then hs[t].(parent := None) else hs[t]
  {
    map t | t in hs :: if ParentOf(hs, t) == Some(h) then hs[t].(parent := None) else hs[t]
  }

  /** The registry once each handle of `ts` whose parent was `h`, in turn,
      had its parent set to null. */
  function Reparented(hs: map<HandleId, Handle>, ts: seq<HandleId>, h: HandleId): map<HandleId, Handle>
  {
    if ts == [] then hs
    else
      var m := Reparented(hs, ts[..|ts| - 1], h);
      var t := ts[|ts| - 1];
      if t in m && m[t].parent == Some(h) then m[t := m[t].(parent := None)] else m
  }

  /** Un-parenting keeps every handle and only nulls the parent of the
      children of `h` among `ts`. */
  lemma {:induction false} ReparentedShape(hs: map<HandleId, Handle>, ts: seq<HandleId>, h: HandleId)
    ensures Reparented(hs, ts, h).Keys == hs.Keys
    ensures forall t :: t in hs ==>
      Reparented(hs, ts, h)[t] == if t in ts && hs[t].parent == Some(h) then hs[t].(parent := None) else hs[t]
    decreases |ts|
  {
    if ts != [] {
      var ts' := ts[..|ts| - 1];
      assert ts == ts' + [ts[|ts| - 1]];
      ReparentedShape(hs, ts', h);
    }
  }

  /** Once every handle of the registry had its turn, the children of `h`
      are orphaned. */
  lemma ReparentedAll(hs: map<HandleId, Handle>, ts: seq<HandleId>, h: HandleId)
    requires forall t :: t in hs ==> t in ts
    ensures Reparented(hs, ts, h) == Orphaned(hs, h)
  {
    ReparentedShape(hs, ts, h);
  }

  /** One more turn of destroy's last loop, on the `i`-th handle of `ts`:
      it is found as it was, and only a child of `h` changes. */
  lemma ReparentedStep(hs: map<HandleId, Handle>, ts: seq<HandleId>, h: HandleId, i: nat)
    requires Distinct(ts) && i < |ts| && ts[i] in hs
    ensures ts[i] in Reparented(hs, ts[..i], h) && Reparented(hs, ts[..i], h)[ts[i]] == hs[ts[i]]
    ensures Reparented(hs, ts[..i + 1], h)
            == if ParentOf(hs, ts[i]) == Some(h)
               then Reparented(hs, ts[..i], h)[ts[i] := hs[ts[i]].(parent := None)]
               else Reparented(hs, ts[..i], h)
  {
    assert ts[..i + 1][..i] == ts[..i];
    assert ts[i] !in ts[..i];
    ReparentedShape(hs, ts[..i], h);
  }

  /** In that turn only a child of `h` is told, and has a flush armed. */
  lemma ReparentMsgsStep(ts: seq<HandleId>, hs: map<HandleId, Handle>, proxies: map<ProxyId, Proxy>,
                         h: HandleId, i: nat, s: seq<Msg>, q: seq<HandleId>)
    requires i < |ts|
    requires forall t :: t in ts ==> t in hs && Live(hs[t].resources, proxies)
    ensures forall t :: t in ts[..i] ==> t in hs && Live(hs[t].resources, proxies)
    ensures forall t :: t in ts[..i + 1] ==> t in hs && Live(hs[t].resources, proxies)
    ensures s + ReparentMsgs(ts[..i + 1], hs, proxies, h)
            == s + ReparentMsgs(ts[..i], hs, proxies, h)
               + (if ParentOf(hs, ts[i]) == Some(h) then ParentFanout(hs[ts[i]].resources, proxies, None) else [])
    ensures ScheduleAll(q, Children(ts[..i + 1], hs, h))
            == if ParentOf(hs, ts[i]) == Some(h)
               then Schedule(ScheduleAll(q, Children(ts[..i], hs, h)), ts[i])
               else ScheduleAll(q, Children(ts[..i], hs, h))
  {
    assert ts[..i + 1][..i] == ts[..i];
    var tail := if ParentOf(hs, ts[i]) == Some(h) then ParentFanout(hs[ts[i]].resources, proxies, None) else [];
    AppendAssoc(s, ReparentMsgs(ts[..i], hs, proxies, h), tail);
    var c := Children(ts[..i], hs, h);
    assert Children(ts[..i + 1], hs, h) == c + (if ParentOf(hs, ts[i]) == Some(h) then [ts[i]] else []);
    if ParentOf(hs, ts[i]) == Some(h) {
      var c' := c + [ts[i]];
      assert c'[..|c'| - 1] == c && c'[|c'| - 1] == ts[i];
    } else {
      assert c + [] == c;
    }
  }

  /** Why destroy un-parents the children: once `h` has left the registry,
      the only parent pointers that could dangle are the ones to `h`, and
      nulling them leaves none dangling. */
  lemma OrphanedParentsIn(hs: map<HandleId, Handle>, h: HandleId)
    requires h !in hs
    requires forall t :: t in hs && ParentOf(hs, t).Some? ==> ParentOf(hs, t).value in hs || ParentOf(hs, t) == Some(h)
    ensures ParentsIn(Orphaned(hs, h))
  {
    var r := Orphaned(hs, h);
    forall t | t in r ensures ParentOf(r, t).Some? ==> ParentOf(r, t).value in r {
      assert ParentOf(hs, t).Some? ==> ParentOf(hs, t).value in hs || ParentOf(hs, t) == Some(h);
    }
  }

  /** The proxies once those of `rs`, in turn, were detached from their
      handle (destroy's first pass sets each one's user data to null). */
  function Detached(proxies: map<ProxyId, Proxy>, rs: seq<ProxyId>): map<ProxyId, Proxy>
  {
    if rs == [] then proxies
    else
      var m := Detached(proxies, rs[..|rs| - 1]);
      var q := rs[|rs| - 1];
      if q in m then m[q := m[q].(handle := None)] else m
  }

  /** Detaching keeps every proxy, with its client and version, and only
      clears the handle of the proxies of `rs`. */
  lemma {:induction false} DetachedShape(proxies: map<ProxyId, Proxy>, rs: seq<ProxyId>)
    ensures Detached(proxies, rs).Keys == proxies.Keys
    ensures forall p :: p in proxies ==>
      Detached(proxies, rs)[p] == if p in rs then proxies[p].(handle := None) else proxies[p]
    decreases |rs|
  {
    if rs != [] {
      var rs' := rs[..|rs| - 1];
      assert rs == rs' + [rs[|rs| - 1]];
      DetachedShape(proxies, rs');
    }
  }

  /** One more proxy closed: it is sent closed and detached. */
  lemma CloseStep(proxies: map<ProxyId, Proxy>, rs: seq<ProxyId>, i: nat, s: seq<Msg>)
    requires i < |rs|
    ensures Detached(proxies, rs[..i + 1])
            == var m := Detached(proxies, rs[..i]); if rs[i] in m then m[rs[i] := m[rs[i]].(handle := None)] else m
    ensures s + BroadcastMsgs(rs[..i + 1], Closed) == s + BroadcastMsgs(rs[..i], Closed) + [ToHandle(rs[i], Closed)]
  {
    assert rs[..i + 1][..i] == rs[..i];
    AppendAssoc(s, BroadcastMsgs(rs[..i], Closed), [ToHandle(rs[i], Closed)]);
  }
}
