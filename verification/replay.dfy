/** What a client that binds the manager is sent: the announcement of a
    proxy per live handle, then each handle's full details ending in done. */
module Replay {
  import opened States
  import opened Types
  import opened Fanout

  /** An enter for each membership of the list, in list order, each naming
      every binding client `c` has of that output. */
  function EnterAllMsgs(os: seq<OutputId>, p: ProxyId, c: ClientId,
                        outs: map<OutputId, seq<OutputResource>>): seq<Msg>
  {
    if os == [] then []
    else EnterAllMsgs(os[..|os| - 1], p, c, outs) + OutputMsgs(p, Bindings(outs, os[|os| - 1]), c, true)
  }

  /** The enters of the details are output enters to `p` alone. */
  lemma {:induction false} EnterAllShape(os: seq<OutputId>, p: ProxyId, c: ClientId,
                                         outs: map<OutputId, seq<OutputResource>>)
    ensures forall m :: m in EnterAllMsgs(os, p, c, outs) ==> m.ToHandle? && m.proxy == p && m.event.OutputEnter?
    decreases |os|
  {
    if os != [] {
      EnterAllShape(os[..|os| - 1], p, c, outs);
      OutputMsgsCovers(p, Bindings(outs, os[|os| - 1]), c, true);
    }
  }

  /** The property events of the details, each only when the property is
      set and, for the two metadata groups, the proxy's version has them. */
  function PropertyMsgs(t: Handle, p: ProxyId, version: nat): seq<Msg>
  {
    (if t.title.Some? then [ToHandle(p, Title(t.title.value))] else [])
    + (if t.appId.Some? then [ToHandle(p, AppId(t.appId.value))] else [])
    + (if HasGtkShell1Props(t.gtk) && version >= GtkShell1SinceVersion
       then [ToHandle(p, GtkShell1Dbus(t.gtk))] else [])
    + (if HasKdeAppMenu(t.kde) && version >= KdeAppMenuSinceVersion
       then [ToHandle(p, KdeApplicationMenu(t.kde))] else [])
  }

  /** The property events go to `p` alone, none of them a done, the title
      first when it is set. */
  lemma PropertyShape(t: Handle, p: ProxyId, version: nat)
    ensures forall m :: m in PropertyMsgs(t, p, version) ==> m.ToHandle? && m.proxy == p && !m.event.Done?
    ensures t.title.Some? ==> |PropertyMsgs(t, p, version)| > 0
                              && PropertyMsgs(t, p, version)[0] == ToHandle(p, Title(t.title.value))
  {
  }

  /** toplevel_send_details_to_toplevel_resource: the details of handle `t`
      for proxy `p`; `pr` is the parent's resource list (None: no parent). */
  function DetailMsgs(t: Handle, p: ProxyId, proxies: map<ProxyId, Proxy>,
                      outs: map<OutputId, seq<OutputResource>>, pr: Option<seq<ProxyId>>): seq<Msg>
    requires p in proxies
    requires pr.Some? ==> Live(pr.value, proxies)
  {
    PropertyMsgs(t, p, proxies[p].version)
    + EnterAllMsgs(t.outputs, p, proxies[p].client, outs)
    + [ToHandle(p, State(StateArray(t.state)))]
    + ParentMsg(p, proxies, pr)
    + [ToHandle(p, Done)]
  }

  /** The details, piece by piece as they are sent after `s`. */
  lemma DetailsParts(t: Handle, p: ProxyId, proxies: map<ProxyId, Proxy>,
                     outs: map<OutputId, seq<OutputResource>>, pr: Option<seq<ProxyId>>, s: seq<Msg>)
    requires p in proxies
    requires pr.Some? ==> Live(pr.value, proxies)
    ensures s + DetailMsgs(t, p, proxies, outs, pr)
            == s + PropertyMsgs(t, p, proxies[p].version)
               + EnterAllMsgs(t.outputs, p, proxies[p].client, outs)
               + [ToHandle(p, State(StateArray(t.state)))]
               + ParentMsg(p, proxies, pr)
               + [ToHandle(p, Done)]
  {
    AppendFive(s, PropertyMsgs(t, p, proxies[p].version), EnterAllMsgs(t.outputs, p, proxies[p].client, outs),
               [ToHandle(p, State(StateArray(t.state)))], ParentMsg(p, proxies, pr), [ToHandle(p, Done)]);
  }

  /** The block ends in a done, and that done is its only one. */
  predicate EndsInOneDone(block: seq<Msg>) {
    && |block| > 0
    && block[|block| - 1].ToHandle? && block[|block| - 1].event == Done
    && forall k :: 0 <= k < |block| - 1 ==> !(block[k].ToHandle? && block[k].event == Done)
  }

  /** The details go to `p` alone, hold the full state, and end in the one
      and only done of the block; the title, when set, comes first. */
  lemma DetailsShape(t: Handle, p: ProxyId, proxies: map<ProxyId, Proxy>,
                     outs: map<OutputId, seq<OutputResource>>, pr: Option<seq<ProxyId>>)
    requires p in proxies
    requires pr.Some? ==> Live(pr.value, proxies)
    ensures OnlyTo(DetailMsgs(t, p, proxies, outs, pr), p)
    ensures EndsInOneDone(DetailMsgs(t, p, proxies, outs, pr))
    ensures ToHandle(p, State(StateArray(t.state))) in DetailMsgs(t, p, proxies, outs, pr)
    ensures t.title.Some? ==> DetailMsgs(t, p, proxies, outs, pr)[0] == ToHandle(p, Title(t.title.value))
  {
    var r := DetailMsgs(t, p, proxies, outs, pr);
    var head := PropertyMsgs(t, p, proxies[p].version);
    var enters := EnterAllMsgs(t.outputs, p, proxies[p].client, outs);
    var parent := ParentMsg(p, proxies, pr);
    var state := ToHandle(p, State(StateArray(t.state)));
    var body := head + enters + [state] + parent;
    PropertyShape(t, p, proxies[p].version);
    EnterAllShape(t.outputs, p, proxies[p].client, outs);
    ParentMsgShape(p, proxies, pr);
    assert r == body + [ToHandle(p, Done)];
    assert forall m :: m in body ==> m.ToHandle? && m.proxy == p && !m.event.Done? by {
      forall m | m in body ensures m.ToHandle? && m.proxy == p && !m.event.Done? {
        if m in head {
        } else if m in enters {
        } else if m == state {
        } else {
          assert m in parent;
        }
      }
    }
    forall k | 0 <= k < |r| - 1 ensures !(r[k].ToHandle? && r[k].event == Done) {
      assert r[k] == body[k];
      assert body[k] in body;
    }
    assert state in body;
    if t.title.Some? {
      assert r[0] == head[0];
    }
  }

  /** Every handle of `ts` is live and has a parent that is live too; the
      proxies `start`, `start + 1`, ... exist. */
  ghost predicate ReplayReady(ts: seq<HandleId>, start: ProxyId, hs: map<HandleId, Handle>,
                              proxies: map<ProxyId, Proxy>) {
    && (forall i :: 0 <= i < |ts| ==> ts[i] in hs && start + i in proxies)
    && (forall h :: h in hs ==> Live(hs[h].resources, proxies))
    && ParentsIn(hs)
  }

  /** The details of the i-th handle of `ts` for its new proxy `start + i`,
      written out piece by piece (`ReplayBlockDetails` shows they are the
      handle's `DetailMsgs`). */
  function ReplayBlock(ts: seq<HandleId>, start: ProxyId, hs: map<HandleId, Handle>,
                       proxies: map<ProxyId, Proxy>, outs: map<OutputId, seq<OutputResource>>, i: nat): seq<Msg>
    requires ReplayReady(ts, start, hs, proxies) && i < |ts|
  {
    ReplayAt(ts, start, hs, proxies, i);
    PropertyMsgs(hs[ts[i]], start + i, proxies[start + i].version)
    + EnterAllMsgs(hs[ts[i]].outputs, start + i, proxies[start + i].client, outs)
    + [ToHandle(start + i, State(StateArray(hs[ts[i]].state)))]
    + ParentMsg(start + i, proxies, ParentResources(hs, ParentOf(hs, ts[i])))
    + [ToHandle(start + i, Done)]
  }

  /** Block `i` of pass two is what toplevel_send_details_to_toplevel_resource
      sends for the i-th handle to its new proxy. */
  lemma ReplayBlockDetails(ts: seq<HandleId>, start: ProxyId, hs: map<HandleId, Handle>,
                           proxies: map<ProxyId, Proxy>, outs: map<OutputId, seq<OutputResource>>, i: nat)
    requires ReplayReady(ts, start, hs, proxies) && i < |ts|
    ensures ts[i] in hs && start + i in proxies
    ensures hs[ts[i]].parent.Some? ==> hs[ts[i]].parent.value in hs
    ensures var pr := ParentResources(hs, hs[ts[i]].parent); pr.Some? ==> Live(pr.value, proxies)
    ensures ReplayBlock(ts, start, hs, proxies, outs, i)
            == DetailMsgs(hs[ts[i]], start + i, proxies, outs, ParentResources(hs, hs[ts[i]].parent))
  {
    ReplayAt(ts, start, hs, proxies, i);
  }

  /** The replayed blocks, one per handle of `ts`, in registry order. */
  function ReplayBlocks(ts: seq<HandleId>, start: ProxyId, hs: map<HandleId, Handle>,
                        proxies: map<ProxyId, Proxy>, outs: map<OutputId, seq<OutputResource>>): (r: seq<seq<Msg>>)
    requires ReplayReady(ts, start, hs, proxies)
    ensures |r| == |ts|
    ensures forall k :: 0 <= k < |ts| ==> r[k] == ReplayBlock(ts, start, hs, proxies, outs, k)
  {
    seq(|ts|, k requires 0 <= k < |ts| => ReplayBlock(ts, start, hs, proxies, outs, k))
  }

  /** Pass two of bind: the details of the i-th handle of the registry to the
      proxy the client got for it in pass one, `start + i`. */
  function ReplayMsgs(ts: seq<HandleId>, start: ProxyId, hs: map<HandleId, Handle>,
                      proxies: map<ProxyId, Proxy>, outs: map<OutputId, seq<OutputResource>>): seq<Msg>
    requires ReplayReady(ts, start, hs, proxies)
  {
    ReplayUpTo(ts, start, hs, proxies, outs, |ts|)
  }

  /** The first `n` blocks of pass two. */
  function ReplayUpTo(ts: seq<HandleId>, start: ProxyId, hs: map<HandleId, Handle>,
                      proxies: map<ProxyId, Proxy>, outs: map<OutputId, seq<OutputResource>>, n: nat): seq<Msg>
    requires ReplayReady(ts, start, hs, proxies) && n <= |ts|
  {
    if n == 0 then [] else ReplayUpTo(ts, start, hs, proxies, outs, n - 1) + ReplayBlock(ts, start, hs, proxies, outs, n - 1)
  }

  /** The first `n` blocks, sent one after the other. */
  lemma {:induction false} ReplayUpToBlocks(ts: seq<HandleId>, start: ProxyId, hs: map<HandleId, Handle>,
                                            proxies: map<ProxyId, Proxy>, outs: map<OutputId, seq<OutputResource>>, n: nat)
    requires ReplayReady(ts, start, hs, proxies) && n <= |ts|
    ensures ReplayUpTo(ts, start, hs, proxies, outs, n) == Flatten(ReplayBlocks(ts, start, hs, proxies, outs)[..n])
  {
    if n > 0 {
      ReplayUpToBlocks(ts, start, hs, proxies, outs, n - 1);
      FlattenSnoc(ReplayBlocks(ts, start, hs, proxies, outs), n - 1);
    }
  }

  /** Pass one's doing: the i-th handle of `ts` has at the head of its list
      the new proxy `start + i`, owned by the binding client `c`. */
  ghost predicate HeadsFor(ts: seq<HandleId>, start: ProxyId, hs: map<HandleId, Handle>,
                           proxies: map<ProxyId, Proxy>, c: ClientId) {
    forall k :: 0 <= k < |ts| ==>
      && ts[k] in hs && start + k in proxies
      && hs[ts[k]].resources != [] && hs[ts[k]].resources[0] == start + k
      && proxies[start + k].client == c
  }

  /** So wl_resource_find_for_client, in pass two, finds `start + i` for the
      i-th handle. */
  lemma HeadFound(ts: seq<HandleId>, start: ProxyId, hs: map<HandleId, Handle>,
                  proxies: map<ProxyId, Proxy>, c: ClientId, i: nat)
    requires ReplayReady(ts, start, hs, proxies) && HeadsFor(ts, start, hs, proxies, c) && i < |ts|
    ensures FindForClient(hs[ts[i]].resources, proxies, c) == Some(start + i)
  {
    FindHead(hs[ts[i]].resources, proxies, c);
  }

  /** The i-th handle of pass two and its new proxy exist, and its parent is live. */
  lemma ReplayAt(ts: seq<HandleId>, start: ProxyId, hs: map<HandleId, Handle>,
                 proxies: map<ProxyId, Proxy>, i: nat)
    requires ReplayReady(ts, start, hs, proxies) && i < |ts|
    ensures ts[i] in hs && start + i in proxies
    ensures hs[ts[i]].parent.Some? ==> hs[ts[i]].parent.value in hs && Live(hs[hs[ts[i]].parent.value].resources, proxies)
    ensures var pr := ParentResources(hs, hs[ts[i]].parent); pr.Some? ==> Live(pr.value, proxies)
  {
    assert ts[i] in hs && ParentsIn(hs);
    assert ParentOf(hs, ts[i]).Some? ==> ParentOf(hs, ts[i]).value in hs;
  }

  /** Once every handle of `ts` had its turn, pass two is complete. */
  lemma ReplayDone(ts: seq<HandleId>, start: ProxyId, hs: map<HandleId, Handle>,
                   proxies: map<ProxyId, Proxy>, outs: map<OutputId, seq<OutputResource>>, i: nat, s: seq<Msg>,
                   sent: seq<Msg>, blocks: seq<seq<Msg>>)
    requires ReplayReady(ts, start, hs, proxies) && i == |ts|
    requires blocks == ReplayBlocks(ts, start, hs, proxies, outs)
    requires sent == s + Flatten(blocks[..i])
    ensures sent == s + ReplayMsgs(ts, start, hs, proxies, outs)
  {
    ReplayUpToBlocks(ts, start, hs, proxies, outs, i);
  }

  /** Each proxy created by the bind receives exactly the details of its own
      handle, and every other proxy (those of other clients, and the
      client's own older ones) receives nothing. */
  lemma ReplayDelivers(ts: seq<HandleId>, start: ProxyId, hs: map<HandleId, Handle>,
                       proxies: map<ProxyId, Proxy>,
                       outs: map<OutputId, seq<OutputResource>>, p: ProxyId)
    requires ReplayReady(ts, start, hs, proxies)
    ensures EventsTo(ReplayMsgs(ts, start, hs, proxies, outs), p)
            == if start <= p < start + |ts| then EventsTo(ReplayBlock(ts, start, hs, proxies, outs, p - start), p) else []
  {
    var bs := ReplayBlocks(ts, start, hs, proxies, outs);
    ReplayFlat(ts, start, hs, proxies, outs);
    if start <= p < start + |ts| {
      FlattenDelivers(bs, start, p);
    } else {
      FlattenQuiet(bs, start, p);
    }
  }

  /** Pass two is its blocks sent one after the other, block k to proxy
      `start + k` alone. */
  lemma ReplayFlat(ts: seq<HandleId>, start: ProxyId, hs: map<HandleId, Handle>,
                   proxies: map<ProxyId, Proxy>, outs: map<OutputId, seq<OutputResource>>)
    requires ReplayReady(ts, start, hs, proxies)
    ensures ReplayMsgs(ts, start, hs, proxies, outs) == Flatten(ReplayBlocks(ts, start, hs, proxies, outs))
    ensures BlocksTo(ReplayBlocks(ts, start, hs, proxies, outs), start)
  {
    var bs := ReplayBlocks(ts, start, hs, proxies, outs);
    ReplayUpToBlocks(ts, start, hs, proxies, outs, |ts|);
    assert bs[..|ts|] == bs;
    forall k | 0 <= k < |bs| ensures OnlyTo(bs[k], start + k) {
      BlockOnlyTo(ts, start, hs, proxies, outs, k);
    }
  }

  /** The i-th replayed block goes to the i-th new proxy alone and ends in its one done. */
  lemma BlockOnlyTo(ts: seq<HandleId>, start: ProxyId, hs: map<HandleId, Handle>,
                    proxies: map<ProxyId, Proxy>, outs: map<OutputId, seq<OutputResource>>, i: nat)
    requires ReplayReady(ts, start, hs, proxies) && i < |ts|
    ensures OnlyTo(ReplayBlock(ts, start, hs, proxies, outs, i), start + i)
    ensures EndsInOneDone(ReplayBlock(ts, start, hs, proxies, outs, i))
  {
    ReplayBlockDetails(ts, start, hs, proxies, outs, i);
    DetailsShape(hs[ts[i]], start + i, proxies, outs, ParentResources(hs, hs[ts[i]].parent));
  }

  /** Pass one of bind: the i-th handle's new proxy `start + i` announced on `m`. */
  function BindAnnouncements(m: ManagerResourceId, start: ProxyId, n: nat): (r: seq<Msg>)
    ensures |r| == n
    ensures forall k :: 0 <= k < n ==> r[k] == ToManager(m, NewToplevel(start + k))
  {
    if n == 0 then [] else BindAnnouncements(m, start, n - 1) + [ToManager(m, NewToplevel(start + n - 1))]
  }

  /** Pass one of bind on the handles: the i-th handle of `ts` gets the new
      proxy `start + i` at the head of its resource list. */
  function Greeted(hs: map<HandleId, Handle>, ts: seq<HandleId>, start: ProxyId): (r: map<HandleId, Handle>)
    requires forall t :: t in ts ==> t in hs
    ensures r.Keys == hs.Keys
  {
    if ts == [] then hs
    else
      var n := |ts| - 1;
      assert forall x :: x in ts[..n] ==> x in ts;
      var r' := Greeted(hs, ts[..n], start);
      r'[ts[n] := r'[ts[n]].(resources := [start + n] + r'[ts[n]].resources)]
  }

  /** Pass one of bind on the proxies: `start + i` is the client's proxy of
      the i-th handle of `ts`, at the version the client bound. */
  function Introduced(ps: map<ProxyId, Proxy>, ts: seq<HandleId>, start: ProxyId, c: ClientId, v: nat): map<ProxyId, Proxy>
  {
    if ts == [] then ps
    else
      var n := |ts| - 1;
      Introduced(ps, ts[..n], start, c, v)[start + n := Proxy(c, v, Some(ts[n]))]
  }

  /** One more turn of pass one: the i-th handle gets proxy `start + i`,
      which is announced last. */
  lemma GreetStep(hs: map<HandleId, Handle>, ps: map<ProxyId, Proxy>, ts: seq<HandleId>, start: ProxyId,
                  c: ClientId, v: nat, i: nat, s: seq<Msg>, m: ManagerResourceId)
    requires i < |ts| && forall t :: t in ts ==> t in hs
    ensures forall t :: t in ts[..i] ==> t in hs
    ensures Greeted(hs, ts[..i + 1], start)
            == var g := Greeted(hs, ts[..i], start);
               g[ts[i] := g[ts[i]].(resources := [start + i] + g[ts[i]].resources)]
    ensures Introduced(ps, ts[..i + 1], start, c, v) == Introduced(ps, ts[..i], start, c, v)[start + i := Proxy(c, v, Some(ts[i]))]
    ensures s + BindAnnouncements(m, start, i + 1) == s + BindAnnouncements(m, start, i) + [ToManager(m, NewToplevel(start + i))]
  {
    assert ts[..i + 1][..i] == ts[..i];
    assert forall t :: t in ts[..i] ==> t in ts;
  }

  /** Pass one over `ts` is pass one over all but its last handle, then
      that last handle's turn. */
  lemma GreetSnoc(hs: map<HandleId, Handle>, ps: map<ProxyId, Proxy>, ts: seq<HandleId>, start: ProxyId,
                  c: ClientId, v: nat)
    requires ts != [] && forall t :: t in ts ==> t in hs
    ensures forall t :: t in ts[..|ts| - 1] ==> t in hs
    ensures var n := |ts| - 1;
            var g := Greeted(hs, ts[..n], start);
            Greeted(hs, ts, start) == g[ts[n] := g[ts[n]].(resources := [start + n] + g[ts[n]].resources)]
    ensures Introduced(ps, ts, start, c, v)
            == Introduced(ps, ts[..|ts| - 1], start, c, v)[start + |ts| - 1 := Proxy(c, v, Some(ts[|ts| - 1]))]
  {
    assert forall t :: t in ts[..|ts| - 1] ==> t in ts;
  }

  /** After pass one each handle of `ts` lists its new proxy first, and the
      handles not in `ts` are untouched. */
  lemma {:induction false} GreetedShape(hs: map<HandleId, Handle>, ts: seq<HandleId>, start: ProxyId)
    requires (forall t :: t in ts ==> t in hs) && Distinct(ts)
    ensures forall k :: 0 <= k < |ts| ==>
      Greeted(hs, ts, start)[ts[k]] == hs[ts[k]].(resources := [start + k] + hs[ts[k]].resources)
    ensures forall t :: t in hs && t !in ts ==> Greeted(hs, ts, start)[t] == hs[t]
    decreases |ts|
  {
    if ts != [] {
      var n := |ts| - 1;
      var ts' := ts[..n];
      DistinctInit(ts);
      assert forall x :: x in ts' ==> x in ts;
      GreetedShape(hs, ts', start);
      var g, g' := Greeted(hs, ts', start), Greeted(hs, ts, start);
      assert g' == g[ts[n] := g[ts[n]].(resources := [start + n] + g[ts[n]].resources)];
      assert g[ts[n]] == hs[ts[n]] by { assert ts[n] !in ts'; }
      forall k | 0 <= k < |ts|
        ensures Greeted(hs, ts, start)[ts[k]] == hs[ts[k]].(resources := [start + k] + hs[ts[k]].resources)
      {
        if k < n {
          assert ts[k] == ts'[k] && ts[k] != ts[n];
        }
      }
      forall t | t in hs && t !in ts
        ensures g'[t] == hs[t]
      {
        assert t !in ts' && t != ts[n];
      }
    }
  }

  /** After pass one the proxies `start .. start + |ts|` exist, the i-th
      belonging to the binding client and standing for the i-th handle;
      older proxies are untouched. */
  lemma {:induction false} IntroducedShape(ps: map<ProxyId, Proxy>, ts: seq<HandleId>, start: ProxyId, c: ClientId, v: nat)
    requires forall p :: p in ps ==> p < start
    ensures forall p :: p in Introduced(ps, ts, start, c, v) <==> p in ps || start <= p < start + |ts|
    ensures forall p :: p in ps ==> Introduced(ps, ts, start, c, v)[p] == ps[p]
    ensures forall k :: 0 <= k < |ts| ==> Introduced(ps, ts, start, c, v)[start + k] == Proxy(c, v, Some(ts[k]))
    decreases |ts|
  {
    if ts != [] {
      var n := |ts| - 1;
      IntroducedShape(ps, ts[..n], start, c, v);
      forall k | 0 <= k < n ensures ts[k] == ts[..n][k] { }
    }
  }

  /** Why bind runs two passes: once every live handle has a proxy for the
      client at the head of its list, the replayed parent event of a child
      always resolves to the client's proxy of the parent and is never
      suppressed. */
  lemma ReplayParentResolved(ts: seq<HandleId>, start: ProxyId, hs: map<HandleId, Handle>,
                             proxies: map<ProxyId, Proxy>, c: ClientId, i: int, j: int)
    requires ReplayReady(ts, start, hs, proxies)
    requires HeadsFor(ts, start, hs, proxies, c)
    requires 0 <= i < |ts| && 0 <= j < |ts|
    requires ParentOf(hs, ts[i]) == Some(ts[j])
    requires proxies[start + i].version >= ParentSinceVersion
    ensures ParentMsg(start + i, proxies, ParentResources(hs, ParentOf(hs, ts[i])))
            == [ToHandle(start + i, Parent(Some(start + j)))]
  {
    var rs := hs[ts[j]].resources;
    assert rs == [rs[0]] + rs[1..];
  }
}
