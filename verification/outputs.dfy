/** Output memberships: the listeners a handle registers on each output it
    is on, and what an output's late bind and its destruction send. */
module Outputs {
  import opened Types
  import opened Fanout
  import opened Idle

  /** One output membership of a handle, as the output's bind and destroy
      listeners it registers (`struct wlr_foreign_toplevel_handle_v1_output`). */
  datatype Membership = Membership(handle: HandleId, output: OutputId)

  /** The handles listening on output `o`, in listener registration order. */
  function ListenersOn(ls: seq<Membership>, o: OutputId): (r: seq<HandleId>)
    ensures forall h :: h in r <==> Membership(h, o) in ls
    ensures Distinct(ls) ==> Distinct(r)
  {
    if ls == [] then []
    else
      var m := ls[|ls| - 1];
      var r' := ListenersOn(ls[..|ls| - 1], o);
      assert forall x :: x in ls[..|ls| - 1] ==> x in ls;
      assert Distinct(ls) ==> Distinct(ls[..|ls| - 1]) && m !in ls[..|ls| - 1] by {
        if Distinct(ls) { DistinctInit(ls); }
      }
      assert ls == ls[..|ls| - 1] + [m];
      if m.output == o then r' + [m.handle] else r'
  }

  /** toplevel_handle_output_bind for one handle: each of its proxies owned
      by the binding client `c` is sent an enter for every binding `c` has
      of the output, older bindings included. */
  function BoundFanout(rs: seq<ProxyId>, proxies: map<ProxyId, Proxy>, binds: seq<OutputResource>,
                       c: ClientId): (r: seq<Msg>)
    requires Live(rs, proxies)
    ensures forall m :: m in r ==>
      m.ToHandle? && m.proxy in rs && proxies[m.proxy].client == c && m.event.OutputEnter?
    ensures forall q, b :: q in rs && proxies[q].client == c && b in binds && b.client == c ==>
      ToHandle(q, OutputEnter(b.id)) in r
  {
    if rs == [] then []
    else
      var q := rs[|rs| - 1];
      OutputMsgsCovers(q, binds, c, true);
      BoundFanout(rs[..|rs| - 1], proxies, binds, c)
      + (if proxies[q].client == c then OutputMsgs(q, binds, c, true) else [])
  }

  /** Every listening handle of `ts`, in listener order, reacting to the bind. */
  function BoundMsgs(ts: seq<HandleId>, hs: map<HandleId, Handle>, proxies: map<ProxyId, Proxy>,
                     binds: seq<OutputResource>, c: ClientId): (r: seq<Msg>)
    requires forall t :: t in ts ==> t in hs && Live(hs[t].resources, proxies)
    ensures forall m :: m in r ==>
      m.ToHandle? && m.proxy in proxies && proxies[m.proxy].client == c && m.event.OutputEnter?
    ensures forall t, q, b :: t in ts && q in hs[t].resources && q in proxies && proxies[q].client == c
                              && b in binds && b.client == c ==>
      ToHandle(q, OutputEnter(b.id)) in r
  {
    if ts == [] then []
    else
      var t := ts[|ts| - 1];
      assert forall x :: x in ts[..|ts| - 1] ==> x in ts;
      BoundMsgs(ts[..|ts| - 1], hs, proxies, binds, c) + BoundFanout(hs[t].resources, proxies, binds, c)
  }

  /** Per proxy, the bind's fan-out over one handle: each proxy of the
      binding client logs one enter per binding that client has, in binding
      order; every other proxy logs nothing. */
  lemma {:induction false} BoundFanoutDelivers(rs: seq<ProxyId>, proxies: map<ProxyId, Proxy>,
                                               binds: seq<OutputResource>, c: ClientId, p: ProxyId)
    requires Live(rs, proxies) && Distinct(rs)
    ensures EventsTo(BoundFanout(rs, proxies, binds, c), p)
            == if p in rs && proxies[p].client == c then OutputEvents(binds, c, true) else []
    decreases |rs|
  {
    if rs != [] {
      var rs' := rs[..|rs| - 1];
      var q := rs[|rs| - 1];
      assert rs == rs' + [q];
      DistinctInit(rs);
      assert Live(rs', proxies);
      BoundFanoutDelivers(rs', proxies, binds, c, p);
      var prev := BoundFanout(rs', proxies, binds, c);
      var tail := if proxies[q].client == c then OutputMsgs(q, binds, c, true) else [];
      assert BoundFanout(rs, proxies, binds, c) == prev + tail;
      OutputMsgsOnlyTo(q, binds, c, true);
      AppendBlock(prev, tail, q, p);
      if p == q {
        assert EventsTo(prev, p) == [];
        if proxies[q].client == c {
          OutputMsgsDelivers(q, binds, c, true, p);
        }
        assert [] + EventsTo(tail, p) == EventsTo(tail, p);
      } else if p in rs' {
        assert EventsTo(prev, p) + [] == EventsTo(prev, p);
      } else {
        assert p !in rs && EventsTo(prev, p) == [];
      }
    }
  }

  /** Per proxy, a late output bind: a proxy of the binding client on a
      listening handle logs one enter per binding that client has, in
      binding order, and nothing more; every other proxy logs nothing. */
  lemma {:induction false} BoundMsgsDelivers(ts: seq<HandleId>, hs: map<HandleId, Handle>, proxies: map<ProxyId, Proxy>,
                                             binds: seq<OutputResource>, c: ClientId, p: ProxyId)
    requires forall t :: t in ts ==> t in hs && Live(hs[t].resources, proxies)
    requires Distinct(ts) && OwnedOnce(hs)
    requires forall t :: t in hs ==> Distinct(hs[t].resources)
    ensures EventsTo(BoundMsgs(ts, hs, proxies, binds, c), p)
            == if (exists t :: t in ts && p in hs[t].resources) && p in proxies && proxies[p].client == c
               then OutputEvents(binds, c, true) else []
    decreases |ts|
  {
    if ts != [] {
      var ts' := ts[..|ts| - 1];
      var t := ts[|ts| - 1];
      assert ts == ts' + [t];
      DistinctInit(ts);
      BoundMsgsDelivers(ts', hs, proxies, binds, c, p);
      EventsToAppend(BoundMsgs(ts', hs, proxies, binds, c), BoundFanout(hs[t].resources, proxies, binds, c), p);
      BoundFanoutDelivers(hs[t].resources, proxies, binds, c, p);
      if p in hs[t].resources {
        forall t' | t' in ts' ensures p !in hs[t'].resources {
          assert t' != t;
        }
      }
    }
  }

  /** One more listener reacting to the bind. */
  lemma BoundStep(ts: seq<HandleId>, hs: map<HandleId, Handle>, proxies: map<ProxyId, Proxy>,
                  binds: seq<OutputResource>, c: ClientId, i: nat, s: seq<Msg>)
    requires i < |ts| && forall t :: t in ts ==> t in hs && Live(hs[t].resources, proxies)
    ensures forall t :: t in ts[..i] ==> t in hs && Live(hs[t].resources, proxies)
    ensures forall t :: t in ts[..i + 1] ==> t in hs && Live(hs[t].resources, proxies)
    ensures s + BoundMsgs(ts[..i + 1], hs, proxies, binds, c)
            == s + BoundMsgs(ts[..i], hs, proxies, binds, c) + BoundFanout(hs[ts[i]].resources, proxies, binds, c)
  {
    assert ts[..i + 1][..i] == ts[..i];
    AppendAssoc(s, BoundMsgs(ts[..i], hs, proxies, binds, c), BoundFanout(hs[ts[i]].resources, proxies, binds, c));
  }

  /** A late output bind re-sends enters only to the binding client: the
      log of every proxy of any other client is left as it was. */
  lemma BoundOnlyToClient(ts: seq<HandleId>, hs: map<HandleId, Handle>, proxies: map<ProxyId, Proxy>,
                          binds: seq<OutputResource>, c: ClientId, p: ProxyId)
    requires forall t :: t in ts ==> t in hs && Live(hs[t].resources, proxies)
    requires p in proxies ==> proxies[p].client != c
    ensures EventsTo(BoundMsgs(ts, hs, proxies, binds, c), p) == []
  {
    SilentFor(BoundMsgs(ts, hs, proxies, binds, c), p);
  }

  /** The output's destruction: each listening handle of `ts`, in listener
      order, leaves the output (toplevel_handle_output_destroy). */
  function LeaveMsgs(ts: seq<HandleId>, hs: map<HandleId, Handle>, proxies: map<ProxyId, Proxy>,
                     binds: seq<OutputResource>): (r: seq<Msg>)
    requires forall t :: t in ts ==> t in hs && Live(hs[t].resources, proxies)
    ensures forall m :: m in r ==> m.ToHandle? && m.event.OutputLeave?
    ensures forall t, q, b :: t in ts && q in hs[t].resources && q in proxies && b in binds && b.client == proxies[q].client ==>
      ToHandle(q, OutputLeave(b.id)) in r
  {
    if ts == [] then []
    else
      var t := ts[|ts| - 1];
      assert forall x :: x in ts[..|ts| - 1] ==> x in ts;
      OutputFanoutCovers(hs[t].resources, proxies, binds, false);
      LeaveMsgs(ts[..|ts| - 1], hs, proxies, binds) + OutputFanout(hs[t].resources, proxies, binds, false)
  }

  /** Per proxy, the output's destruction: a proxy of a listening handle logs
      one leave per binding its own client has, in binding order, and nothing
      more; every other proxy logs nothing. */
  lemma {:induction false} LeaveMsgsDelivers(ts: seq<HandleId>, hs: map<HandleId, Handle>, proxies: map<ProxyId, Proxy>,
                                             binds: seq<OutputResource>, p: ProxyId)
    requires forall t :: t in ts ==> t in hs && Live(hs[t].resources, proxies)
    requires Distinct(ts) && OwnedOnce(hs)
    requires forall t :: t in hs ==> Distinct(hs[t].resources)
    ensures EventsTo(LeaveMsgs(ts, hs, proxies, binds), p)
            == if (exists t :: t in ts && p in hs[t].resources) && p in proxies
               then OutputEvents(binds, proxies[p].client, false) else []
    decreases |ts|
  {
    if ts != [] {
      var ts' := ts[..|ts| - 1];
      var t := ts[|ts| - 1];
      assert ts == ts' + [t];
      DistinctInit(ts);
      LeaveMsgsDelivers(ts', hs, proxies, binds, p);
      EventsToAppend(LeaveMsgs(ts', hs, proxies, binds), OutputFanout(hs[t].resources, proxies, binds, false), p);
      OutputFanoutDelivers(hs[t].resources, proxies, binds, false, p);
      if p in hs[t].resources {
        forall t' | t' in ts' ensures p !in hs[t'].resources {
          assert t' != t;
        }
      }
    }
  }

  /** Each leave of the output's destruction goes to a proxy of a listening
      handle and names a binding of that proxy's own client. */
  lemma {:induction false} LeaveMsgsSound(ts: seq<HandleId>, hs: map<HandleId, Handle>, proxies: map<ProxyId, Proxy>,
                                          binds: seq<OutputResource>)
    requires forall t :: t in ts ==> t in hs && Live(hs[t].resources, proxies)
    ensures forall m :: m in LeaveMsgs(ts, hs, proxies, binds) ==>
      && m.ToHandle? && m.proxy in proxies
      && (exists t :: t in ts && m.proxy in hs[t].resources)
      && (exists b :: b in binds && b.client == proxies[m.proxy].client && m.event == OutputLeave(b.id))
    decreases |ts|
  {
    if ts != [] {
      var ts' := ts[..|ts| - 1];
      var t := ts[|ts| - 1];
      assert forall x :: x in ts' ==> x in ts;
      LeaveMsgsSound(ts', hs, proxies, binds);
      OutputFanoutCovers(hs[t].resources, proxies, binds, false);
      forall m | m in LeaveMsgs(ts, hs, proxies, binds)
        ensures m.ToHandle? && m.proxy in proxies
        ensures exists u :: u in ts && m.proxy in hs[u].resources
        ensures exists b :: b in binds && b.client == proxies[m.proxy].client && m.event == OutputLeave(b.id)
      {
        if m in LeaveMsgs(ts', hs, proxies, binds) {
          var u :| u in ts' && m.proxy in hs[u].resources;
          assert u in ts;
        } else {
          assert m in OutputFanout(hs[t].resources, proxies, binds, false);
          assert t in ts;
        }
      }
    }
  }

  /** The listeners left once the memberships in `gone` have unregistered,
      the others kept in registration order. */
  function Unregister(ls: seq<Membership>, gone: set<Membership>): (r: seq<Membership>)
    ensures forall m :: m in r <==> m in ls && m !in gone
    ensures Distinct(ls) ==> Distinct(r)
  {
    if ls == [] then []
    else
      var rest := Unregister(ls[1..], gone);
      assert Distinct(ls) ==> Distinct(ls[1..]) && ls[0] !in ls[1..] by {
        if Distinct(ls) { DistinctTail(ls); }
      }
      if ls[0] in gone then rest
      else
        assert Distinct(ls) ==> ls[0] !in rest;
        assert Distinct(ls) && Distinct(rest) ==> Distinct([ls[0]] + rest) by {
          if Distinct(ls) && Distinct(rest) { DistinctAdd(ls[0], rest); }
        }
        [ls[0]] + rest
  }

  /** Unregistering keeps the survivors in registration order: unregistering
      from a list registered in two runs is unregistering from each run, the
      first run's survivors first. */
  lemma {:induction false} UnregisterAppend(a: seq<Membership>, b: seq<Membership>, gone: set<Membership>)
    ensures Unregister(a + b, gone) == Unregister(a, gone) + Unregister(b, gone)
    decreases |a|
  {
    if a == [] {
      assert a + b == b;
    } else {
      assert (a + b)[1..] == a[1..] + b;
      assert (a + b)[0] == a[0];
      UnregisterAppend(a[1..], b, gone);
    }
  }

  /** A single listener survives exactly when its membership is not gone. */
  lemma UnregisterSingle(m: Membership, gone: set<Membership>)
    ensures Unregister([m], gone) == if m in gone then [] else [m]
  {
    assert [m][1..] == [];
  }

  /** Unregistering nothing keeps every listener. */
  lemma {:induction false} UnregisterNone(ls: seq<Membership>)
    ensures Unregister(ls, {}) == ls
  {
    if ls != [] {
      UnregisterNone(ls[1..]);
    }
  }

  /** Unlinking one more membership's listener is unregistering it too. */
  lemma {:induction false} UnregisterOne(ls: seq<Membership>, gone: set<Membership>, m: Membership)
    ensures Remove(Unregister(ls, gone), m) == Unregister(ls, gone + {m})
  {
    if ls != [] {
      UnregisterOne(ls[1..], gone, m);
    }
  }

  /** The memberships of the handles `ts` on output `o`. */
  function Memberships(ts: seq<HandleId>, o: OutputId): (r: set<Membership>)
    ensures forall m :: m in r <==> m.output == o && m.handle in ts
  {
    set t | t in ts :: Membership(t, o)
  }

  /** Listener `i` unregistering adds its membership to those gone. */
  lemma MembershipsStep(ts: seq<HandleId>, o: OutputId, i: nat)
    requires i < |ts|
    ensures Memberships(ts[..i + 1], o) == Memberships(ts[..i], o) + {Membership(ts[i], o)}
  {
    assert ts[..i + 1] == ts[..i] + [ts[i]];
  }

  /** The memberships of handle `h` on the outputs `os`. */
  function OwnMemberships(h: HandleId, os: seq<OutputId>): (r: set<Membership>)
    ensures forall m :: m in r <==> m.handle == h && m.output in os
  {
    set o | o in os :: Membership(h, o)
  }

  /** Dropping membership `i` adds it to those gone. */
  lemma OwnMembershipsStep(h: HandleId, os: seq<OutputId>, i: nat)
    requires i < |os|
    ensures OwnMemberships(h, os[..i + 1]) == OwnMemberships(h, os[..i]) + {Membership(h, os[i])}
  {
    assert os[..i + 1] == os[..i] + [os[i]];
  }

  /** The handles once those of `ts`, in turn, have left output `o`. */
  function LeftOutput(hs: map<HandleId, Handle>, ts: seq<HandleId>, o: OutputId): map<HandleId, Handle>
  {
    if ts == [] then hs
    else
      var m := LeftOutput(hs, ts[..|ts| - 1], o);
      var t := ts[|ts| - 1];
      if t in m then m[t := m[t].(outputs := Remove(m[t].outputs, o))] else m
  }

  /** Leaving keeps every handle and only takes `o` from the outputs of
      the handles of `ts`. */
  lemma {:induction false} LeftShape(hs: map<HandleId, Handle>, ts: seq<HandleId>, o: OutputId)
    ensures LeftOutput(hs, ts, o).Keys == hs.Keys
    ensures forall t :: t in hs ==>
      LeftOutput(hs, ts, o)[t] == if t in ts then hs[t].(outputs := Remove(hs[t].outputs, o)) else hs[t]
    decreases |ts|
  {
    if ts != [] {
      var ts' := ts[..|ts| - 1];
      assert ts == ts' + [ts[|ts| - 1]];
      LeftShape(hs, ts', o);
      forall t | t in hs ensures t in ts <==> t in ts' || t == ts[|ts| - 1] { }
      forall t | t in hs && t in ts'
        ensures Remove(Remove(hs[t].outputs, o), o) == Remove(hs[t].outputs, o)
      {
      }
    }
  }

  /** Listener `i`, not run before, finds its handle as it was and leaves
      the output; nothing else changes. */
  lemma LeftStep(hs: map<HandleId, Handle>, ts: seq<HandleId>, o: OutputId, i: nat)
    requires Distinct(ts) && i < |ts| && ts[i] in hs
    ensures ts[i] in LeftOutput(hs, ts[..i], o) && LeftOutput(hs, ts[..i], o)[ts[i]] == hs[ts[i]]
    ensures LeftOutput(hs, ts[..i + 1], o)
            == LeftOutput(hs, ts[..i], o)[ts[i] := hs[ts[i]].(outputs := Remove(hs[ts[i]].outputs, o))]
  {
    assert ts[..i + 1][..i] == ts[..i];
    assert ts[i] !in ts[..i];
    LeftShape(hs, ts[..i], o);
  }

  /** When `ts` holds every handle on `o`, the handles once all of them have
      left are the handles with no membership on `o`. */
  lemma LeftAll(hs: map<HandleId, Handle>, ts: seq<HandleId>, o: OutputId)
    requires forall t :: t in hs && o in hs[t].outputs ==> t in ts
    ensures LeftOutput(hs, ts, o) == OffOutput(hs, o)
  {
    LeftShape(hs, ts, o);
  }

  /** One more listener leaving. */
  lemma LeaveStep(ts: seq<HandleId>, hs: map<HandleId, Handle>, proxies: map<ProxyId, Proxy>,
                  binds: seq<OutputResource>, i: nat, s: seq<Msg>)
    requires i < |ts| && forall t :: t in ts ==> t in hs && Live(hs[t].resources, proxies)
    ensures forall t :: t in ts[..i] ==> t in hs && Live(hs[t].resources, proxies)
    ensures forall t :: t in ts[..i + 1] ==> t in hs && Live(hs[t].resources, proxies)
    ensures s + LeaveMsgs(ts[..i + 1], hs, proxies, binds)
            == s + LeaveMsgs(ts[..i], hs, proxies, binds) + OutputFanout(hs[ts[i]].resources, proxies, binds, false)
  {
    assert ts[..i + 1][..i] == ts[..i];
    AppendAssoc(s, LeaveMsgs(ts[..i], hs, proxies, binds), OutputFanout(hs[ts[i]].resources, proxies, binds, false));
  }

  /** Every handle once output `o` is gone: no membership on it is left. */
  function OffOutput(hs: map<HandleId, Handle>, o: OutputId): (r: map<HandleId, Handle>)
    ensures r.Keys == hs.Keys
    ensures forall t :: t in r ==> o !in r[t].outputs
    ensures forall t :: t in r && o !in hs[t].outputs ==> r[t] == hs[t]
  {
    map t | t in hs :: hs[t].(outputs := Remove(hs[t].outputs, o))
  }
}
