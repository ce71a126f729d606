/** The foreign-toplevel manager (`struct wlr_foreign_toplevel_manager_v1`):
    the registry of toplevel handles, the per-client proxies of each handle,
    the manager bindings, and every operation that changes them and fans
    events out to the clients. */
module ForeignToplevel {
  import opened States
  import opened Types
  import opened Fanout
  import opened Idle
  import opened Replay
  import opened Outputs
  import opened Lifecycle
  import opened Registry
  import Requests

  class Manager {
    /** `manager->toplevels`: the registry, newest handle first. */
    var toplevels: seq<HandleId>
    var handles: map<HandleId, Handle>
    /** Every handle resource still alive, attached or detached. */
    var proxies: map<ProxyId, Proxy>
    /** `manager->resources`: the manager bindings, newest first. */
    var bindings: seq<ManagerResource>
    /** Each output's `wl_output` resources, newest first (owned by the output). */
    var outputResources: map<OutputId, seq<OutputResource>>
    /** The bind and destroy listeners the memberships registered on their
        outputs, in registration order. */
    var listeners: seq<Membership>
    /** The event loop's idle queue: the handles whose done flush is pending
        (`idle_source != NULL`), in the order the flushes will run. */
    var idle: seq<HandleId>
    /** Every message the server has sent, in order. */
    var sent: seq<Msg>
    /** Every signal raised to the compositor, in order. */
    var signals: seq<Signal>
    var nextHandle: HandleId
    var nextProxy: ProxyId
    var nextBinding: ManagerResourceId

    /** The manager's lists as one value. */
    ghost function Tabled(): Tables
      reads this`toplevels, this`handles, this`proxies, this`bindings, this`listeners
      reads this`nextHandle, this`nextProxy, this`nextBinding
    {
      Tables(toplevels, handles, proxies, bindings, listeners, nextHandle, nextProxy, nextBinding)
    }

    /** The structural invariant of the registry and its lists. */
    ghost predicate Wf()
      reads this`toplevels, this`handles, this`proxies, this`bindings, this`listeners
      reads this`nextHandle, this`nextProxy, this`nextBinding
    {
      Consistent(Tabled())
    }

    /** At most one pending flush per handle, and only for live handles. */
    ghost predicate IdleOk()
      reads this`idle, this`handles
    {
      PendingOk(idle, handles)
    }

    ghost predicate Valid()
      reads this`toplevels, this`handles, this`proxies, this`bindings, this`listeners, this`idle
      reads this`nextHandle, this`nextProxy, this`nextBinding
    {
      Wf() && IdleOk() && ParentsIn(handles)
    }

    /** wlr_foreign_toplevel_manager_v1_create: an empty registry with no
        bindings; the outputs' own bindings are given. */
    constructor (outputs: map<OutputId, seq<OutputResource>>)
      ensures Valid()
      ensures toplevels == [] && handles == map[] && proxies == map[] && bindings == []
      ensures outputResources == outputs && listeners == [] && idle == []
      ensures sent == [] && signals == []
    {
      toplevels, handles, proxies, bindings := [], map[], map[], [];
      outputResources, listeners, idle := outputs, [], [];
      sent, signals := [], [];
      nextHandle, nextProxy, nextBinding := 0, 0, 0;
    }

    /** A `wl_resource_for_each` loop sending one event to every proxy of the list. */
    method SendToAll(rs: seq<ProxyId>, ev: HandleEvent)
      modifies this`sent
      ensures sent == old(sent) + BroadcastMsgs(rs, ev)
    {
      var i := 0;
      while i < |rs|
        invariant 0 <= i <= |rs|
        invariant sent == old(sent) + BroadcastMsgs(rs[..i], ev)
      {
        assert rs[..i + 1][..i] == rs[..i];
        sent := sent + [ToHandle(rs[i], ev)];
        i := i + 1;
      }
      assert rs[..|rs|] == rs;
    }

    /** The same loop, skipping proxies created below version `since`. */
    method SendToAllSince(rs: seq<ProxyId>, since: nat, ev: HandleEvent)
      requires Live(rs, proxies)
      modifies this`sent
      ensures sent == old(sent) + GatedMsgs(rs, proxies, since, ev)
    {
      var i := 0;
      while i < |rs|
        invariant 0 <= i <= |rs|
        invariant sent == old(sent) + GatedMsgs(rs[..i], proxies, since, ev)
      {
        assert rs[..i + 1][..i] == rs[..i];
        if proxies[rs[i]].version >= since {
          sent := sent + [ToHandle(rs[i], ev)];
        }
        i := i + 1;
      }
      assert rs[..|rs|] == rs;
    }

    /** toplevel_update_idle_source: arm the done flush unless one is pending. */
    method ScheduleDone(h: HandleId)
      requires IdleOk() && h in handles
      modifies this`idle
      ensures idle == Schedule(old(idle), h)
      ensures IdleOk()
    {
      if h !in idle {
        idle := idle + [h];
      }
    }

    /** toplevel_idle_send_done, run by the event loop for `h`: a done to
        every proxy of the handle, and its flush is no longer pending. */
    method IdleSendDone(h: HandleId)
      requires IdleOk() && h in handles
      modifies this`sent, this`idle
      ensures sent == old(sent) + BroadcastMsgs(handles[h].resources, Done)
      ensures idle == Remove(old(idle), h) && IdleOk()
    {
      SendToAll(handles[h].resources, Done);
      idle := Remove(idle, h);
    }

    /** The event loop dispatching its idle sources: every pending flush
        runs once, in queue order, and none is left pending. */
    method DispatchIdle()
      requires IdleOk()
      modifies this`sent, this`idle
      ensures sent == old(sent) + DoneMsgs(old(idle), handles)
      ensures idle == [] && IdleOk()
    {
      ghost var q := idle;
      ghost var i := 0;
      while idle != []
        invariant 0 <= i <= |q| && idle == q[i..]
        invariant IdleOk()
        invariant sent == old(sent) + DoneMsgs(q[..i], handles)
        decreases |idle|
      {
        var h := idle[0];
        RemoveHead(idle);
        DoneStep(q, handles, i, old(sent));
        IdleSendDone(h);
        i := i + 1;
      }
      assert q[..i] == q;
    }

    /** Replace a handle's record by one with the same proxies, outputs and
        parent: the registry's structure is untouched. */
    method Put(h: HandleId, t: Handle)
      requires Valid() && h in handles
      requires t.resources == handles[h].resources && t.outputs == handles[h].outputs
      requires t.parent == handles[h].parent
      modifies this`handles
      ensures handles == old(handles)[h := t]
      ensures Valid()
    {
      ghost var r := Tabled();
      ReplaceOk(r, h, t);
      ReplaceParentsOk(handles, h, t);
      handles := handles[h := t];
      assert Tabled() == r.(handles := handles);
    }

    /** wlr_foreign_toplevel_handle_v1_set_title: the title is always
        replaced and always broadcast, even when it did not change. */
    method SetTitle(h: HandleId, title: string)
      requires Valid() && h in handles
      modifies this`handles, this`sent, this`idle
      ensures Valid()
      ensures handles == old(handles)[h := old(handles)[h].(title := Some(title))]
      ensures sent == old(sent) + BroadcastMsgs(old(handles)[h].resources, Title(title))
      ensures idle == Schedule(old(idle), h)
    {
      Put(h, handles[h].(title := Some(title)));
      ghost var snap := Tabled();
      SendToAll(handles[h].resources, Title(title));
      ScheduleDone(h);
      assert Tabled() == snap;
    }

    /** wlr_foreign_toplevel_handle_v1_set_app_id: like the title, replaced
        and broadcast unconditionally. */
    method SetAppId(h: HandleId, appId: string)
      requires Valid() && h in handles
      modifies this`handles, this`sent, this`idle
      ensures Valid()
      ensures handles == old(handles)[h := old(handles)[h].(appId := Some(appId))]
      ensures sent == old(sent) + BroadcastMsgs(old(handles)[h].resources, AppId(appId))
      ensures idle == Schedule(old(idle), h)
    {
      Put(h, handles[h].(appId := Some(appId)));
      ghost var snap := Tabled();
      SendToAll(handles[h].resources, AppId(appId));
      ScheduleDone(h);
      assert Tabled() == snap;
    }

    /** wlr_foreign_toplevel_handle_v1_set_gtk_shell1_dbus_properties: nothing
        happens when neither the old nor the new group has a field; otherwise
        the whole group is replaced (absent fields become null) and sent to
        the proxies that know the event. */
    method SetGtkShell1Props(h: HandleId, g: GtkShell1Props)
      requires Valid() && h in handles
      modifies this`handles, this`sent, this`idle
      ensures Valid()
      ensures !HasGtkShell1Props(old(handles)[h].gtk) && !HasGtkShell1Props(g) ==>
        handles == old(handles) && sent == old(sent) && idle == old(idle)
      ensures HasGtkShell1Props(old(handles)[h].gtk) || HasGtkShell1Props(g) ==>
        && handles == old(handles)[h := old(handles)[h].(gtk := g)]
        && sent == old(sent) + GatedMsgs(old(handles)[h].resources, proxies, GtkShell1SinceVersion, GtkShell1Dbus(g))
        && idle == Schedule(old(idle), h)
    {
      if HasGtkShell1Props(handles[h].gtk) || HasGtkShell1Props(g) {
        Put(h, handles[h].(gtk := g));
        ghost var snap := Tabled();
        SendToAllSince(handles[h].resources, GtkShell1SinceVersion, GtkShell1Dbus(g));
        ScheduleDone(h);
        assert Tabled() == snap;
      }
    }

    /** wlr_foreign_toplevel_handle_v1_set_kde_appmenu_path: the same rule
        for the KDE application-menu group. */
    method SetKdeAppMenu(h: HandleId, k: KdeAppMenu)
      requires Valid() && h in handles
      modifies this`handles, this`sent, this`idle
      ensures Valid()
      ensures !HasKdeAppMenu(old(handles)[h].kde) && !HasKdeAppMenu(k) ==>
        handles == old(handles) && sent == old(sent) && idle == old(idle)
      ensures HasKdeAppMenu(old(handles)[h].kde) || HasKdeAppMenu(k) ==>
        && handles == old(handles)[h := old(handles)[h].(kde := k)]
        && sent == old(sent) + GatedMsgs(old(handles)[h].resources, proxies, KdeAppMenuSinceVersion, KdeApplicationMenu(k))
        && idle == Schedule(old(idle), h)
    {
      if HasKdeAppMenu(handles[h].kde) || HasKdeAppMenu(k) {
        Put(h, handles[h].(kde := k));
        ghost var snap := Tabled();
        SendToAllSince(handles[h].resources, KdeAppMenuSinceVersion, KdeApplicationMenu(k));
        ScheduleDone(h);
        assert Tabled() == snap;
      }
    }

    /** toplevel_send_state: the full state array to every proxy, then a flush. */
    method SendState(h: HandleId)
      requires Wf() && IdleOk() && h in handles
      modifies this`sent, this`idle
      ensures sent == old(sent) + BroadcastMsgs(handles[h].resources, State(StateArray(handles[h].state)))
      ensures idle == Schedule(old(idle), h) && IdleOk()
    {
      SendToAll(handles[h].resources, State(StateArray(handles[h].state)));
      ScheduleDone(h);
    }

    /** wlr_foreign_toplevel_handle_v1_set_maximized, _set_minimized,
        _set_activated and _set_fullscreen: a no-op when the flag already has
        the requested value; otherwise that one bit flips and the state is sent. */
    method SetStateFlag(h: HandleId, f: StateFlag, on: bool)
      requires Valid() && h in handles
      modifies this`handles, this`sent, this`idle
      ensures Valid()
      ensures Has(old(handles)[h].state, f) == on ==>
        handles == old(handles) && sent == old(sent) && idle == old(idle)
      ensures Has(old(handles)[h].state, f) != on ==>
        && handles == old(handles)[h := old(handles)[h].(state := WithFlag(old(handles)[h].state, f, on))]
        && sent == old(sent) + BroadcastMsgs(old(handles)[h].resources, State(StateArray(handles[h].state)))
        && idle == Schedule(old(idle), h)
    {
      if on != Has(handles[h].state, f) {
        Put(h, handles[h].(state := WithFlag(handles[h].state, f, on)));
        ghost var snap := Tabled();
        SendState(h);
        assert Tabled() == snap;
      }
    }
 
    /** toplevel_resource_send_parent: the parent event for proxy `p`,
        resolved to the proxy its client holds of the new parent, whose
        resource list is `pr` (None: a null parent). */
    method SendParent(p: ProxyId, pr: Option<seq<ProxyId>>)
      requires p in proxies && (pr.Some? ==> Live(pr.value, proxies))
      modifies this`sent
      ensures sent == old(sent) + ParentMsg(p, proxies, pr)
    {
      if proxies[p].version < ParentSinceVersion {
        return;
      }
      var target: Option<ProxyId> := None;
      if pr.Some? {
        target := FindForClient(pr.value, proxies, proxies[p].client);
        if target.None? {
          return;
        }
      }
      sent := sent + [ToHandle(p, Parent(target))];
    }

    /** The `wl_resource_for_each_safe` loop of set_parent over the proxies of `h`. */
    method SendParentToAll(h: HandleId, parent: Option<HandleId>)
      requires h in handles && Live(handles[h].resources, proxies)
      requires parent.Some? ==> parent.value in handles && Live(handles[parent.value].resources, proxies)
      modifies this`sent
      ensures sent == old(sent) + ParentFanout(handles[h].resources, proxies, ParentResources(handles, parent))
    {
      var rs, pr := handles[h].resources, ParentResources(handles, parent);
      var i := 0;
      while i < |rs|
        invariant 0 <= i <= |rs| && Live(rs[..i], proxies)
        invariant sent == old(sent) + ParentFanout(rs[..i], proxies, pr)
        invariant proxies == old(proxies)
      {
        SendParentNext(rs, pr, i, old(sent));
        i := i + 1;
      }
      assert rs[..|rs|] == rs;
    }

    /** One turn of the loop of SendParentToAll: the parent event for the
        i-th proxy of `rs`. */
    method SendParentNext(rs: seq<ProxyId>, pr: Option<seq<ProxyId>>, i: nat, ghost s: seq<Msg>)
      requires i < |rs| && Live(rs, proxies) && (pr.Some? ==> Live(pr.value, proxies))
      requires Live(rs[..i], proxies) && sent == s + ParentFanout(rs[..i], proxies, pr)
      modifies this`sent
      ensures Live(rs[..i + 1], proxies) && sent == s + ParentFanout(rs[..i + 1], proxies, pr)
    {
      assert rs[..i + 1][..i] == rs[..i] && rs[..i + 1][i] == rs[i];
      SendParent(rs[i], pr);
    }

    /** wlr_foreign_toplevel_handle_v1_set_parent: nothing happens when the
        parent is the current one; otherwise every proxy is told, the
        pointer is stored and a flush is armed. */
    method SetParent(h: HandleId, parent: Option<HandleId>)
      requires Wf() && IdleOk() && h in handles
      requires parent.Some? ==> parent.value in handles
      modifies this`handles, this`sent, this`idle
      ensures Wf() && IdleOk()
      ensures ParentOf(old(handles), h) == parent ==>
        handles == old(handles) && sent == old(sent) && idle == old(idle)
      ensures ParentOf(old(handles), h) != parent ==>
        && handles == old(handles)[h := old(handles)[h].(parent := parent)]
        && sent == old(sent) + ParentFanout(old(handles)[h].resources, proxies, ParentResources(old(handles), parent))
        && idle == Schedule(old(idle), h)
      ensures ParentsIn(old(handles)) ==> ParentsIn(handles)
    {
      if parent != handles[h].parent {
        assert HandleOk(handles, proxies, listeners, h);
        SendParentToAll(h, parent);
        var t := handles[h].(parent := parent);
        ghost var r := Tabled();
        ReplaceOk(r, h, t);
        if ParentsIn(handles) {
          ReplaceParentsOk(handles, h, t);
        }
        handles := handles[h := t];
        assert Tabled() == r.(handles := handles);
        ScheduleDone(h);
      }
    }
 
    /** send_output_to_resource: proxy `p`, owned by client `c`, is sent an
        enter (or leave) for each binding `c` has among the output's
        bindings `binds`, in binding order. */
    method SendOutputToResource(p: ProxyId, c: ClientId, binds: seq<OutputResource>, enter: bool)
      modifies this`sent
      ensures sent == old(sent) + OutputMsgs(p, binds, c, enter)
    {
      var i := 0;
      while i < |binds|
        invariant 0 <= i <= |binds|
        invariant sent == old(sent) + OutputMsgs(p, binds[..i], c, enter)
      {
        assert binds[..i + 1][..i] == binds[..i];
        if binds[i].client == c {
          sent := sent + [ToHandle(p, OutputEvent(binds[i].id, enter))];
        }
        i := i + 1;
      }
      assert binds[..|binds|] == binds;
    }

    /** The `wl_resource_for_each` loop of toplevel_send_output. */
    method SendOutputToAll(h: HandleId, o: OutputId, enter: bool)
      requires h in handles && Live(handles[h].resources, proxies)
      modifies this`sent
      ensures sent == old(sent) + OutputFanout(handles[h].resources, proxies, Bindings(outputResources, o), enter)
    {
      var rs, ps, binds := handles[h].resources, proxies, Bindings(outputResources, o);
      var i := 0;
      while i < |rs|
        invariant 0 <= i <= |rs|
        invariant sent == old(sent) + OutputFanout(rs[..i], ps, binds, enter)
      {
        assert rs[..i + 1][..i] == rs[..i];
        SendOutputToResource(rs[i], ps[rs[i]].client, binds, enter);
        i := i + 1;
      }
      assert rs[..|rs|] == rs;
    }

    /** toplevel_send_output: every proxy of `h` is told, then a flush is armed. */
    method ToplevelSendOutput(h: HandleId, o: OutputId, enter: bool)
      requires Wf() && IdleOk() && h in handles
      modifies this`sent, this`idle
      ensures sent == old(sent) + OutputFanout(handles[h].resources, proxies, Bindings(outputResources, o), enter)
      ensures idle == Schedule(old(idle), h) && IdleOk()
    {
      SendOutputToAll(h, o, enter);
      ScheduleDone(h);
    }

    /** Record a new membership at the head of the handle's list and
        register its listeners on the output. */
    method AddMembership(h: HandleId, o: OutputId)
      requires Valid() && h in handles && o !in handles[h].outputs
      modifies this`handles, this`listeners
      ensures handles == old(handles)[h := old(handles)[h].(outputs := [o] + old(handles)[h].outputs)]
      ensures listeners == old(listeners) + [Membership(h, o)]
      ensures Valid()
    {
      var t := handles[h].(outputs := [o] + handles[h].outputs);
      ghost var r := Tabled();
      JoinOk(r, h, o);
      ReplaceParentsOk(handles, h, t);
      handles := handles[h := t];
      listeners := listeners + [Membership(h, o)];
      assert Tabled() == r.(handles := handles, listeners := listeners);
    }

    /** The `wl_list_for_each` search of output_enter and output_leave for
        the membership of `h` on output `o`. */
    method FindMembership(h: HandleId, o: OutputId) returns (found: bool)
      requires h in handles
      ensures found <==> o in handles[h].outputs
    {
      var os := handles[h].outputs;
      var i := 0;
      while i < |os|
        invariant 0 <= i <= |os|
        invariant o !in os[..i]
      {
        if os[i] == o {
          return true;
        }
        assert os[..i + 1] == os[..i] + [os[i]];
        i := i + 1;
      }
      assert os[..|os|] == os;
      return false;
    }

    /** wlr_foreign_toplevel_handle_v1_output_enter: nothing happens when
        the handle is already on the output; otherwise the membership is
        recorded and every proxy is sent the enters of its client. */
    method OutputEnter(h: HandleId, o: OutputId)
      requires Valid() && h in handles
      modifies this`handles, this`listeners, this`sent, this`idle
      ensures Valid()
      ensures o in old(handles)[h].outputs ==>
        handles == old(handles) && listeners == old(listeners) && sent == old(sent) && idle == old(idle)
      ensures o !in old(handles)[h].outputs ==>
        && handles == old(handles)[h := old(handles)[h].(outputs := [o] + old(handles)[h].outputs)]
        && listeners == old(listeners) + [Membership(h, o)]
        && sent == old(sent) + OutputFanout(old(handles)[h].resources, proxies, Bindings(outputResources, o), true)
        && idle == Schedule(old(idle), h)
    {
      var member := FindMembership(h, o);
      if !member {
        AddMembership(h, o);
        ghost var snap := Tabled();
        ToplevelSendOutput(h, o, true);
        assert Tabled() == snap;
      }
    }

    /** toplevel_output_destroy: unlink the membership and its listeners. */
    method DropMembership(h: HandleId, o: OutputId)
      requires Valid() && h in handles
      modifies this`handles, this`listeners
      ensures handles == old(handles)[h := old(handles)[h].(outputs := Remove(old(handles)[h].outputs, o))]
      ensures listeners == Remove(old(listeners), Membership(h, o))
      ensures Valid()
    {
      var t := handles[h].(outputs := Remove(handles[h].outputs, o));
      ghost var r := Tabled();
      LeaveOk(r, h, o);
      ReplaceParentsOk(handles, h, t);
      handles := handles[h := t];
      listeners := Remove(listeners, Membership(h, o));
      assert Tabled() == r.(handles := handles, listeners := listeners);
    }

    /** wlr_foreign_toplevel_handle_v1_output_leave: nothing happens when
        the handle is not on the output; otherwise the leaves are sent
        first and the membership is removed after. */
    method OutputLeave(h: HandleId, o: OutputId)
      requires Valid() && h in handles
      modifies this`handles, this`listeners, this`sent, this`idle
      ensures Valid()
      ensures o !in old(handles)[h].outputs ==>
        handles == old(handles) && listeners == old(listeners) && sent == old(sent) && idle == old(idle)
      ensures o in old(handles)[h].outputs ==>
        && handles == old(handles)[h := old(handles)[h].(outputs := Remove(old(handles)[h].outputs, o))]
        && listeners == Remove(old(listeners), Membership(h, o))
        && sent == old(sent) + OutputFanout(old(handles)[h].resources, proxies, Bindings(outputResources, o), false)
        && idle == Schedule(old(idle), h)
    {
      var member := FindMembership(h, o);
      if member {
        ghost var snap := Tabled();
        ToplevelSendOutput(h, o, false);
        assert Tabled() == snap;
        DropMembership(h, o);
      }
    }
  
    /** toplevel_handle_output_bind for handle `h`, on a new binding of
        output `o` by client `c`: each proxy of `h` owned by `c` is sent an
        enter for every binding `c` has of `o`; then a flush is armed. */
    method HandleOutputBind(h: HandleId, o: OutputId, c: ClientId)
      requires IdleOk() && h in handles && Live(handles[h].resources, proxies)
      modifies this`sent, this`idle
      ensures sent == old(sent) + BoundFanout(handles[h].resources, proxies, Bindings(outputResources, o), c)
      ensures idle == Schedule(old(idle), h) && IdleOk()
    {
      var rs, ps, binds := handles[h].resources, proxies, Bindings(outputResources, o);
      var i := 0;
      while i < |rs|
        invariant 0 <= i <= |rs| && idle == old(idle)
        invariant sent == old(sent) + BoundFanout(rs[..i], ps, binds, c)
      {
        assert rs[..i + 1][..i] == rs[..i];
        if ps[rs[i]].client == c {
          SendOutputToResource(rs[i], c, binds, true);
        }
        i := i + 1;
      }
      assert rs[..|rs|] == rs;
      ScheduleDone(h);
    }

    /** One more listener of the bind signal. */
    method NotifyBoundNext(ts: seq<HandleId>, o: OutputId, c: ClientId, i: nat, ghost s: seq<Msg>,
                           ghost q: seq<HandleId>)
      requires IdleOk() && forall t :: t in ts ==> t in handles && Live(handles[t].resources, proxies)
      requires i < |ts|
      requires sent == s + BoundMsgs(ts[..i], handles, proxies, Bindings(outputResources, o), c)
      requires idle == ScheduleAll(q, ts[..i])
      modifies this`sent, this`idle
      ensures sent == s + BoundMsgs(ts[..i + 1], handles, proxies, Bindings(outputResources, o), c)
      ensures idle == ScheduleAll(q, ts[..i + 1]) && IdleOk()
    {
      BoundStep(ts, handles, proxies, Bindings(outputResources, o), c, i, s);
      ScheduleStep(q, ts, i);
      HandleOutputBind(ts[i], o, c);
    }

    /** The bind signal of output `o` reaching its listeners `ts` in turn. */
    method NotifyBound(ts: seq<HandleId>, o: OutputId, c: ClientId)
      requires IdleOk() && forall t :: t in ts ==> t in handles && Live(handles[t].resources, proxies)
      modifies this`sent, this`idle
      ensures sent == old(sent) + BoundMsgs(ts, handles, proxies, Bindings(outputResources, o), c)
      ensures idle == ScheduleAll(old(idle), ts) && IdleOk()
    {
      var i := 0;
      while i < |ts|
        invariant 0 <= i <= |ts| && IdleOk()
        invariant sent == old(sent) + BoundMsgs(ts[..i], handles, proxies, Bindings(outputResources, o), c)
        invariant idle == ScheduleAll(old(idle), ts[..i])
      {
        NotifyBoundNext(ts, o, c, i, old(sent), old(idle));
        i := i + 1;
      }
      assert ts[..|ts|] == ts;
    }

    /** A client binds output `o`: the output lists the new `wl_output`
        resource `res` first among its own and raises its bind signal, which
        every handle on `o` hears, in the order their listeners were added. */
    method OutputBound(o: OutputId, res: OutputResource)
      requires Valid()
      modifies this`outputResources, this`sent, this`idle
      ensures outputResources == old(outputResources)[o := [res] + Bindings(old(outputResources), o)]
      ensures forall t :: t in ListenersOn(listeners, o) ==>
        t in handles && o in handles[t].outputs && Live(handles[t].resources, proxies)
      ensures sent == old(sent) + BoundMsgs(ListenersOn(listeners, o), handles, proxies, [res] + Bindings(old(outputResources), o), res.client)
      ensures idle == ScheduleAll(old(idle), ListenersOn(listeners, o))
      ensures Valid()
    {
      ghost var r := Tabled();
      ListenersLive(r, o);
      outputResources := outputResources[o := [res] + Bindings(outputResources, o)];
      var ts := ListenersOn(listeners, o);
      NotifyBound(ts, o, res.client);
      assert Tabled() == r;
    }

    /** One more listener of the destroy signal of output `o`: the `i`-th
        handle of `ts` leaves the output. */
    method NotifyDestroyedNext(ts: seq<HandleId>, o: OutputId, i: nat, ghost s: seq<Msg>, ghost q: seq<HandleId>,
                               ghost hs: map<HandleId, Handle>, ghost ls: seq<Membership>)
      requires Valid() && Distinct(ts) && i < |ts|
      requires forall t :: t in ts ==> t in hs && o in hs[t].outputs && Live(hs[t].resources, proxies)
      requires handles == LeftOutput(hs, ts[..i], o)
      requires listeners == Unregister(ls, Memberships(ts[..i], o))
      requires sent == s + LeaveMsgs(ts[..i], hs, proxies, Bindings(outputResources, o))
      requires idle == ScheduleAll(q, ts[..i])
      modifies this`handles, this`listeners, this`sent, this`idle
      ensures handles == LeftOutput(hs, ts[..i + 1], o)
      ensures listeners == Unregister(ls, Memberships(ts[..i + 1], o))
      ensures sent == s + LeaveMsgs(ts[..i + 1], hs, proxies, Bindings(outputResources, o))
      ensures idle == ScheduleAll(q, ts[..i + 1])
      ensures Valid()
    {
      LeftStep(hs, ts, o, i);
      MembershipsStep(ts, o, i);
      UnregisterOne(ls, Memberships(ts[..i], o), Membership(ts[i], o));
      LeaveStep(ts, hs, proxies, Bindings(outputResources, o), i, s);
      ScheduleStep(q, ts, i);
      OutputLeave(ts[i], o);
    }

    /** The destroy signal of output `o` reaching its listeners `ts` in
        turn: toplevel_handle_output_destroy makes each handle leave `o`. */
    method NotifyDestroyed(ts: seq<HandleId>, o: OutputId)
      requires Valid() && Distinct(ts)
      requires forall t :: t in ts ==> t in handles && o in handles[t].outputs && Live(handles[t].resources, proxies)
      modifies this`handles, this`listeners, this`sent, this`idle
      ensures handles == LeftOutput(old(handles), ts, o)
      ensures listeners == Unregister(old(listeners), Memberships(ts, o))
      ensures sent == old(sent) + LeaveMsgs(ts, old(handles), proxies, Bindings(outputResources, o))
      ensures idle == ScheduleAll(old(idle), ts)
      ensures Valid()
    {
      assert ts[..0] == [];
      UnregisterNone(listeners);
      assert Memberships(ts[..0], o) == {};
      var i := 0;
      while i < |ts|
        invariant 0 <= i <= |ts| && Valid()
        invariant handles == LeftOutput(old(handles), ts[..i], o)
        invariant listeners == Unregister(old(listeners), Memberships(ts[..i], o))
        invariant sent == old(sent) + LeaveMsgs(ts[..i], old(handles), proxies, Bindings(outputResources, o))
        invariant idle == ScheduleAll(old(idle), ts[..i])
      {
        NotifyDestroyedNext(ts, o, i, old(sent), old(idle), old(handles), old(listeners));
        i := i + 1;
      }
      assert ts[..|ts|] == ts;
    }

    /** Output `o` is destroyed: every handle on it leaves it, in the order
        their listeners were added, and no membership on `o` is left. */
    method OutputDestroyed(o: OutputId)
      requires Valid()
      modifies this`handles, this`listeners, this`sent, this`idle
      ensures forall t :: t in ListenersOn(old(listeners), o) ==>
        t in old(handles) && o in old(handles)[t].outputs && Live(old(handles)[t].resources, proxies)
      ensures sent == old(sent) + LeaveMsgs(ListenersOn(old(listeners), o), old(handles), proxies, Bindings(outputResources, o))
      ensures handles == OffOutput(old(handles), o)
      ensures listeners == Unregister(old(listeners), Memberships(ListenersOn(old(listeners), o), o))
      ensures forall m :: m in listeners ==> m.output != o
      ensures idle == ScheduleAll(old(idle), ListenersOn(old(listeners), o))
      ensures Valid()
    {
      ghost var r := Tabled();
      ListenersLive(r, o);
      OnOutputListens(r, o);
      var ts := ListenersOn(listeners, o);
      NotifyDestroyed(ts, o);
      LeftAll(old(handles), ts, o);
    }

    /** One turn of destroy's first loop: proxy `rs[i]`, now the head of the
        handle's list, is sent closed, detached and unlinked. */
    method CloseNext(h: HandleId, rs: seq<ProxyId>, i: nat, ghost s: seq<Msg>,
                     ghost hs: map<HandleId, Handle>, ghost ps: map<ProxyId, Proxy>)
      requires Valid() && h in hs && i < |rs|
      requires handles == hs[h := hs[h].(resources := rs[i..])]
      requires proxies == Detached(ps, rs[..i])
      requires sent == s + BroadcastMsgs(rs[..i], Closed)
      modifies this`sent, this`handles, this`proxies
      ensures handles == hs[h := hs[h].(resources := rs[i + 1..])]
      ensures proxies == Detached(ps, rs[..i + 1])
      ensures sent == s + BroadcastMsgs(rs[..i + 1], Closed)
      ensures Valid()
    {
      var q := rs[i];
      ghost var r := Tabled();
      DetachHeadOk(r, h, q);
      CloseStep(ps, rs, i, s);
      sent := sent + [ToHandle(q, Closed)];
      var t := handles[h].(resources := handles[h].resources[1..]);
      ReplaceParentsOk(handles, h, t);
      assert rs[i..][1..] == rs[i + 1..];
      UpdateTwice(hs, h, hs[h].(resources := rs[i..]), hs[h].(resources := rs[i + 1..]));
      handles := handles[h := t];
      proxies := proxies[q := proxies[q].(handle := None)];
      assert Tabled() == r.(handles := handles, proxies := proxies);
      PendingSameKeys(idle, old(handles), handles);
    }

    /** Destroy's first loop: every proxy of `h`, in list order, is sent
        closed and detached from the handle, which is left with none. */
    method CloseAll(h: HandleId)
      requires Valid() && h in handles
      modifies this`sent, this`handles, this`proxies
      ensures handles == old(handles)[h := old(handles)[h].(resources := [])]
      ensures proxies == Detached(old(proxies), old(handles)[h].resources)
      ensures sent == old(sent) + BroadcastMsgs(old(handles)[h].resources, Closed)
      ensures Valid()
    {
      var rs := handles[h].resources;
      assert handles == old(handles)[h := old(handles)[h].(resources := rs[0..])];
      assert rs[..0] == [];
      var i := 0;
      while i < |rs|
        invariant 0 <= i <= |rs| && Valid()
        invariant handles == old(handles)[h := old(handles)[h].(resources := rs[i..])]
        invariant proxies == Detached(old(proxies), rs[..i])
        invariant sent == old(sent) + BroadcastMsgs(rs[..i], Closed)
      {
        CloseNext(h, rs, i, old(sent), old(handles), old(proxies));
        i := i + 1;
      }
      assert rs[..i] == rs && rs[i..] == [];
    }

    /** One turn of destroy's second loop: membership `os[i]`, now the head
        of the handle's list, is dropped with its listeners. */
    method DropOutputNext(h: HandleId, os: seq<OutputId>, i: nat,
                          ghost hs: map<HandleId, Handle>, ghost ls: seq<Membership>)
      requires Valid() && h in hs && i < |os|
      requires handles == hs[h := hs[h].(outputs := os[i..])]
      requires listeners == Unregister(ls, OwnMemberships(h, os[..i]))
      modifies this`handles, this`listeners
      ensures handles == hs[h := hs[h].(outputs := os[i + 1..])]
      ensures listeners == Unregister(ls, OwnMemberships(h, os[..i + 1]))
      ensures Valid()
    {
      assert HandleOk(handles, proxies, listeners, h);
      RemoveHead(os[i..]);
      assert os[i..][1..] == os[i + 1..];
      OwnMembershipsStep(h, os, i);
      UnregisterOne(ls, OwnMemberships(h, os[..i]), Membership(h, os[i]));
      DropMembership(h, os[i]);
      UpdateTwice(hs, h, hs[h].(outputs := os[i..]), hs[h].(outputs := os[i + 1..]));
    }

    /** Destroy's second loop: every membership of `h` is dropped, with the
        listeners it registered; no leave is sent. */
    method DropOutputs(h: HandleId)
      requires Valid() && h in handles
      modifies this`handles, this`listeners
      ensures handles == old(handles)[h := old(handles)[h].(outputs := [])]
      ensures listeners == Unregister(old(listeners), OwnMemberships(h, old(handles)[h].outputs))
      ensures Valid()
    {
      var os := handles[h].outputs;
      assert handles == old(handles)[h := old(handles)[h].(outputs := os[0..])];
      assert OwnMemberships(h, os[..0]) == {};
      UnregisterNone(listeners);
      var i := 0;
      while i < |os|
        invariant 0 <= i <= |os| && Valid()
        invariant handles == old(handles)[h := old(handles)[h].(outputs := os[i..])]
        invariant listeners == Unregister(old(listeners), OwnMemberships(h, os[..i]))
      {
        DropOutputNext(h, os, i, old(handles), old(listeners));
        i := i + 1;
      }
      assert os[..i] == os && os[i..] == [];
    }

    /** The bookkeeping of destroy between its loops: a pending flush is
        cancelled and the handle leaves the registry. Its children may
        still name it as their parent. */
    method Unlink(h: HandleId)
      requires Valid() && h in handles && handles[h].resources == [] && handles[h].outputs == []
      modifies this`idle, this`toplevels, this`handles
      ensures idle == Remove(old(idle), h)
      ensures toplevels == Remove(old(toplevels), h) && handles == old(handles) - {h}
      ensures Wf() && IdleOk()
      ensures forall t :: t in handles && ParentOf(handles, t).Some? ==>
        ParentOf(handles, t).value in handles || ParentOf(handles, t) == Some(h)
    {
      ghost var r := Tabled();
      UnlinkOk(r, h);
      idle := Remove(idle, h);
      toplevels, handles := Remove(toplevels, h), handles - {h};
      assert Tabled() == r.(toplevels := toplevels, handles := handles);
      forall t | t in handles && ParentOf(handles, t).Some?
        ensures ParentOf(handles, t).value in handles || ParentOf(handles, t) == Some(h)
      {
        assert ParentOf(old(handles), t) == ParentOf(handles, t);
      }
    }

    /** One turn of destroy's last loop, on the `i`-th handle of `ts`: a
        child of `h` has its parent set to null. */
    method OrphanNext(ts: seq<HandleId>, h: HandleId, i: nat, ghost s: seq<Msg>, ghost q: seq<HandleId>,
                      ghost hs: map<HandleId, Handle>)
      requires Wf() && IdleOk() && Distinct(ts) && i < |ts|
      requires forall t :: t in ts ==> t in hs && Live(hs[t].resources, proxies)
      requires handles == Reparented(hs, ts[..i], h)
      requires sent == s + ReparentMsgs(ts[..i], hs, proxies, h)
      requires idle == ScheduleAll(q, Children(ts[..i], hs, h))
      modifies this`handles, this`sent, this`idle
      ensures handles == Reparented(hs, ts[..i + 1], h)
      ensures sent == s + ReparentMsgs(ts[..i + 1], hs, proxies, h)
      ensures idle == ScheduleAll(q, Children(ts[..i + 1], hs, h))
      ensures Wf() && IdleOk()
    {
      var t := ts[i];
      ReparentedStep(hs, ts, h, i);
      ReparentMsgsStep(ts, hs, proxies, h, i, s, q);
      if handles[t].parent == Some(h) {
        SetParent(t, None);
      }
    }

    /** Destroy's last loop over the registry `ts`: each handle whose parent
        is `h`, in turn, gets a null parent. */
    method OrphanLoop(ts: seq<HandleId>, h: HandleId)
      requires Wf() && IdleOk() && Distinct(ts)
      requires forall t :: t in ts ==> t in handles && Live(handles[t].resources, proxies)
      modifies this`handles, this`sent, this`idle
      ensures handles == Reparented(old(handles), ts, h)
      ensures sent == old(sent) + ReparentMsgs(ts, old(handles), proxies, h)
      ensures idle == ScheduleAll(old(idle), Children(ts, old(handles), h))
      ensures Wf() && IdleOk()
    {
      assert ts[..0] == [];
      var i := 0;
      while i < |ts|
        invariant 0 <= i <= |ts| && Wf() && IdleOk()
        invariant handles == Reparented(old(handles), ts[..i], h)
        invariant sent == old(sent) + ReparentMsgs(ts[..i], old(handles), proxies, h)
        invariant idle == ScheduleAll(old(idle), Children(ts[..i], old(handles), h))
      {
        OrphanNext(ts, h, i, old(sent), old(idle), old(handles));
        i := i + 1;
      }
      assert ts[..i] == ts;
    }

    /** Destroy's last loop: every handle of the registry whose parent was
        `h` gets a null parent, in registry order, which leaves no parent
        pointer dangling. */
    method OrphanChildren(h: HandleId)
      requires Wf() && IdleOk() && h !in handles
      requires forall t :: t in handles && ParentOf(handles, t).Some? ==>
        ParentOf(handles, t).value in handles || ParentOf(handles, t) == Some(h)
      modifies this`handles, this`sent, this`idle
      ensures forall t :: t in toplevels ==> t in old(handles) && Live(old(handles)[t].resources, proxies)
      ensures handles == Orphaned(old(handles), h)
      ensures sent == old(sent) + ReparentMsgs(toplevels, old(handles), proxies, h)
      ensures idle == ScheduleAll(old(idle), Children(toplevels, old(handles), h))
      ensures Valid()
    {
      RegistryLive(Tabled());
      OrphanLoop(toplevels, h);
      ReparentedAll(old(handles), toplevels, h);
      OrphanedParentsIn(old(handles), h);
    }

    /** Destroy's first two loops together: every proxy of `h` is sent
        closed and detached, and every membership is dropped with its
        listeners; the handle is left with neither. */
    method Strip(h: HandleId)
      requires Valid() && h in handles
      modifies this`sent, this`handles, this`proxies, this`listeners
      ensures handles == old(handles)[h := old(handles)[h].(resources := [], outputs := [])]
      ensures proxies == Detached(old(proxies), old(handles)[h].resources)
      ensures listeners == Unregister(old(listeners), OwnMemberships(h, old(handles)[h].outputs))
      ensures sent == old(sent) + BroadcastMsgs(old(handles)[h].resources, Closed)
      ensures Valid()
    {
      CloseAll(h);
      DropOutputs(h);
      UpdateTwice(old(handles), h, old(handles)[h].(resources := []),
                  old(handles)[h].(resources := [], outputs := []));
    }

    /** The middle of wlr_foreign_toplevel_handle_v1_destroy: every proxy is
        sent closed and detached, the memberships are dropped without leave
        events, a pending flush is cancelled and the handle leaves the
        registry. Its children may still name it as their parent. */
    method Retire(h: HandleId)
      requires Valid() && h in handles
      modifies this`sent, this`handles, this`proxies, this`listeners, this`idle, this`toplevels
      ensures toplevels == Remove(old(toplevels), h) && handles == old(handles) - {h}
      ensures proxies == Detached(old(proxies), old(handles)[h].resources)
      ensures listeners == Unregister(old(listeners), OwnMemberships(h, old(handles)[h].outputs))
      ensures sent == old(sent) + BroadcastMsgs(old(handles)[h].resources, Closed)
      ensures idle == Remove(old(idle), h)
      ensures Wf() && IdleOk()
      ensures forall t :: t in handles && ParentOf(handles, t).Some? ==>
        ParentOf(handles, t).value in handles || ParentOf(handles, t) == Some(h)
    {
      Strip(h);
      Unlink(h);
      UpdateThenRemove(old(handles), h, old(handles)[h].(resources := [], outputs := []));
    }

    /** wlr_foreign_toplevel_handle_v1_destroy: the compositor is told
        first; the handle is retired, and its children lose their parent. */
    method Destroy(h: HandleId)
      requires Valid() && h in handles
      modifies this`signals, this`sent, this`handles, this`proxies, this`listeners, this`idle, this`toplevels
      ensures signals == old(signals) + [Destroyed(h)]
      ensures toplevels == Remove(old(toplevels), h)
      ensures proxies == Detached(old(proxies), old(handles)[h].resources)
      ensures listeners == Unregister(old(listeners), OwnMemberships(h, old(handles)[h].outputs))
      ensures handles == Orphaned(old(handles) - {h}, h)
      ensures forall t :: t in toplevels ==> t in old(handles) - {h} && Live((old(handles) - {h})[t].resources, proxies)
      ensures sent == old(sent) + BroadcastMsgs(old(handles)[h].resources, Closed)
                      + ReparentMsgs(toplevels, old(handles) - {h}, proxies, h)
      ensures idle == ScheduleAll(Remove(old(idle), h), Children(toplevels, old(handles) - {h}, h))
      ensures Valid()
    {
      signals := signals + [Destroyed(h)];
      Retire(h);
      OrphanChildren(h);
    }

    /** wlr_foreign_toplevel_handle_v1_create: a new, empty handle at the
        head of the registry, with a proxy for every manager binding, each
        announced on its binding (see `Spawned` and `NewestFirst` for the
        numbering); nothing is flushed. */
    method CreateHandle() returns (h: HandleId)
      requires Valid()
      modifies this`toplevels, this`handles, this`proxies, this`nextHandle, this`nextProxy, this`sent
      ensures h == old(nextHandle) && h !in old(handles)
      ensures toplevels == [h] + old(toplevels)
      ensures handles == old(handles)[h := NewHandle.(resources := NewestFirst(old(nextProxy), |bindings|))]
      ensures proxies == Spawned(old(proxies), bindings, old(nextProxy), h)
      ensures nextProxy == old(nextProxy) + |bindings|
      ensures sent == old(sent) + AnnounceMsgs(bindings, old(nextProxy))
      ensures Valid()
    {
      h := nextHandle;
      var hs, ps, s := AttachLoop(handles, NewHandle, proxies, sent, bindings, nextProxy, h);
      ghost var r := Tabled();
      CreateHandleOk(r);
      toplevels, handles, proxies, nextHandle, nextProxy, sent :=
        [h] + toplevels, hs, ps, h + 1, nextProxy + |bindings|, s;
      assert Tabled() == Created(r);
    }

    /** The property events of toplevel_send_details_to_toplevel_resource:
        each only when set, the two metadata groups only from the version
        that knows them. */
    method SendProperties(h: Handle, p: ProxyId, version: nat)
      modifies this`sent
      ensures sent == old(sent) + PropertyMsgs(h, p, version)
    {
      if h.title.Some? {
        sent := sent + [ToHandle(p, Title(h.title.value))];
      }
      if h.appId.Some? {
        sent := sent + [ToHandle(p, AppId(h.appId.value))];
      }
      if HasGtkShell1Props(h.gtk) && version >= GtkShell1SinceVersion {
        sent := sent + [ToHandle(p, GtkShell1Dbus(h.gtk))];
      }
      if HasKdeAppMenu(h.kde) && version >= KdeAppMenuSinceVersion {
        sent := sent + [ToHandle(p, KdeApplicationMenu(h.kde))];
      }
    }

    /** The `wl_list_for_each` loop of toplevel_send_details_to_toplevel_resource
        over the handle's memberships `os`: send_output_to_resource for each. */
    method SendEnters(os: seq<OutputId>, p: ProxyId, c: ClientId)
      modifies this`sent
      ensures sent == old(sent) + EnterAllMsgs(os, p, c, outputResources)
    {
      var outs := outputResources;
      var i := 0;
      while i < |os|
        invariant 0 <= i <= |os| && outputResources == outs
        invariant sent == old(sent) + EnterAllMsgs(os[..i], p, c, outs)
      {
        assert os[..i + 1][..i] == os[..i];
        SendOutputToResource(p, c, Bindings(outs, os[i]), true);
        i := i + 1;
      }
      assert os[..|os|] == os;
    }

    /** toplevel_send_details_to_toplevel_resource: the full state of
        handle `t` for proxy `p`, ending in done. */
    method SendDetails(t: HandleId, p: ProxyId)
      requires t in handles && p in proxies
      requires handles[t].parent.Some? ==>
        handles[t].parent.value in handles && Live(handles[handles[t].parent.value].resources, proxies)
      modifies this`sent
      ensures sent == old(sent) + DetailMsgs(handles[t], p, proxies, outputResources,
                                             ParentResources(handles, handles[t].parent))
    {
      var h, ps, outs := handles[t], proxies, outputResources;
      var pr := ParentResources(handles, h.parent);
      DetailsParts(h, p, ps, outs, pr, sent);
      SendProperties(h, p, ps[p].version);
      SendEnters(h.outputs, p, ps[p].client);
      sent := sent + [ToHandle(p, State(StateArray(h.state)))];
      SendParent(p, pr);
      sent := sent + [ToHandle(p, Done)];
    }

    /** One turn of pass two of foreign_toplevel_manager_bind: for the i-th
        handle of `ts`, wl_resource_find_for_client finds the proxy
        `start + i` that pass one put at the head of its list for client
        `c`, and the handle's details are sent to it. */
    method ReplayOne(ts: seq<HandleId>, start: ProxyId, c: ClientId, i: nat)
      requires ReplayReady(ts, start, handles, proxies) && HeadsFor(ts, start, handles, proxies, c)
      requires i < |ts|
      modifies this`sent
      ensures sent == old(sent) + ReplayBlock(ts, start, handles, proxies, outputResources, i)
    {
      ReplayAt(ts, start, handles, proxies, i);
      HeadFound(ts, start, handles, proxies, c, i);
      var found := FindForClient(handles[ts[i]].resources, proxies, c);
      SendDetails(ts[i], found.value);
      ReplayBlockDetails(ts, start, handles, proxies, outputResources, i);
    }

    /** One more handle of pass two: the replay so far grows by its block. */
    method ReplayNext(ts: seq<HandleId>, start: ProxyId, c: ClientId, i: nat, ghost s: seq<Msg>,
                      ghost blocks: seq<seq<Msg>>)
      requires ReplayReady(ts, start, handles, proxies) && HeadsFor(ts, start, handles, proxies, c)
      requires blocks == ReplayBlocks(ts, start, handles, proxies, outputResources)
      requires i < |ts| && sent == s + Flatten(blocks[..i])
      modifies this`sent
      ensures sent == s + Flatten(blocks[..i + 1])
    {
      ReplayOne(ts, start, c, i);
      FlattenSnoc(blocks, i);
      AppendAssoc(s, Flatten(blocks[..i]), blocks[i]);
    }

    /** Pass two of foreign_toplevel_manager_bind over the handles `ts`. */
    method ReplayAll(ts: seq<HandleId>, start: ProxyId, c: ClientId)
      requires ReplayReady(ts, start, handles, proxies) && HeadsFor(ts, start, handles, proxies, c)
      modifies this`sent
      ensures sent == old(sent) + ReplayMsgs(ts, start, handles, proxies, outputResources)
    {
      ghost var blocks := ReplayBlocks(ts, start, handles, proxies, outputResources);
      var i := 0;
      while i != |ts|
        invariant 0 <= i <= |ts|
        invariant sent == old(sent) + Flatten(blocks[..i])
      {
        ReplayNext(ts, start, c, i, old(sent), blocks);
        i := i + 1;
      }
      ReplayDone(ts, start, handles, proxies, outputResources, i, old(sent), sent, blocks);
    }

    /** foreign_toplevel_resource_destroy: the proxy is unlinked from its
        handle's list when it is still attached, and forgotten. */
    method DestroyProxy(p: ProxyId)
      requires Valid() && p in proxies
      modifies this`handles, this`proxies
      ensures proxies == old(proxies) - {p}
      ensures old(proxies)[p].handle.None? ==> handles == old(handles)
      ensures old(proxies)[p].handle.Some? ==>
        var h := old(proxies)[p].handle.value;
        h in old(handles) && handles == old(handles)[h := old(handles)[h].(resources := Remove(old(handles)[h].resources, p))]
      ensures Valid()
    {
      ghost var r := Tabled();
      if proxies[p].handle.Some? {
        var h := proxies[p].handle.value;
        DropAttachedOk(r, h, p);
        var t := handles[h].(resources := Remove(handles[h].resources, p));
        ReplaceParentsOk(handles, h, t);
        handles := handles[h := t];
        proxies := proxies - {p};
        assert Tabled() == r.(handles := handles, proxies := proxies);
        PendingSameKeys(idle, old(handles), handles);
      } else {
        DropDetachedOk(r, p);
        proxies := proxies - {p};
        assert Tabled() == r.(proxies := proxies);
      }
    }

    /** The handle interface's request handlers, for a request on proxy
        `p`: the decision `Requests.React` takes on the proxy's handle is
        carried out, and nothing else changes. */
    method HandleRequest(p: ProxyId, req: Requests.Request)
      requires Valid() && p in proxies
      modifies this`signals, this`sent, this`handles, this`proxies
      ensures var r := Requests.React(req, old(proxies)[p].handle);
        signals == (if r.Raise? then old(signals) + [r.sig] else old(signals)) &&
        sent == (if r.Reject? then old(sent) + [PostError(p, r.code)] else old(sent)) &&
        proxies == (if r.Drop? then old(proxies) - {p} else old(proxies))
      ensures !req.Destroy? || old(proxies)[p].handle.None? ==> handles == old(handles)
      ensures req.Destroy? && old(proxies)[p].handle.Some? ==>
        var h := old(proxies)[p].handle.value;
        h in old(handles) && handles == old(handles)[h := old(handles)[h].(resources := Remove(old(handles)[h].resources, p))]
      ensures Valid()
    {
      var r := Requests.React(req, proxies[p].handle);
      match r
      case Raise(s) => signals := signals + [s];
      case Reject(code) => sent := sent + [PostError(p, code)];
      case Ignore =>
      case Drop => DestroyProxy(p);
    }

    /** foreign_toplevel_manager_resource_destroy: the binding is unlinked
        from the manager's list. The proxies it brought stay alive. */
    method DropBinding(m: ManagerResource)
      requires Valid()
      modifies this`bindings
      ensures bindings == Remove(old(bindings), m)
      ensures Valid()
    {
      ghost var r := Tabled();
      RemoveBindingOk(r, m);
      bindings := Remove(bindings, m);
      assert Tabled() == r.(bindings := bindings);
    }

    /** foreign_toplevel_manager_handle_stop: finished is sent on the
        binding, which is then destroyed. */
    method Stop(m: ManagerResource)
      requires Valid()
      modifies this`sent, this`bindings
      ensures sent == old(sent) + [ToManager(m.id, Finished)]
      ensures bindings == Remove(old(bindings), m)
      ensures Valid()
    {
      sent := sent + [ToManager(m.id, Finished)];
      DropBinding(m);
    }

    /** Pass one of foreign_toplevel_manager_bind for client `c` at version
        `v`: the new binding goes to the head of the list, and the client
        gets a proxy of every handle, in registry order, each announced on
        the binding and put at the head of its handle's list. */
    method AddBinding(c: ClientId, v: nat) returns (b: ManagerResource)
      requires Valid()
      modifies this`bindings, this`nextBinding, this`handles, this`proxies, this`nextProxy, this`sent
      ensures b == ManagerResource(old(nextBinding), c, v) && bindings == [b] + old(bindings)
      ensures nextBinding == old(nextBinding) + 1
      ensures handles == Greeted(old(handles), toplevels, old(nextProxy))
      ensures proxies == Introduced(old(proxies), toplevels, old(nextProxy), c, v)
      ensures nextProxy == old(nextProxy) + |toplevels|
      ensures Valid()
      ensures ReplayReady(toplevels, old(nextProxy), handles, proxies)
      ensures HeadsFor(toplevels, old(nextProxy), handles, proxies, c)
      ensures sent == old(sent) + BindAnnouncements(b.id, old(nextProxy), |toplevels|)
    {
      b := ManagerResource(nextBinding, c, v);
      var start := nextProxy;
      ghost var r := Tabled();
      ToplevelsLive(r);
      var hs, ps, s := GreetLoop(handles, proxies, sent, toplevels, start, c, v, b.id);
      bindings, nextBinding, handles, proxies, nextProxy, sent :=
        [b] + bindings, nextBinding + 1, hs, ps, start + |toplevels|, s;
      assert Tabled() == Bound(r, c, v);
      BindAllOk(r, c, v, idle);
    }

    /** foreign_toplevel_manager_bind for client `c` at version `v`: pass
        one, then pass two sends each new proxy its handle's details. No
        flush is armed: every block of details ends in its own done. */
    method Bind(c: ClientId, v: nat) returns (b: ManagerResource)
      requires Valid()
      modifies this`bindings, this`nextBinding, this`handles, this`proxies, this`nextProxy, this`sent
      ensures b == ManagerResource(old(nextBinding), c, v) && bindings == [b] + old(bindings)
      ensures nextBinding == old(nextBinding) + 1
      ensures handles == Greeted(old(handles), toplevels, old(nextProxy))
      ensures proxies == Introduced(old(proxies), toplevels, old(nextProxy), c, v)
      ensures nextProxy == old(nextProxy) + |toplevels|
      ensures Valid()
      ensures ReplayReady(toplevels, old(nextProxy), handles, proxies)
      ensures sent == old(sent) + BindAnnouncements(b.id, old(nextProxy), |toplevels|)
                     + ReplayMsgs(toplevels, old(nextProxy), handles, proxies, outputResources)
    {
      var start := nextProxy;
      b := AddBinding(c, v);
      ReplayAll(toplevels, start, c);
    }
  }

  /** The loop of handle_create over the manager bindings `bs`, newest
      first, for the handle `t0` stored under `h`:
      create_toplevel_resource_for_resource for each binding, which numbers
      the new proxy, inserts it at the head of the handle's list and
      announces it on the binding. */
  method AttachLoop(hs0: map<HandleId, Handle>, t0: Handle, ps0: map<ProxyId, Proxy>, s0: seq<Msg>,
                    bs: seq<ManagerResource>, start: ProxyId, h: HandleId)
    returns (hs: map<HandleId, Handle>, ps: map<ProxyId, Proxy>, s: seq<Msg>)
    requires t0.resources == []
    ensures hs == hs0[h := t0.(resources := NewestFirst(start, |bs|))]
    ensures ps == Spawned(ps0, bs, start, h)
    ensures s == s0 + AnnounceMsgs(bs, start)
  {
    hs, ps, s := hs0[h := t0], ps0, s0;
    var i := 0;
    while i < |bs|
      invariant 0 <= i <= |bs|
      invariant hs == hs0[h := t0.(resources := NewestFirst(start, i))]
      invariant ps == Spawned(ps0, bs[..i], start, h)
      invariant s == s0 + AnnounceMsgs(bs[..i], start)
    {
      AttachStep(ps0, bs, start, h, i, s0);
      var p := start + i;
      hs := hs[h := hs[h].(resources := [p] + hs[h].resources)];
      ps := ps[p := Proxy(bs[i].client, bs[i].version, Some(h))];
      s := s + [ToManager(bs[i].id, NewToplevel(p))];
      i := i + 1;
    }
    assert bs[..|bs|] == bs;
  }

  /** Pass one of foreign_toplevel_manager_bind, over the handles `ts` in
      registry order: create_toplevel_resource_for_resource on binding `m`
      of client `c` at version `v`, which numbers the new proxy, inserts it
      at the head of the handle's list and announces it on the binding. */
  method GreetLoop(hs0: map<HandleId, Handle>, ps0: map<ProxyId, Proxy>, s0: seq<Msg>, ts: seq<HandleId>,
                   start: ProxyId, c: ClientId, v: nat, m: ManagerResourceId)
    returns (hs: map<HandleId, Handle>, ps: map<ProxyId, Proxy>, s: seq<Msg>)
    requires forall t :: t in ts ==> t in hs0
    ensures hs == Greeted(hs0, ts, start)
    ensures ps == Introduced(ps0, ts, start, c, v)
    ensures s == s0 + BindAnnouncements(m, start, |ts|)
  {
    hs, ps, s := hs0, ps0, s0;
    var i := 0;
    while i < |ts|
      invariant 0 <= i <= |ts|
      invariant forall t :: t in ts[..i] ==> t in hs0
      invariant hs == Greeted(hs0, ts[..i], start)
      invariant ps == Introduced(ps0, ts[..i], start, c, v)
      invariant s == s0 + BindAnnouncements(m, start, i)
    {
      GreetStep(hs0, ps0, ts, start, c, v, i, s0, m);
      var t, p := ts[i], start + i;
      hs := hs[t := hs[t].(resources := [p] + hs[t].resources)];
      ps := ps[p := Proxy(c, v, Some(t))];
      s := s + [ToManager(m, NewToplevel(p))];
      i := i + 1;
    }
    assert ts[..|ts|] == ts;
  }
}
