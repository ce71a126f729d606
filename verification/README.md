# wlroots foreign-toplevel management, modelled in Dafny

This project models the server side of the `wlr-foreign-toplevel-management-unstable-v1`
Wayland protocol as wlroots implements it in `types/wlr_foreign_toplevel_management_v1.c`
(manager global at version 4). The compositor owns a registry of toplevel handles (windows).
Every client that binds the manager gets one proxy (`zwlr_foreign_toplevel_handle_v1`
resource) per handle, and the server keeps each proxy up to date. It fans out title, app_id,
the two metadata groups (gtk_shell1 D-Bus properties, KDE application menu), the state
array, output enter/leave and the parent. A deferred `done` closes each batch.

Requests on a proxy travel back to the compositor as intent signals.

## How the state is modelled

- **Manager class.** `ForeignToplevel.Manager` holds the manager's lists as fields the
  methods reassign:
  - the registry `toplevels`, newest first;
  - the handle records, each with its own proxy list `resources` and membership list
    `outputs`, both newest first;
  - every live proxy, with its client, version and handle, or `None` once detached;
  - the manager bindings, newest first;
  - each output's `wl_output` bindings;
  - the output listeners that memberships registered, in registration order;
  - the event loop's idle queue: a handle is in it exactly when its `idle_source` is set.
- **Logs.** What the server sends is an append-only trace `sent` of wire messages.
  `Fanout.EventsTo(sent, p)` projects it onto one proxy's log. The signals raised to the
  compositor are a second log, `signals`.
- **Broadcast loops.** Each `wl_resource_for_each` / `wl_list_for_each` loop is a method
  with a `while` loop. It is proved against a specification function (`BroadcastMsgs`,
  `GatedMsgs`, `OutputFanout`, `ParentFanout`, `ReplayMsgs`, ...), and lemmas then state
  what each proxy receives.
- **Invariant.** `Manager.Valid()` is the registry invariant `Registry.Consistent` plus
  two further conditions:
  - **the idle queue:** at most one pending flush per handle, and only for live handles;
  - **no dangling parent pointer.**

  `Consistent` requires that:
  - no list holds a duplicate;
  - every proxy a handle lists points back at it;
  - every attached proxy is listed by its handle;
  - every membership has its listener, and every listener its membership;
  - ids stay below their allocation counters.

  Every entry point (the setters, output enter, leave, bind and destroy, handle
  create and destroy, bind, stop, the requests and proxy destroy) requires and ensures
  `Valid()`. Helpers that change only the log and the idle queue state those changes and
  keep `Wf()` and `IdleOk()`; `SetParent` also keeps `ParentsIn`. Inside handle destroy,
  `Unlink`, `Retire` and `OrphanLoop` keep `Wf() && IdleOk()` only: between removing the
  handle and orphaning its children, those children still name it as parent.
  `OrphanChildren` restores that condition, so `Destroy` ensures `Valid()`.
- **Pure parts.** The state-array encoder, the flag masks, the metadata-group presence
  tests and the request handlers' decision (`Requests.React`) are pure functions.

## Model

| member | source | states |
|---|---|---|
| States.WithFlag | types/wlr_foreign_toplevel_management_v1.c:551-605 | a flag setter turns exactly the requested bit on or off and leaves the other three flags as they were |
| States.StateArray | types/wlr_foreign_toplevel_management_v1.c:494-526 | the state array holds the token of a flag exactly when the flag is set, in strictly increasing canonical order (maximized, minimized, activated, fullscreen) |
| States.StateArrayRoundTrip | types/wlr_foreign_toplevel_management_v1.c:494-526 | the state event is the full state, not a delta: a client decoding the latest array alone gets back the handle's whole state word |
| Idle.Schedule | types/wlr_foreign_toplevel_management_v1.c:186-194 | arming a flush queues the handle only when none is pending; the queue keeps its order and stays duplicate-free |
| Idle.ScheduleAll | types/wlr_foreign_toplevel_management_v1.c:186-194 | arming flushes for several handles in turn queues exactly those not yet pending, duplicate-free |
| Idle.FlushDelivers | types/wlr_foreign_toplevel_management_v1.c:176-184 | running the queue sends exactly one done to every proxy of every queued handle and nothing to any other proxy |
| Fanout.BroadcastDelivers | types/wlr_foreign_toplevel_management_v1.c:205-208 | a `wl_resource_for_each` broadcast reaches each proxy of the handle exactly once and no other proxy |
| Fanout.GatedDelivers | types/wlr_foreign_toplevel_management_v1.c:319-331 | a version-gated broadcast reaches exactly the proxies at or above the since-version, each once |
| Fanout.OutputMsgsCovers | types/wlr_foreign_toplevel_management_v1.c:383-399 | send_output_to_resource names every binding of the proxy's own client in an event of the requested kind, and no binding of another client |
| Fanout.OutputMsgsDelivers | types/wlr_foreign_toplevel_management_v1.c:383-399 | send_output_to_resource gives its proxy exactly one enter (or leave) per binding of that proxy's client, in the output's binding order, and nothing to any other proxy |
| Fanout.OutputFanoutCovers | types/wlr_foreign_toplevel_management_v1.c:401-409 | toplevel_send_output sends only output events of the right kind to proxies of the handle, each naming a binding of that proxy's client, and leaves no such binding out |
| Fanout.OutputFanoutDelivers | types/wlr_foreign_toplevel_management_v1.c:401-409 | each proxy of the handle receives exactly one event per binding of its own client, in binding order; every other proxy receives nothing |
| Fanout.FindForClientSpec | types/wlr_foreign_toplevel_management_v1.c:847-849 | `wl_resource_find_for_client` finds nothing exactly when no proxy of the list belongs to the client, and otherwise finds the first one that does |
| Fanout.ParentMsgShape | types/wlr_foreign_toplevel_management_v1.c:607-625 | at most one parent event per proxy: none below the parent-since version, none when the client has no proxy of the new parent; otherwise null, or that client's own proxy of the parent |
| Fanout.ParentFanoutShape | types/wlr_foreign_toplevel_management_v1.c:627-640 | set_parent's fan-out holds only parent events on proxies of the handle, and only null-parent events for a null parent |
| Fanout.ParentFanoutDelivers | types/wlr_foreign_toplevel_management_v1.c:627-640 | each proxy of the handle receives its own resolved parent event (or none), every other proxy nothing |
| Fanout.FlattenDelivers | types/wlr_foreign_toplevel_management_v1.c:846-852 | when block k goes to proxy `start + k` alone, a proxy in `start .. start + \|bs\|` sees exactly its own block |
| Fanout.FlattenQuiet | types/wlr_foreign_toplevel_management_v1.c:846-852 | when block k goes to proxy `start + k` alone, a proxy outside `start .. start + n` (n the number of blocks) sees nothing |
| Outputs.ListenersOn | types/wlr_foreign_toplevel_management_v1.c:453-457 | the handles listening on an output are exactly those with a registered membership on it, without duplicates |
| Outputs.BoundFanout | types/wlr_foreign_toplevel_management_v1.c:411-426 | a late output bind sends only enters to the binding client's proxies of the handle, each naming one of that client's bindings, and leaves no such binding out |
| Outputs.BoundFanoutDelivers | types/wlr_foreign_toplevel_management_v1.c:411-426 | each of the binding client's proxies of the handle receives exactly one enter per binding that client has of the output, in binding order; every other proxy receives nothing |
| Outputs.BoundMsgsDelivers | types/wlr_foreign_toplevel_management_v1.c:411-426 | over every listening handle, each proxy of the binding client on one of them receives exactly one enter per binding of that client, in binding order; every other proxy receives nothing |
| Outputs.BoundMsgs | types/wlr_foreign_toplevel_management_v1.c:411-426 | the bind signal reaching every listening handle sends only enters to the binding client, covering every proxy of that client on each listening handle |
| Outputs.BoundOnlyToClient | types/wlr_foreign_toplevel_management_v1.c:411-426 | a late output bind leaves the log of every proxy of any other client unchanged |
| Outputs.LeaveMsgs | types/wlr_foreign_toplevel_management_v1.c:428-434 | an output's destruction sends only leave events, and for every proxy of every listening handle, every binding its client has on the output is named in one of them |
| Outputs.LeaveMsgsDelivers | types/wlr_foreign_toplevel_management_v1.c:428-434 | an output's destruction gives every proxy of a listening handle exactly one leave per binding its client has on the output, in binding order, and nothing to any other proxy |
| Outputs.LeaveMsgsSound | types/wlr_foreign_toplevel_management_v1.c:428-434 | each of those leaves goes to a live proxy of one of the listening handles and names a binding of that proxy's own client |
| Outputs.Unregister | types/wlr_foreign_toplevel_management_v1.c:465-471 | unlinking listeners keeps exactly the others, without duplicates |
| Outputs.UnregisterAppend | types/wlr_foreign_toplevel_management_v1.c:465-471 | the survivors keep their registration order: unlinking from two runs of listeners is unlinking from each run, the first run's survivors first |
| Outputs.LeftShape | types/wlr_foreign_toplevel_management_v1.c:428-434 | the listeners leaving an output in turn keep every handle and only take that output from the listening handles |
| Outputs.LeftAll | types/wlr_foreign_toplevel_management_v1.c:428-434 | once every handle on the output has left, no handle keeps a membership on it |
| Outputs.OffOutput | types/wlr_foreign_toplevel_management_v1.c:428-434 | after an output is gone no handle lists it, and handles that never did are unchanged |
| Lifecycle.NewestFirstShape | types/wlr_foreign_toplevel_management_v1.c:714 | the proxies created for a new handle sit in its list newest first, each once |
| Lifecycle.AnnounceShape | types/wlr_foreign_toplevel_management_v1.c:741-744 | handle_create announces one proxy on each binding, in binding order, each naming its own new proxy |
| Lifecycle.SpawnedProxies | types/wlr_foreign_toplevel_management_v1.c:699-717 | handle_create keeps every older proxy and adds one per binding, carrying that binding's client and version and attached to the new handle |
| Lifecycle.Children | types/wlr_foreign_toplevel_management_v1.c:672-680 | the handles destroy un-parents are exactly the registry's children of the destroyed handle |
| Lifecycle.ReparentOnlyNull | types/wlr_foreign_toplevel_management_v1.c:672-680 | destroy's last loop sends null-parent events and nothing else |
| Lifecycle.ReparentDelivers | types/wlr_foreign_toplevel_management_v1.c:672-680 | every proxy of a child of the destroyed handle that knows the parent event gets exactly one null-parent event; every other proxy gets none |
| Lifecycle.Orphaned | types/wlr_foreign_toplevel_management_v1.c:672-680 | after destroy's last loop no handle names the destroyed one as parent; its children lose only their parent and every other handle is unchanged |
| Lifecycle.ReparentedShape | types/wlr_foreign_toplevel_management_v1.c:672-680 | the loop over the registry only nulls the parent of the children it has visited |
| Lifecycle.ReparentedAll | types/wlr_foreign_toplevel_management_v1.c:672-680 | once the whole registry was visited, the children are orphaned |
| Lifecycle.OrphanedParentsIn | types/wlr_foreign_toplevel_management_v1.c:669-680 | once the destroyed handle has left the registry, un-parenting its children leaves no dangling parent pointer |
| Lifecycle.DetachedShape | types/wlr_foreign_toplevel_management_v1.c:651-656 | destroy's first loop keeps every proxy and only clears the handle of the destroyed handle's proxies |
| Replay.EnterAllShape | types/wlr_foreign_toplevel_management_v1.c:802-805 | the enters of the details are output enters to the proxy alone |
| Replay.PropertyShape | types/wlr_foreign_toplevel_management_v1.c:775-800 | the property events go to the proxy alone, none is a done, and the title comes first when set |
| Replay.DetailsShape | types/wlr_foreign_toplevel_management_v1.c:772-822 | the details go to the proxy alone, hold the full state array, end in done, and that done is their only one |
| Replay.ReplayBlockDetails | types/wlr_foreign_toplevel_management_v1.c:847-852 | block i of bind's second pass is the details of the i-th handle for the proxy pass one made for it |
| Replay.ReplayUpToBlocks | types/wlr_foreign_toplevel_management_v1.c:847-852 | the first n turns of the second pass send the first n blocks one after the other |
| Replay.HeadFound | types/wlr_foreign_toplevel_management_v1.c:847-849 | in the second pass `wl_resource_find_for_client` finds the proxy pass one inserted at the head of the handle's list |
| Replay.ReplayDelivers | types/wlr_foreign_toplevel_management_v1.c:846-852 | every proxy created by the bind receives exactly the details of its own handle, and every other proxy (other clients' and the client's older ones) receives nothing |
| Replay.ReplayFlat | types/wlr_foreign_toplevel_management_v1.c:846-852 | the second pass is its blocks sent one after the other in registry order, block k to the k-th new proxy alone |
| Replay.BlockOnlyTo | types/wlr_foreign_toplevel_management_v1.c:846-852 | each replayed block goes to its own new proxy alone and ends in its single done |
| Replay.BindAnnouncements | types/wlr_foreign_toplevel_management_v1.c:843-845 | pass one announces one new proxy per handle on the new binding, numbered in registry order |
| Replay.Greeted | types/wlr_foreign_toplevel_management_v1.c:843-845 | pass one keeps the set of handles |
| Replay.GreetedShape | types/wlr_foreign_toplevel_management_v1.c:843-845 | after pass one each handle lists its new proxy first, and other handles are untouched |
| Replay.IntroducedShape | types/wlr_foreign_toplevel_management_v1.c:843-845 | after pass one proxy `start + i` belongs to the binding client and stands for the i-th handle; older proxies are untouched |
| Replay.ReplayParentResolved | types/wlr_foreign_toplevel_management_v1.c:838-852 | because of the two passes, a child's replayed parent event always resolves to the client's proxy of the parent and is never suppressed |
| Requests.React | types/wlr_foreign_toplevel_management_v1.c:23-161 | destroy always destroys the proxy; any other request on a detached proxy, or activate without a seat client, does nothing; set_rectangle with a negative size posts invalid_rectangle; every other request raises the intent for the proxy's handle with the request's values |
| ForeignToplevel.Manager.constructor | types/wlr_foreign_toplevel_management_v1.c:864-889 | a new manager has an empty registry, no bindings, no pending flush and the invariant |
| ForeignToplevel.Manager.SendToAll | types/wlr_foreign_toplevel_management_v1.c:205-208 | the broadcast loop sends the event to each proxy in list order |
| ForeignToplevel.Manager.SendToAllSince | types/wlr_foreign_toplevel_management_v1.c:319-331 | the version-gated broadcast loop |
| ForeignToplevel.Manager.ScheduleDone | types/wlr_foreign_toplevel_management_v1.c:186-194 | a flush is armed only when none is pending; the queue stays valid |
| ForeignToplevel.Manager.IdleSendDone | types/wlr_foreign_toplevel_management_v1.c:176-184 | the flush sends one done to every current proxy and clears the pending flag |
| ForeignToplevel.Manager.DispatchIdle | types/wlr_foreign_toplevel_management_v1.c:176-194 | the event loop runs every pending flush once, in queue order, and none is left pending |
| ForeignToplevel.Manager.SetTitle | types/wlr_foreign_toplevel_management_v1.c:196-211 | the title is replaced and broadcast even when it did not change, then a flush is armed |
| ForeignToplevel.Manager.SetAppId | types/wlr_foreign_toplevel_management_v1.c:213-228 | the app_id is replaced and broadcast unconditionally, then a flush is armed |
| ForeignToplevel.Manager.SetGtkShell1Props | types/wlr_foreign_toplevel_management_v1.c:240-334 | no-op when neither the old nor the new group has a field; otherwise the whole group is replaced and sent only to proxies at or above its since-version, then a flush is armed |
| ForeignToplevel.Manager.SetKdeAppMenu | types/wlr_foreign_toplevel_management_v1.c:336-381 | the same rule for the KDE application-menu group |
| ForeignToplevel.Manager.SendState | types/wlr_foreign_toplevel_management_v1.c:528-549 | the full state array goes to every proxy, then a flush is armed |
| ForeignToplevel.Manager.SetStateFlag | types/wlr_foreign_toplevel_management_v1.c:551-605 | no event and no flush when the bit already has the value; otherwise only that bit changes and the full state is broadcast |
| ForeignToplevel.Manager.SendParent | types/wlr_foreign_toplevel_management_v1.c:607-625 | the parent event for one proxy, resolved for its client |
| ForeignToplevel.Manager.SendParentToAll | types/wlr_foreign_toplevel_management_v1.c:634-637 | set_parent's loop over the handle's proxies |
| ForeignToplevel.Manager.SetParent | types/wlr_foreign_toplevel_management_v1.c:627-640 | nothing happens for the current parent; otherwise every proxy is told, the pointer is stored, a flush is armed, and no parent pointer dangles afterwards |
| ForeignToplevel.Manager.SendOutputToResource | types/wlr_foreign_toplevel_management_v1.c:383-399 | the loop over the output's bindings, for one proxy |
| ForeignToplevel.Manager.SendOutputToAll | types/wlr_foreign_toplevel_management_v1.c:401-407 | the loop over the handle's proxies |
| ForeignToplevel.Manager.ToplevelSendOutput | types/wlr_foreign_toplevel_management_v1.c:401-409 | every proxy is told, then a flush is armed |
| ForeignToplevel.Manager.AddMembership | types/wlr_foreign_toplevel_management_v1.c:449-460 | the membership goes to the head of the handle's list and its listeners are registered last |
| ForeignToplevel.Manager.FindMembership | types/wlr_foreign_toplevel_management_v1.c:439-444 | the search finds a membership exactly when the handle is on the output |
| ForeignToplevel.Manager.OutputEnter | types/wlr_foreign_toplevel_management_v1.c:436-463 | no-op for a member; otherwise the membership is recorded and enters are sent and a flush armed |
| ForeignToplevel.Manager.DropMembership | types/wlr_foreign_toplevel_management_v1.c:465-471 | the membership and its listeners are unlinked |
| ForeignToplevel.Manager.OutputLeave | types/wlr_foreign_toplevel_management_v1.c:473-492 | no-op for a non-member; otherwise leaves are sent first, then the membership is removed |
| ForeignToplevel.Manager.HandleOutputBind | types/wlr_foreign_toplevel_management_v1.c:411-426 | enters go only to the binding client's proxies of the handle, then a flush is armed |
| ForeignToplevel.Manager.NotifyBound | types/wlr_foreign_toplevel_management_v1.c:411-426 | the output's bind signal runs the listeners in turn |
| ForeignToplevel.Manager.OutputBound | types/wlr_foreign_toplevel_management_v1.c:411-426 | a client binding an output gets catch-up enters for every handle already on it, and only that client does |
| ForeignToplevel.Manager.NotifyDestroyed | types/wlr_foreign_toplevel_management_v1.c:428-434 | the output's destroy signal makes each listening handle leave the output in turn |
| ForeignToplevel.Manager.OutputDestroyed | types/wlr_foreign_toplevel_management_v1.c:428-434 | destroying an output acts as output_leave on every handle on it; afterwards no membership or listener references it |
| ForeignToplevel.Manager.CloseAll | types/wlr_foreign_toplevel_management_v1.c:650-656 | every proxy of the handle is sent closed, detached and unlinked, in list order |
| ForeignToplevel.Manager.DropOutputs | types/wlr_foreign_toplevel_management_v1.c:658-661 | every membership of the handle is dropped with its listeners, and no leave is sent |
| ForeignToplevel.Manager.Strip | types/wlr_foreign_toplevel_management_v1.c:650-661 | destroy's first two loops: the handle is left with no proxy and no membership |
| ForeignToplevel.Manager.Unlink | types/wlr_foreign_toplevel_management_v1.c:663-667 | a pending flush is cancelled and the handle leaves the registry |
| ForeignToplevel.Manager.OrphanLoop | types/wlr_foreign_toplevel_management_v1.c:672-680 | destroy's last loop over the registry |
| ForeignToplevel.Manager.OrphanChildren | types/wlr_foreign_toplevel_management_v1.c:669-680 | every child of the destroyed handle gets a null parent in registry order, and afterwards no parent pointer dangles |
| ForeignToplevel.Manager.Retire | types/wlr_foreign_toplevel_management_v1.c:650-667 | the middle of destroy: proxies closed and detached, memberships dropped, flush cancelled, handle out of the registry |
| ForeignToplevel.Manager.Destroy | types/wlr_foreign_toplevel_management_v1.c:642-693 | the destroy signal first; every proxy gets closed and is detached; memberships are dropped; a pending flush is cancelled; the handle leaves the registry; its children get a null parent; the invariant holds after |
| ForeignToplevel.Manager.CreateHandle | types/wlr_foreign_toplevel_management_v1.c:719-747 | a new empty handle at the head of the registry, with a proxy for every binding, each announced on its binding; no flush is armed |
| ForeignToplevel.Manager.SendProperties | types/wlr_foreign_toplevel_management_v1.c:775-800 | the details' property events, each only when set and, for the metadata groups, only from their since-version |
| ForeignToplevel.Manager.SendEnters | types/wlr_foreign_toplevel_management_v1.c:802-805 | the details' enters, one pass over the memberships |
| ForeignToplevel.Manager.SendDetails | types/wlr_foreign_toplevel_management_v1.c:772-822 | the details: properties, enters, the state, the parent, then done |
| ForeignToplevel.Manager.ReplayOne | types/wlr_foreign_toplevel_management_v1.c:847-852 | one turn of bind's second pass sends the handle's details to the proxy pass one made for it |
| ForeignToplevel.Manager.ReplayAll | types/wlr_foreign_toplevel_management_v1.c:846-852 | bind's second pass over the registry |
| ForeignToplevel.Manager.DestroyProxy | types/wlr_foreign_toplevel_management_v1.c:695-697 | a destroyed proxy is unlinked from its handle's list when still attached, and forgotten |
| ForeignToplevel.Manager.HandleRequest | types/wlr_foreign_toplevel_management_v1.c:23-161 | a request on a proxy raises the intent, posts the error, destroys the proxy or does nothing, as `Requests.React` decides, and changes nothing else |
| ForeignToplevel.Manager.DropBinding | types/wlr_foreign_toplevel_management_v1.c:767-770 | the binding is unlinked; the proxies it brought stay |
| ForeignToplevel.Manager.Stop | types/wlr_foreign_toplevel_management_v1.c:752-760 | finished is sent on the binding, which is then destroyed |
| ForeignToplevel.Manager.AddBinding | types/wlr_foreign_toplevel_management_v1.c:824-845 | bind's first pass: the binding goes first, and every handle gets a proxy for the client at the head of its list, announced in registry order |
| ForeignToplevel.Manager.Bind | types/wlr_foreign_toplevel_management_v1.c:824-853 | bind: the first pass, then the second pass sends each new proxy its handle's details; no flush is armed |
| ForeignToplevel.AttachLoop | types/wlr_foreign_toplevel_management_v1.c:741-744 | handle_create's loop over the bindings: proxies numbered in binding order, listed newest first, each announced |
| ForeignToplevel.GreetLoop | types/wlr_foreign_toplevel_management_v1.c:843-845 | bind's first loop over the registry |

## Behaviour of the code worth noting

- **set_title / set_app_id.** Neither setter compares the new value with the old one
  (lines 196-228). Each always replaces the value, broadcasts it and arms a flush.
  The state-flag setters, by contrast, return early when the bit already has the
  requested value (lines 551-605). The metadata-group setters return early only when
  both the old and the new group are empty (lines 249-254, 340-345).
- **activate.** An activate request whose seat resource resolves to no seat client is
  dropped without a signal (lines 109-112).
- **set_rectangle.** The handle is checked before the size (lines 134-145). On a detached
  proxy a negative width or height is ignored without a protocol error.

## Left out

- **Allocation failure.** Every allocation is taken to succeed. The failure paths of
  `strdup`, `calloc`, `wl_resource_create` and `wl_array_add` are not modelled
  (lines 198-203, 215-220, 265-317, 446-448, 532-540, 706-709, 722-725, 810-814, 829-832,
  866-869, 876-879); the C code leaves inconsistent state behind on several of them.
- **The compositor.** Signals are a log. The compositor's listeners, which may call
  setters or destroy from inside a signal, are not modelled.
- **Outputs and their bindings.** `wlr_output` is not part of this model. An output's
  `wl_output` resources are the `outputResources` field. Its bind and destroy signals are
  the `OutputBound` and `OutputDestroyed` entry points.
- **Foreign objects.** Surfaces, seats and outputs named in requests are opaque ids.
  `wlr_seat_client_from_resource` returning null is the `None` seat of `Activate`.
- **Protocol errors.** `wl_resource_post_error` disconnects the client. The model only
  records the error message and leaves the client's proxies alive.
- **Identity and null guards.** Handles, proxies and bindings are numbered by counters
  instead of pointers. The `toplevel_handle_from_resource` type assertion (lines 17-19)
  and destroy's null-handle guard (lines 644-646) have no counterpart.
- **Unlinking while walking.** Destroy's first two loops (lines 651-656 and 659-661) unlink
  each element from the very list they walk, which is why they use the `_safe` iterators.
  `CloseAll` and `DropOutputs` walk a copy of the list taken at entry, in the same order, and
  leave the list empty. The saved next pointer and the `wl_list_init` of each unlinked
  proxy link have no counterpart.
- **Since-versions.** The versions that gate the parent event (3) and the two metadata
  events (4) are the `since` values of the protocol description. The code names them only
  through the generated header's `*_SINCE_VERSION` macros (lines 322, 373, 611), which are
  not part of this model.
- **Display teardown.** The `wl_global`, the display-destroy listener and the manager's
  destroy signal (lines 855-862, 872-886) are not modelled; the constructor models the
  empty lists only.
- **The event loop.** `DispatchIdle` stands for the loop running its idle sources. When
  that happens is the caller's choice.
- **The state word.** `uint32_t state` is modelled as four bits: no other bit is ever set.
