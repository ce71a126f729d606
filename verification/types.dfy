/** Identifiers, protocol constants and the records the foreign-toplevel
    registry keeps: handles, per-client proxies, manager bindings, the
    wire messages it sends and the signals it raises to the compositor. */
module Types {
  import opened States

  datatype Option<+T> = None | Some(value: T)

  /** A toplevel handle (`struct wlr_foreign_toplevel_handle_v1`), by identity. */
  type HandleId = nat
  /** A `zwlr_foreign_toplevel_handle_v1` resource: one client's proxy of one handle. */
  type ProxyId = nat
  /** A `zwlr_foreign_toplevel_manager_v1` resource: one binding of the manager global. */
  type ManagerResourceId = nat
  /** A `wl_output` resource that a client bound. */
  type OutputResourceId = nat
  type ClientId = nat
  /** A `wlr_output`, by identity. */
  type OutputId = nat
  /** The seat an activate request resolved to. */
  type SeatId = nat
  /** The surface a set_rectangle request names. */
  type SurfaceId = nat

  newtype int32 = x: int | -0x8000_0000 <= x < 0x8000_0000

  /** Version of the manager global (line 11). */
  const ManagerVersion: nat := 4
  /** First handle version that carries the parent event: the `since` value of
      that event in the protocol description, which the code reads through the
      generated `ZWLR_FOREIGN_TOPLEVEL_HANDLE_V1_PARENT_SINCE_VERSION` (line 611). */
  const ParentSinceVersion: nat := 3
  /** First handle version that carries the gtk_shell1 D-Bus properties event:
      the protocol description's `since` value, read through the generated
      `..._GTK_SHELL1_SURFACE_DBUS_PROPERTIES_SINCE_VERSION` (line 322). */
  const GtkShell1SinceVersion: nat := 4
  /** First handle version that carries the KDE application-menu event: the
      protocol description's `since` value, read through the generated
      `..._KDE_APPLICATION_MENU_SINCE_VERSION` (line 373). */
  const KdeAppMenuSinceVersion: nat := 4
  /** Protocol error code `invalid_rectangle` of the handle interface. */
  const InvalidRectangleError: nat := 0

  predicate Distinct<T(==)>(s: seq<T>) {
    forall i, j :: 0 <= i < j < |s| ==> s[i] != s[j]
  }

  /** Dropping the last element of a list without duplicates leaves one
      without duplicates that does not hold the dropped element. */
  lemma DistinctInit<T>(s: seq<T>)
    requires Distinct(s) && s != []
    ensures Distinct(s[..|s| - 1]) && s[|s| - 1] !in s[..|s| - 1]
  {
    var init := s[..|s| - 1];
    forall i, j | 0 <= i < j < |init| ensures init[i] != init[j] {
      assert init[i] == s[i] && init[j] == s[j];
    }
    forall k | 0 <= k < |init| ensures init[k] != s[|s| - 1] {
      assert init[k] == s[k];
    }
  }

  /** Adding an element that is not in a list without duplicates, at
      either end, keeps it without duplicates. */
  lemma DistinctAdd<T>(x: T, s: seq<T>)
    requires Distinct(s) && x !in s
    ensures Distinct([x] + s) && Distinct(s + [x])
  {
    var front, back := [x] + s, s + [x];
    forall i, j | 0 <= i < j < |front| ensures front[i] != front[j] {
      assert front[j] == s[j - 1];
      if i > 0 { assert front[i] == s[i - 1]; }
    }
    forall i, j | 0 <= i < j < |back| ensures back[i] != back[j] {
      assert back[i] == s[i];
      if j < |s| { assert back[j] == s[j]; }
    }
  }

  /** `s` with `x` unlinked, the others kept in their order. */
  function Remove<T(==, !new)>(s: seq<T>, x: T): (r: seq<T>)
    ensures forall y :: y in r <==> y in s && y != x
    ensures Distinct(s) ==> Distinct(r)
    ensures x !in s ==> r == s
    ensures |r| <= |s|
  {
    if s == [] then []
    else
      var rest := Remove(s[1..], x);
      assert Distinct(s) ==> Distinct(s[1..]) && s[0] !in rest by {
        if Distinct(s) {
          forall i, j | 0 <= i < j < |s[1..]| ensures s[1..][i] != s[1..][j] {
            assert s[1..][i] == s[i + 1] && s[1..][j] == s[j + 1];
          }
          forall k | 0 <= k < |s[1..]| ensures s[1..][k] != s[0] {
            assert s[1..][k] == s[k + 1];
          }
        }
      }
      (if s[0] == x then [] else [s[0]]) + rest
  }

  /** The tail of a list without duplicates has none either, nor its head. */
  lemma DistinctTail<T>(s: seq<T>)
    requires Distinct(s) && s != []
    ensures Distinct(s[1..]) && s[0] !in s[1..]
  {
    forall i, j | 0 <= i < j < |s[1..]| ensures s[1..][i] != s[1..][j] {
      assert s[1..][i] == s[i + 1] && s[1..][j] == s[j + 1];
    }
    forall k | 0 <= k < |s[1..]| ensures s[1..][k] != s[0] {
      assert s[1..][k] == s[k + 1];
    }
  }

  /** Unlinking the head of a list without duplicates leaves its tail. */
  lemma RemoveHead<T(!new)>(s: seq<T>)
    requires Distinct(s) && s != []
    ensures Remove(s, s[0]) == s[1..]
  {
    DistinctTail(s);
  }

  /** Appending is associative; stated once for any element type so that a
      proof over opaque pieces never looks inside them. */
  lemma AppendAssoc<T>(a: seq<T>, b: seq<T>, c: seq<T>)
    ensures a + b + c == a + (b + c)
  {
  }

  /** Five pieces appended after `s` one by one are the five appended together. */
  lemma AppendFive<T>(s: seq<T>, a: seq<T>, b: seq<T>, c: seq<T>, d: seq<T>, e: seq<T>)
    ensures s + (a + b + c + d + e) == s + a + b + c + d + e
  {
  }

  /** Overwriting a key twice keeps the second value only. */
  lemma UpdateTwice<K, V>(m: map<K, V>, k: K, a: V, b: V)
    ensures m[k := a][k := b] == m[k := b]
  {
  }

  /** Removing a key forgets what was last stored under it. */
  lemma UpdateThenRemove<K, V>(m: map<K, V>, k: K, v: V)
    ensures m[k := v] - {k} == m - {k}
  {
  }

  /** The gtk_shell1 D-Bus properties group; every field may be absent (null). */
  datatype GtkShell1Props = GtkShell1Props(
    applicationId: Option<string>,
    appMenuPath: Option<string>,
    menubarPath: Option<string>,
    windowObjectPath: Option<string>,
    applicationObjectPath: Option<string>,
    uniqueBusName: Option<string>)

  const NoGtkShell1Props := GtkShell1Props(None, None, None, None, None, None)

  /** The group counts as present when any one of its fields is set. */
  predicate HasGtkShell1Props(g: GtkShell1Props) {
    || g.applicationId.Some?
    || g.appMenuPath.Some?
    || g.menubarPath.Some?
    || g.windowObjectPath.Some?
    || g.applicationObjectPath.Some?
    || g.uniqueBusName.Some?
  }

  /** The KDE application-menu group. */
  datatype KdeAppMenu = KdeAppMenu(serviceName: Option<string>, objectPath: Option<string>)

  const NoKdeAppMenu := KdeAppMenu(None, None)

  predicate HasKdeAppMenu(k: KdeAppMenu) {
    k.serviceName.Some? || k.objectPath.Some?
  }

  /** A group is present exactly when it differs from the all-null group. */
  lemma PresentIffNotEmpty(g: GtkShell1Props, k: KdeAppMenu)
    ensures HasGtkShell1Props(g) <==> g != NoGtkShell1Props
    ensures HasKdeAppMenu(k) <==> k != NoKdeAppMenu
  {
  }

  /** One toplevel handle: its properties, its output memberships (newest
      first) and its proxies (`resources`, newest first). */
  datatype Handle = Handle(
    title: Option<string>,
    appId: Option<string>,
    state: StateBits,
    gtk: GtkShell1Props,
    kde: KdeAppMenu,
    parent: Option<HandleId>,
    outputs: seq<OutputId>,
    resources: seq<ProxyId>)

  /** A freshly allocated handle: everything null, empty or zero. */
  const NewHandle := Handle(None, None, 0, NoGtkShell1Props, NoKdeAppMenu, None, [], [])

  /** A handle's parent pointer. */
  function ParentOf(hs: map<HandleId, Handle>, h: HandleId): Option<HandleId>
    requires h in hs
  {
    hs[h].parent
  }

  /** No handle's parent pointer dangles. */
  predicate ParentsIn(hs: map<HandleId, Handle>) {
    forall h {:trigger ParentOf(hs, h)} :: h in hs ==> ParentOf(hs, h).Some? ==> ParentOf(hs, h).value in hs
  }

  /** A handle resource: its client, the version it was created with and the
      handle it stands for, or None once the handle was destroyed. */
  datatype Proxy = Proxy(client: ClientId, version: nat, handle: Option<HandleId>)

  datatype ManagerResource = ManagerResource(id: ManagerResourceId, client: ClientId, version: nat)

  /** One client's binding of a `wlr_output`. */
  datatype OutputResource = OutputResource(client: ClientId, id: OutputResourceId)

  /** Events sent on a handle resource. */
  datatype HandleEvent =
    | Title(title: string)
    | AppId(appId: string)
    | GtkShell1Dbus(gtk: GtkShell1Props)
    | KdeApplicationMenu(kde: KdeAppMenu)
    | OutputEnter(entered: OutputResourceId)
    | OutputLeave(left: OutputResourceId)
    | State(states: seq<nat>)
    | Parent(parent: Option<ProxyId>)
    | Done
    | Closed

  /** Events sent on a manager resource. */
  datatype ManagerEvent = NewToplevel(toplevel: ProxyId) | Finished

  /** One message on the wire, in the order the server sends them. */
  datatype Msg =
    | ToHandle(proxy: ProxyId, event: HandleEvent)
    | ToManager(manager: ManagerResourceId, mevent: ManagerEvent)
    | PostError(target: ProxyId, code: nat)

  /** Signals raised to the compositor: the client's requests as intents,
      and the handle's destroy signal. */
  datatype Signal =
    | RequestMaximize(handle: HandleId, maximized: bool)
    | RequestMinimize(handle: HandleId, minimized: bool)
    | RequestActivate(handle: HandleId, seat: SeatId)
    | RequestFullscreen(handle: HandleId, fullscreen: bool, output: Option<OutputId>)
    | RequestClose(handle: HandleId)
    | SetRectangle(handle: HandleId, surface: SurfaceId, x: int32, y: int32, width: int32, height: int32)
    | Destroyed(handle: HandleId)
}
