/** The requests a client sends on a handle proxy, and what the server
    does with each: raise an intent to the compositor, post a protocol
    error, destroy the proxy, or nothing at all. */
module Requests {
  import opened Types

  /** The requests of the `zwlr_foreign_toplevel_handle_v1` interface.
      The seat of `activate` is `None` when its resource resolves to no
      seat client; the output of `set_fullscreen` is `None` when the
      client passed none. */
  datatype Request =
    | SetMaximized
    | UnsetMaximized
    | SetMinimized
    | UnsetMinimized
    | Activate(seat: Option<SeatId>)
    | Close
    | SetRectangle(surface: SurfaceId, x: int32, y: int32, width: int32, height: int32)
    | Destroy
    | SetFullscreen(output: Option<OutputId>)
    | UnsetFullscreen

  /** What handling one request amounts to. */
  datatype Reaction =
    | Ignore
    | Raise(sig: Signal)
    | Reject(code: nat)
    | Drop

  /** The handlers of the handle interface, for a proxy whose handle is
      `h` (`None` once the handle is destroyed). Destroy always destroys
      the proxy; every other request on a detached proxy is dropped
      silently; set_rectangle checks the handle before the size. */
  function React(req: Request, h: Option<HandleId>): (r: Reaction)
    ensures r == Drop <==> req.Destroy?
    ensures h.None? && !req.Destroy? ==> r == Ignore
    ensures r.Ignore? <==> !req.Destroy? && (h.None? || (req.Activate? && req.seat.None?))
    ensures r.Reject? <==> h.Some? && req.SetRectangle? && (req.width < 0 || req.height < 0)
    ensures r.Reject? ==> r.code == InvalidRectangleError
    ensures r.Raise? ==> h == Some(r.sig.handle) && !r.sig.Destroyed?
    ensures r.Raise? && r.sig.RequestMaximize? ==>
      (req.SetMaximized? || req.UnsetMaximized?) && (r.sig.maximized <==> req.SetMaximized?)
    ensures r.Raise? && r.sig.RequestMinimize? ==>
      (req.SetMinimized? || req.UnsetMinimized?) && (r.sig.minimized <==> req.SetMinimized?)
    ensures r.Raise? && r.sig.RequestFullscreen? ==>
      (req.SetFullscreen? || req.UnsetFullscreen?) && (r.sig.fullscreen <==> req.SetFullscreen?) &&
      r.sig.output == (if req.SetFullscreen? then req.output else None)
    ensures r.Raise? && r.sig.RequestActivate? ==> req == Activate(Some(r.sig.seat))
    ensures r.Raise? && r.sig.RequestClose? ==> req.Close?
    ensures r.Raise? && r.sig.SetRectangle? ==>
      req == Request.SetRectangle(r.sig.surface, r.sig.x, r.sig.y, r.sig.width, r.sig.height)
  {
    match (req, h)
    case (Destroy, _) => Drop
    case (_, None) => Ignore
    case (SetMaximized, Some(t)) => Raise(RequestMaximize(t, true))
    case (UnsetMaximized, Some(t)) => Raise(RequestMaximize(t, false))
    case (SetMinimized, Some(t)) => Raise(RequestMinimize(t, true))
    case (UnsetMinimized, Some(t)) => Raise(RequestMinimize(t, false))
    case (Activate(None), Some(_)) => Ignore
    case (Activate(Some(seat)), Some(t)) => Raise(RequestActivate(t, seat))
    case (Close, Some(t)) => Raise(RequestClose(t))
    case (SetRectangle(surface, x, y, width, height), Some(t)) =>
      if width < 0 || height < 0 then Reject(InvalidRectangleError)
      else Raise(Types.SetRectangle(t, surface, x, y, width, height))
    case (SetFullscreen(output), Some(t)) => Raise(RequestFullscreen(t, true, output))
    case (UnsetFullscreen, Some(t)) => Raise(RequestFullscreen(t, false, None))
  }
}
