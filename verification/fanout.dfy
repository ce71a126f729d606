/** What one broadcast puts on the wire: the messages a fan-out loop over a
    handle's proxies sends, and what each single proxy receives of them. */
module Fanout {
  import opened States
  import opened Types

  /** The events one proxy has received, in order: its log, read off the
      server's whole wire trace. */
  function EventsTo(trace: seq<Msg>, p: ProxyId): seq<HandleEvent> {
    if trace == [] then []
    else
      EventsTo(trace[..|trace| - 1], p)
      + (match trace[|trace| - 1]
         case ToHandle(q, e) => if q == p then [e] else []
         case _ => [])
  }

  /** A proxy's log of a trace sent in two parts is its log of the first
      part followed by its log of the second. */
  lemma {:induction false} EventsToAppend(a: seq<Msg>, b: seq<Msg>, p: ProxyId)
    ensures EventsTo(a + b, p) == EventsTo(a, p) + EventsTo(b, p)
    decreases |b|
  {
    if b == [] {
      assert a + b == a;
    } else {
      var b' := b[..|b| - 1];
      assert (a + b)[..|a + b| - 1] == a + b';
      EventsToAppend(a, b', p);
    }
  }

  /** Every proxy in `rs` is a live resource. */
  predicate Live(rs: seq<ProxyId>, proxies: map<ProxyId, Proxy>) {
    forall q :: q in rs ==> q in proxies
  }

  /** One event to every proxy of the list, in list order. */
  function BroadcastMsgs(rs: seq<ProxyId>, ev: HandleEvent): seq<Msg> {
    if rs == [] then []
    else BroadcastMsgs(rs[..|rs| - 1], ev) + [ToHandle(rs[|rs| - 1], ev)]
  }

  /** A broadcast reaches each proxy of the list exactly once and no other proxy. */
  lemma {:induction false} BroadcastDelivers(rs: seq<ProxyId>, ev: HandleEvent, p: ProxyId)
    requires Distinct(rs)
    ensures EventsTo(BroadcastMsgs(rs, ev), p) == if p in rs then [ev] else []
    decreases |rs|
  {
    if rs != [] {
      var rs' := rs[..|rs| - 1];
      assert rs == rs' + [rs[|rs| - 1]];
      BroadcastDelivers(rs', ev, p);
    }
  }

  /** One event to every proxy of the list whose version is at least `since`. */
  function GatedMsgs(rs: seq<ProxyId>, proxies: map<ProxyId, Proxy>, since: nat, ev: HandleEvent): seq<Msg>
    requires Live(rs, proxies)
  {
    if rs == [] then []
    else
      var q := rs[|rs| - 1];
      GatedMsgs(rs[..|rs| - 1], proxies, since, ev)
      + (if proxies[q].version >= since then [ToHandle(q, ev)] else [])
  }

  /** A version-gated broadcast reaches exactly the proxies of the list at
      or above the version, each once. */
  lemma {:induction false} GatedDelivers(rs: seq<ProxyId>, proxies: map<ProxyId, Proxy>, since: nat,
                                         ev: HandleEvent, p: ProxyId)
    requires Live(rs, proxies) && Distinct(rs)
    ensures EventsTo(GatedMsgs(rs, proxies, since, ev), p)
            == if p in rs && proxies[p].version >= since then [ev] else []
    decreases |rs|
  {
    if rs != [] {
      var rs' := rs[..|rs| - 1];
      var q := rs[|rs| - 1];
      assert rs == rs' + [q];
      GatedDelivers(rs', proxies, since, ev, p);
      var tail := if proxies[q].version >= since then [ToHandle(q, ev)] else [];
      EventsToAppend(GatedMsgs(rs', proxies, since, ev), tail, p);
      if tail != [] {
        assert EventsTo(tail, p) == EventsTo([], p) + (if q == p then [ev] else []);
      }
    }
  }

  /** The bindings an output has, newest first; none when it was never bound. */
  function Bindings(outs: map<OutputId, seq<OutputResource>>, o: OutputId): seq<OutputResource> {
    if o in outs then outs[o] else []
  }

  function OutputEvent(id: OutputResourceId, enter: bool): HandleEvent {
    if enter then OutputEnter(id) else OutputLeave(id)
  }

  /** What one proxy of client `c` is sent about an output: an enter (or leave)
      naming each of that client's bindings of the output, in binding order. */
  function OutputMsgs(p: ProxyId, binds: seq<OutputResource>, c: ClientId, enter: bool): seq<Msg> {
    if binds == [] then []
    else
      var b := binds[|binds| - 1];
      OutputMsgs(p, binds[..|binds| - 1], c, enter)
      + (if b.client == c then [ToHandle(p, OutputEvent(b.id, enter))] else [])
  }

  /** Proxy `p` is sent an event for each binding of client `c`, and
      nothing that does not name one of them. */
  lemma {:induction false} OutputMsgsCovers(p: ProxyId, binds: seq<OutputResource>, c: ClientId, enter: bool)
    ensures forall m :: m in OutputMsgs(p, binds, c, enter) ==>
      m.ToHandle? && m.proxy == p
      && exists b :: b in binds && b.client == c && m.event == OutputEvent(b.id, enter)
    ensures forall b :: b in binds && b.client == c ==> ToHandle(p, OutputEvent(b.id, enter)) in OutputMsgs(p, binds, c, enter)
    decreases |binds|
  {
    if binds != [] {
      var bs' := binds[..|binds| - 1];
      assert binds == bs' + [binds[|binds| - 1]];
      assert forall x :: x in bs' ==> x in binds;
      OutputMsgsCovers(p, bs', c, enter);
    }
  }

  /** An output event for every proxy of the list, each for its own client's bindings. */
  function OutputFanout(rs: seq<ProxyId>, proxies: map<ProxyId, Proxy>, binds: seq<OutputResource>,
                        enter: bool): seq<Msg>
    requires Live(rs, proxies)
  {
    if rs == [] then []
    else
      var q := rs[|rs| - 1];
      OutputFanout(rs[..|rs| - 1], proxies, binds, enter) + OutputMsgs(q, binds, proxies[q].client, enter)
  }

  /** The fan-out sends only output events of the right kind, to proxies of
      the list, each naming a binding of that proxy's own client; and every
      proxy of the list gets one for each binding of its client. */
  lemma {:induction false} OutputFanoutCovers(rs: seq<ProxyId>, proxies: map<ProxyId, Proxy>,
                                              binds: seq<OutputResource>, enter: bool)
    requires Live(rs, proxies)
    ensures forall m :: m in OutputFanout(rs, proxies, binds, enter) ==>
      m.ToHandle? && m.proxy in rs
      && exists b :: b in binds && b.client == proxies[m.proxy].client && m.event == OutputEvent(b.id, enter)
    ensures forall q, b :: q in rs && b in binds && b.client == proxies[q].client ==>
      ToHandle(q, OutputEvent(b.id, enter)) in OutputFanout(rs, proxies, binds, enter)
    decreases |rs|
  {
    if rs != [] {
      var rs' := rs[..|rs| - 1];
      var q := rs[|rs| - 1];
      assert rs == rs' + [q];
      assert forall x :: x in rs' ==> x in rs;
      OutputFanoutCovers(rs', proxies, binds, enter);
      OutputMsgsCovers(q, binds, proxies[q].client, enter);
    }
  }

  /** The output events one proxy of client `c` is due: one per binding of
      `c` to the output, in the order of the output's binding list. */
  function OutputEvents(binds: seq<OutputResource>, c: ClientId, enter: bool): seq<HandleEvent> {
    if binds == [] then []
    else
      var b := binds[|binds| - 1];
      OutputEvents(binds[..|binds| - 1], c, enter) + (if b.client == c then [OutputEvent(b.id, enter)] else [])
  }

  /** Every message for one proxy goes to that proxy. */
  lemma {:induction false} OutputMsgsOnlyTo(p: ProxyId, binds: seq<OutputResource>, c: ClientId, enter: bool)
    ensures OnlyTo(OutputMsgs(p, binds, c, enter), p)
    decreases |binds|
  {
    if binds != [] {
      OutputMsgsOnlyTo(p, binds[..|binds| - 1], c, enter);
    }
  }

  /** Proxy `p` logs exactly one event per binding of client `c`, in binding
      order; every other proxy logs nothing. */
  lemma {:induction false} OutputMsgsDelivers(p: ProxyId, binds: seq<OutputResource>, c: ClientId, enter: bool, x: ProxyId)
    ensures EventsTo(OutputMsgs(p, binds, c, enter), x) == if x == p then OutputEvents(binds, c, enter) else []
    decreases |binds|
  {
    if binds != [] {
      var bs' := binds[..|binds| - 1];
      var b := binds[|binds| - 1];
      OutputMsgsDelivers(p, bs', c, enter, x);
      var prev, tail := OutputMsgs(p, bs', c, enter), if b.client == c then [ToHandle(p, OutputEvent(b.id, enter))] else [];
      assert OutputMsgs(p, binds, c, enter) == prev + tail;
      assert OnlyTo(tail, p);
      AppendBlock(prev, tail, p, x);
      if x == p {
        assert EventsTo(tail, x) == (if b.client == c then [OutputEvent(b.id, enter)] else []) by {
          if b.client == c {
            assert tail == [] + [ToHandle(p, OutputEvent(b.id, enter))];
          }
        }
      } else {
        assert EventsTo(prev, x) + [] == [];
      }
    }
  }

  /** The fan-out over a handle's proxies: each proxy of the list logs exactly
      the events its own client is due, once each and in binding order; any
      other proxy logs nothing. */
  lemma {:induction false} OutputFanoutDelivers(rs: seq<ProxyId>, proxies: map<ProxyId, Proxy>,
                                                binds: seq<OutputResource>, enter: bool, p: ProxyId)
    requires Live(rs, proxies) && Distinct(rs)
    ensures EventsTo(OutputFanout(rs, proxies, binds, enter), p)
            == if p in rs then OutputEvents(binds, proxies[p].client, enter) else []
    decreases |rs|
  {
    if rs != [] {
      var rs' := rs[..|rs| - 1];
      var q := rs[|rs| - 1];
      assert rs == rs' + [q];
      DistinctInit(rs);
      assert Live(rs', proxies);
      OutputFanoutDelivers(rs', proxies, binds, enter, p);
      var prev, tail := OutputFanout(rs', proxies, binds, enter), OutputMsgs(q, binds, proxies[q].client, enter);
      assert OutputFanout(rs, proxies, binds, enter) == prev + tail;
      OutputMsgsOnlyTo(q, binds, proxies[q].client, enter);
      AppendBlock(prev, tail, q, p);
      if p == q {
        OutputMsgsDelivers(q, binds, proxies[q].client, enter, p);
        assert EventsTo(prev, p) == [];
        assert [] + EventsTo(tail, p) == EventsTo(tail, p);
      } else if p in rs' {
        assert EventsTo(prev, p) + [] == EventsTo(prev, p);
      } else {
        assert p !in rs && EventsTo(prev, p) == [];
      }
    }
  }

  /** The first proxy of the list that belongs to client `c` (wl_resource_find_for_client). */
  function FindForClient(rs: seq<ProxyId>, proxies: map<ProxyId, Proxy>, c: ClientId): Option<ProxyId>
    requires Live(rs, proxies)
  {
    if rs == [] then None
    else if proxies[rs[0]].client == c then Some(rs[0])
    else
      assert forall q :: q in rs[1..] ==> q in rs;
      FindForClient(rs[1..], proxies, c)
  }

  /** The search finds nothing exactly when no proxy of the list belongs to
      `c`; otherwise it finds the earliest one that does. */
  lemma {:induction false} FindForClientSpec(rs: seq<ProxyId>, proxies: map<ProxyId, Proxy>, c: ClientId)
    requires Live(rs, proxies)
    ensures FindForClient(rs, proxies, c).None? <==> forall q :: q in rs ==> proxies[q].client != c
    ensures FindForClient(rs, proxies, c).Some? ==>
      exists i :: 0 <= i < |rs| && rs[i] == FindForClient(rs, proxies, c).value
                  && proxies[rs[i]].client == c
                  && forall k :: 0 <= k < i ==> proxies[rs[k]].client != c
    decreases |rs|
  {
    if rs != [] && proxies[rs[0]].client != c {
      assert forall q :: q in rs[1..] ==> q in rs;
      FindForClientSpec(rs[1..], proxies, c);
      assert rs == [rs[0]] + rs[1..];
      var r := FindForClient(rs[1..], proxies, c);
      if r.Some? {
        var i :| 0 <= i < |rs[1..]| && rs[1..][i] == r.value && proxies[rs[1..][i]].client == c
                 && forall k :: 0 <= k < i ==> proxies[rs[1..][k]].client != c;
        assert rs[i + 1] == r.value;
        forall k | 0 <= k < i + 1 ensures proxies[rs[k]].client != c {
          if k > 0 { assert rs[k] == rs[1..][k - 1]; }
        }
      }
    }
  }

  /** What the search finds is a proxy of the list that belongs to `c`. */
  lemma FindForClientIn(rs: seq<ProxyId>, proxies: map<ProxyId, Proxy>, c: ClientId)
    requires Live(rs, proxies)
    ensures FindForClient(rs, proxies, c).Some? ==>
      FindForClient(rs, proxies, c).value in rs && proxies[FindForClient(rs, proxies, c).value].client == c
  {
    FindForClientSpec(rs, proxies, c);
  }

  /** A list headed by a proxy of `c` yields that proxy. */
  lemma FindHead(rs: seq<ProxyId>, proxies: map<ProxyId, Proxy>, c: ClientId)
    requires Live(rs, proxies) && rs != [] && proxies[rs[0]].client == c
    ensures FindForClient(rs, proxies, c) == Some(rs[0])
  {
  }

  /** The parent event one proxy gets (toplevel_resource_send_parent): `pr`
      is the new parent's resource list, or None for a null parent. */
  function ParentMsg(p: ProxyId, proxies: map<ProxyId, Proxy>, pr: Option<seq<ProxyId>>): seq<Msg>
    requires p in proxies
    requires pr.Some? ==> Live(pr.value, proxies)
  {
    if proxies[p].version < ParentSinceVersion then []
    else if pr.None? then [ToHandle(p, Parent(None))]
    else match FindForClient(pr.value, proxies, proxies[p].client)
      case None => []
      case Some(q) => [ToHandle(p, Parent(Some(q)))]
  }

  /** At most one parent event, for `p` itself: none below the version that
      knows the event, none when the new parent has no proxy of `p`'s
      client; otherwise null for a null parent, or that client's proxy of
      the parent. */
  lemma ParentMsgShape(p: ProxyId, proxies: map<ProxyId, Proxy>, pr: Option<seq<ProxyId>>)
    requires p in proxies
    requires pr.Some? ==> Live(pr.value, proxies)
    ensures |ParentMsg(p, proxies, pr)| <= 1
    ensures ParentMsg(p, proxies, pr) != [] <==>
      proxies[p].version >= ParentSinceVersion
      && (pr.Some? ==> exists q :: q in pr.value && proxies[q].client == proxies[p].client)
    ensures ParentMsg(p, proxies, pr) != [] ==>
      var m := ParentMsg(p, proxies, pr)[0];
      m.ToHandle? && m.proxy == p && m.event.Parent?
      && (pr.None? ==> m.event.parent == None)
      && (pr.Some? ==> m.event.parent.Some? && m.event.parent.value in pr.value
                       && proxies[m.event.parent.value].client == proxies[p].client)
  {
    if pr.Some? {
      FindForClientSpec(pr.value, proxies, proxies[p].client);
      FindForClientIn(pr.value, proxies, proxies[p].client);
    }
  }

  /** Resource list of the new parent as `ParentMsg` wants it. */
  function ParentResources(hs: map<HandleId, Handle>, parent: Option<HandleId>): Option<seq<ProxyId>>
    requires parent.Some? ==> parent.value in hs
  {
    if parent.None? then None else Some(hs[parent.value].resources)
  }

  /** The parent event for every proxy of the list, each resolved for its own client. */
  function ParentFanout(rs: seq<ProxyId>, proxies: map<ProxyId, Proxy>, pr: Option<seq<ProxyId>>): seq<Msg>
    requires Live(rs, proxies)
    requires pr.Some? ==> Live(pr.value, proxies)
  {
    if rs == [] then []
    else
      var q := rs[|rs| - 1];
      ParentFanout(rs[..|rs| - 1], proxies, pr) + ParentMsg(q, proxies, pr)
  }

  /** The fan-out holds only parent events on proxies of the list, and
      only null-parent events when the new parent is null. */
  lemma {:induction false} ParentFanoutShape(rs: seq<ProxyId>, proxies: map<ProxyId, Proxy>, pr: Option<seq<ProxyId>>)
    requires Live(rs, proxies)
    requires pr.Some? ==> Live(pr.value, proxies)
    ensures forall m :: m in ParentFanout(rs, proxies, pr) ==> m.ToHandle? && m.proxy in rs && m.event.Parent?
    ensures pr.None? ==> forall m :: m in ParentFanout(rs, proxies, pr) ==> m.event == Parent(None)
    decreases |rs|
  {
    if rs != [] {
      var rs' := rs[..|rs| - 1];
      assert forall x :: x in rs' ==> x in rs;
      ParentFanoutShape(rs', proxies, pr);
    }
  }

  /** Each proxy of the list gets its own resolved parent event (or none,
      when suppressed), and proxies outside the list get nothing. */
  lemma {:induction false} ParentFanoutDelivers(rs: seq<ProxyId>, proxies: map<ProxyId, Proxy>,
                                                pr: Option<seq<ProxyId>>, p: ProxyId)
    requires Live(rs, proxies) && Distinct(rs)
    requires pr.Some? ==> Live(pr.value, proxies)
    ensures EventsTo(ParentFanout(rs, proxies, pr), p)
            == if p in rs then EventsTo(ParentMsg(p, proxies, pr), p) else []
    decreases |rs|
  {
    if rs != [] {
      var rs' := rs[..|rs| - 1];
      var q := rs[|rs| - 1];
      assert rs == rs' + [q];
      DistinctInit(rs);
      assert Live(rs', proxies);
      ParentFanoutDelivers(rs', proxies, pr, p);
      var prev, tail := ParentFanout(rs', proxies, pr), ParentMsg(q, proxies, pr);
      assert ParentFanout(rs, proxies, pr) == prev + tail;
      ParentMsgOnlyTo(q, proxies, pr);
      AppendBlock(prev, tail, q, p);
      if p == q {
        assert EventsTo(prev, p) == [];
        assert [] + EventsTo(tail, p) == EventsTo(tail, p);
      } else if p in rs' {
        assert EventsTo(prev, p) + [] == EventsTo(prev, p);
      } else {
        assert p !in rs && EventsTo(prev, p) == [];
      }
    }
  }

  /** The parent event of proxy `q`, if any, goes to `q`. */
  lemma ParentMsgOnlyTo(q: ProxyId, proxies: map<ProxyId, Proxy>, pr: Option<seq<ProxyId>>)
    requires q in proxies
    requires pr.Some? ==> Live(pr.value, proxies)
    ensures OnlyTo(ParentMsg(q, proxies, pr), q)
  {
  }

  /** Every message of the block is an event on proxy `p`. */
  predicate OnlyTo(block: seq<Msg>, p: ProxyId) {
    forall m :: m in block ==> m.ToHandle? && m.proxy == p
  }

  /** Appending a block sent to `q` alone extends the log of `q` by the
      block's events and leaves every other log as it was. */
  lemma AppendBlock(prev: seq<Msg>, last: seq<Msg>, q: ProxyId, p: ProxyId)
    requires OnlyTo(last, q)
    ensures EventsTo(prev + last, p) == EventsTo(prev, p) + (if p == q then EventsTo(last, p) else [])
  {
    EventsToAppend(prev, last, p);
    if p != q {
      SilentFor(last, p);
    }
  }

  /** Blocks sent one after the other. */
  function Flatten(bs: seq<seq<Msg>>): seq<Msg> {
    if bs == [] then [] else Flatten(bs[..|bs| - 1]) + bs[|bs| - 1]
  }

  /** Block k goes to proxy `start + k` alone. */
  predicate BlocksTo(bs: seq<seq<Msg>>, start: ProxyId) {
    forall k :: 0 <= k < |bs| ==> OnlyTo(bs[k], start + k)
  }

  /** Sending one more block appends it to the trace. */
  lemma FlattenSnoc(bs: seq<seq<Msg>>, n: nat)
    requires n < |bs|
    ensures Flatten(bs[..n + 1]) == Flatten(bs[..n]) + bs[n]
  {
    assert bs[..n + 1][..n] == bs[..n];
  }

  /** When block k goes to proxy `start + k` alone, a proxy outside
      `start .. start + |bs|` sees nothing of the blocks. */
  lemma {:induction false} FlattenQuiet(bs: seq<seq<Msg>>, start: ProxyId, p: ProxyId)
    requires BlocksTo(bs, start) && (p < start || start + |bs| <= p)
    ensures EventsTo(Flatten(bs), p) == []
    decreases |bs|
  {
    if bs != [] {
      var n := |bs| - 1;
      var bs' := bs[..n];
      FlattenSnoc(bs, n);
      assert bs[..n + 1] == bs;
      assert BlocksTo(bs', start) by {
        forall k | 0 <= k < n ensures OnlyTo(bs'[k], start + k) { assert bs'[k] == bs[k]; }
      }
      FlattenQuiet(bs', start, p);
      AppendBlock(Flatten(bs'), bs[n], start + n, p);
    }
  }

  /** When block k goes to proxy `start + k` alone, a proxy `p` from
      `start .. start + |bs|` sees its own block, `p - start`, and nothing else. */
  lemma {:induction false} FlattenDelivers(bs: seq<seq<Msg>>, start: ProxyId, p: ProxyId)
    requires BlocksTo(bs, start) && start <= p < start + |bs|
    ensures EventsTo(Flatten(bs), p) == EventsTo(bs[p - start], p)
    decreases |bs|
  {
    var n := |bs| - 1;
    var bs' := bs[..n];
    FlattenSnoc(bs, n);
    assert bs[..n + 1] == bs;
    assert BlocksTo(bs', start) by {
      forall k | 0 <= k < n ensures OnlyTo(bs'[k], start + k) { assert bs'[k] == bs[k]; }
    }
    AppendBlock(Flatten(bs'), bs[n], start + n, p);
    if p < start + n {
      FlattenDelivers(bs', start, p);
      assert bs'[p - start] == bs[p - start];
      assert EventsTo(Flatten(bs'), p) + [] == EventsTo(bs[p - start], p);
    } else {
      FlattenQuiet(bs', start, p);
      assert [] + EventsTo(bs[n], p) == EventsTo(bs[p - start], p);
    }
  }

  /** A trace holding no event for `p` leaves its log empty. */
  lemma {:induction false} SilentFor(trace: seq<Msg>, p: ProxyId)
    requires forall m :: m in trace ==> !(m.ToHandle? && m.proxy == p)
    ensures EventsTo(trace, p) == []
    decreases |trace|
  {
    if trace != [] {
      var t' := trace[..|trace| - 1];
      assert forall m :: m in t' ==> m in trace;
      SilentFor(t', p);
    }
  }
}
