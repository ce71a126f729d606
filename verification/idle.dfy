/** The deferred "done" flush: the event loop's queue of idle sources, one
    per handle with a pending flush, and what running the queue sends. */
module Idle {
  import opened Types
  import opened Fanout

  /** The queue after toplevel_update_idle_source: a handle is queued only
      when it has no pending flush already. */
  function Schedule(q: seq<HandleId>, h: HandleId): (r: seq<HandleId>)
    ensures forall x :: x in r <==> x in q || x == h
    ensures Distinct(q) ==> Distinct(r)
    ensures |q| <= |r| <= |q| + 1 && r[..|q|] == q
    ensures h in q ==> r == q
  {
    if h in q then q else q + [h]
  }

  /** The queue after each handle of `hs` was scheduled in turn. */
  function ScheduleAll(q: seq<HandleId>, hs: seq<HandleId>): (r: seq<HandleId>)
    ensures forall x :: x in r <==> x in q || x in hs
    ensures Distinct(q) ==> Distinct(r)
  {
    if hs == [] then q
    else Schedule(ScheduleAll(q, hs[..|hs| - 1]), hs[|hs| - 1])
  }

  /** Arming the flushes of the first `i + 1` handles arms the first `i`,
      then the next one. */
  lemma ScheduleStep(q: seq<HandleId>, hs: seq<HandleId>, i: nat)
    requires i < |hs|
    ensures ScheduleAll(q, hs[..i + 1]) == Schedule(ScheduleAll(q, hs[..i]), hs[i])
  {
    assert hs[..i + 1][..i] == hs[..i];
  }

  /** What flushing the queued handles sends: a done to every proxy of each,
      handle by handle in queue order. */
  function DoneMsgs(q: seq<HandleId>, hs: map<HandleId, Handle>): seq<Msg>
    requires forall h :: h in q ==> h in hs
  {
    if q == [] then []
    else DoneMsgs(q[..|q| - 1], hs) + BroadcastMsgs(hs[q[|q| - 1]].resources, Done)
  }

  /** One more flush run: the queue's next handle adds a done to each of its proxies. */
  lemma DoneStep(q: seq<HandleId>, hs: map<HandleId, Handle>, i: nat, s: seq<Msg>)
    requires i < |q| && forall h :: h in q ==> h in hs
    ensures forall h :: h in q[..i] ==> h in hs
    ensures forall h :: h in q[..i + 1] ==> h in hs
    ensures s + DoneMsgs(q[..i + 1], hs) == s + DoneMsgs(q[..i], hs) + BroadcastMsgs(hs[q[i]].resources, Done)
  {
    assert q[..i + 1][..i] == q[..i];
    AppendAssoc(s, DoneMsgs(q[..i], hs), BroadcastMsgs(hs[q[i]].resources, Done));
  }

  /** A proxy is listed by at most one handle. */
  ghost predicate OwnedOnce(hs: map<HandleId, Handle>) {
    forall h1, h2, p :: h1 in hs && h2 in hs && p in hs[h1].resources && p in hs[h2].resources ==> h1 == h2
  }

  /** Running the queue sends exactly one done to each proxy of each queued
      handle, and nothing to any other proxy. */
  lemma {:induction false} FlushDelivers(q: seq<HandleId>, hs: map<HandleId, Handle>, p: ProxyId)
    requires forall h :: h in q ==> h in hs
    requires Distinct(q) && OwnedOnce(hs)
    requires forall h :: h in hs ==> Distinct(hs[h].resources)
    ensures EventsTo(DoneMsgs(q, hs), p)
            == if exists h :: h in q && p in hs[h].resources then [Done] else []
    decreases |q|
  {
    if q != [] {
      var q' := q[..|q| - 1];
      var h := q[|q| - 1];
      assert q == q' + [h];
      assert Distinct(q') by {
        forall i, j | 0 <= i < j < |q'| ensures q'[i] != q'[j] { assert q'[i] == q[i] && q'[j] == q[j]; }
      }
      FlushDelivers(q', hs, p);
      EventsToAppend(DoneMsgs(q', hs), BroadcastMsgs(hs[h].resources, Done), p);
      BroadcastDelivers(hs[h].resources, Done, p);
      if p in hs[h].resources {
        forall h' | h' in q' ensures p !in hs[h'].resources {
          assert h' != h;
        }
      }
    }
  }
}
