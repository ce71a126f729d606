/** The four-flag state of a toplevel handle: the bit word the handle keeps
    and the ordered token list the state event carries on the wire. */
module States {

  /** The handle's state word. The source keeps a `uint32_t`, but only the four
      flag bits are ever set, so the model keeps those four. */
  type StateBits = bv4

  datatype StateFlag = Maximized | Minimized | Activated | Fullscreen

  /** Bit of the flag in the handle's state word. */
  function Mask(f: StateFlag): StateBits {
    match f
    case Maximized => 1
    case Minimized => 2
    case Activated => 4
    case Fullscreen => 8
  }

  /** Wire value of the flag in the state event's array. */
  function Token(f: StateFlag): nat {
    match f
    case Maximized => 0
    case Minimized => 1
    case Activated => 2
    case Fullscreen => 3
  }

  predicate Has(s: StateBits, f: StateFlag) {
    s & Mask(f) != 0
  }

  /** The state word after a flag setter turned `f` on or off. */
  function WithFlag(s: StateBits, f: StateFlag, on: bool): (r: StateBits)
    ensures Has(r, f) == on
    ensures forall g :: g != f ==> Has(r, g) == Has(s, g)
  {
    if on then s | Mask(f) else s & !Mask(f)
  }

  /** The token the encoder appends for `f`: one when the flag is set, none otherwise. */
  function Entry(s: StateBits, f: StateFlag): seq<nat> {
    if Has(s, f) then [Token(f)] else []
  }

  /** The array of the state event: every active flag, in the fixed order
      maximized, minimized, activated, fullscreen. */
  function StateArray(s: StateBits): (r: seq<nat>)
    ensures forall f :: Token(f) in r <==> Has(s, f)
    ensures forall i, j :: 0 <= i < j < |r| ==> r[i] < r[j]
  {
    Entry(s, Maximized) + Entry(s, Minimized) + Entry(s, Activated) + Entry(s, Fullscreen)
  }

  /** Bit that a client sets for one token of a state event; unknown tokens set nothing. */
  function TokenMask(t: nat): StateBits {
    if t == 0 then 1 else if t == 1 then 2 else if t == 2 then 4 else if t == 3 then 8 else 0
  }

  /** The state word a client rebuilds from the latest state event alone. */
  function StateOf(a: seq<nat>): StateBits {
    if a == [] then 0 else StateOf(a[..|a| - 1]) | TokenMask(a[|a| - 1])
  }

  /** The state event is the full state, not a delta: decoding it gives back
      every flag of the handle's state word. */
  lemma StateArrayRoundTrip(s: StateBits)
    ensures StateOf(StateArray(s)) == s
  {
    var m1 := Entry(s, Maximized);
    var m2 := m1 + Entry(s, Minimized);
    var m3 := m2 + Entry(s, Activated);
    var a := m3 + Entry(s, Fullscreen);
    assert StateOf(m1) == s & 1;
    assert StateOf(m2) == s & 3 by {
      if Has(s, Minimized) { assert m2[..|m2| - 1] == m1; }
    }
    assert StateOf(m3) == s & 7 by {
      if Has(s, Activated) { assert m3[..|m3| - 1] == m2; }
    }
    assert StateOf(a) == s & 15 by {
      if Has(s, Fullscreen) { assert a[..|a| - 1] == m3; } else { assert a == m3; }
    }
  }
}
