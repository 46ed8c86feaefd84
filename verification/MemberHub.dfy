/** The member hub: current port bindings per host/body pair.  An occupied slot
    rejects attachment, and a release clears only the generation it was given. */
module MemberHub {
  import opened Options

  datatype Pair = Pair(host: string, body: string) {
    predicate Valid() { host != "" && body != "" && host != body }
  }

  /** A transport function, by identity. */
  type Call = nat

  datatype Endpoint = Endpoint(generation: nat, call: Option<Call>)

  const FREE := Endpoint(0, None)

  datatype Link = Link(seat: Endpoint, handle: Endpoint, watchers: set<nat>) {
    function Slot(side: bool): Endpoint { if side then seat else handle }

    function With(side: bool, e: Endpoint): Link {
      if side then this.(seat := e) else this.(handle := e)
    }

    /** A free slot is blank, and no generation lies above `next`. */
    ghost predicate Within(next: nat) {
      && seat.generation <= next && (seat.call.None? ==> seat == FREE)
      && handle.generation <= next && (handle.call.None? ==> handle == FREE)
      && forall g :: g in watchers ==> 0 < g <= next
    }

    predicate Idle() { seat.call.None? && handle.call.None? && watchers == {} }
  }

  datatype Hub = Hub(next: nat, links: map<Pair, Link>) {
    /** A missing link reads as one with nothing attached. */
    function At(pair: Pair): Link {
      if pair in links then links[pair] else Link(FREE, FREE, {})
    }

    /** Links with nothing attached and nobody watching are not kept. */
    function Put(pair: Pair, link: Link): (h: Hub)
      ensures forall p :: p != pair ==> h.At(p) == At(p)
    {
      if link.Idle() then this.(links := links - {pair}) else this.(links := links[pair := link])
    }

    ghost predicate Sound() {
      forall p :: p in links ==> !links[p].Idle() && links[p].Within(next)
    }
  }

  function Attached(h: Hub, pair: Pair, side: bool, call: Call): Hub {
    var g := h.next + 1;
    h.(next := g).Put(pair, h.At(pair).With(side, Endpoint(g, Some(call))))
  }

  function Released(h: Hub, pair: Pair, side: bool, g: nat): Hub {
    if h.At(pair).Slot(side).generation == g then h.Put(pair, h.At(pair).With(side, FREE)) else h
  }

  function Watched(h: Hub, pair: Pair): Hub {
    var g := h.next + 1;
    h.(next := g).Put(pair, h.At(pair).(watchers := h.At(pair).watchers + {g}))
  }

  function Unwatched(h: Hub, pair: Pair, g: nat): Hub {
    h.Put(pair, h.At(pair).(watchers := h.At(pair).watchers - {g}))
  }

  datatype AttachError = InvalidAttachment | PortBusy

  datatype Result<T> = Ok(value: T) | Err(error: AttachError)

  /** What a section hands to the watchers it captured, delivered after the lock. */
  datatype Notice = Notice(generation: nat, call: Option<Call>)

  datatype Sends = Sends(to: set<nat>, notice: Notice)

  lemma PutSound(h: Hub, pair: Pair, link: Link)
    requires h.Sound() && link.Within(h.next)
    ensures h.Put(pair, link).Sound() && h.Put(pair, link).At(pair) == link
  {
  }

  lemma TickSound(h: Hub)
    requires h.Sound()
    ensures h.(next := h.next + 1).Sound()
  {
  }

  lemma AttachedSound(h: Hub, pair: Pair, side: bool, call: Call)
    requires h.Sound()
    ensures Attached(h, pair, side, call).Sound()
    ensures Attached(h, pair, side, call).At(pair) == h.At(pair).With(side, Endpoint(h.next + 1, Some(call)))
  {
    TickSound(h);
    var n := h.(next := h.next + 1);
    assert n.At(pair) == h.At(pair);
    PutSound(n, pair, n.At(pair).With(side, Endpoint(h.next + 1, Some(call))));
  }

  lemma ReleasedSound(h: Hub, pair: Pair, side: bool, g: nat)
    requires h.Sound()
    ensures Released(h, pair, side, g).Sound()
    ensures Released(h, pair, side, g).At(pair) ==
            if h.At(pair).Slot(side).generation == g then h.At(pair).With(side, FREE) else h.At(pair)
  {
    PutSound(h, pair, h.At(pair).With(side, FREE));
  }

  lemma WatchedSound(h: Hub, pair: Pair)
    requires h.Sound()
    ensures Watched(h, pair).Sound()
    ensures Watched(h, pair).At(pair) == h.At(pair).(watchers := h.At(pair).watchers + {h.next + 1})
  {
    TickSound(h);
    var n := h.(next := h.next + 1);
    assert n.At(pair) == h.At(pair);
    PutSound(n, pair, n.At(pair).(watchers := n.At(pair).watchers + {h.next + 1}));
  }

  lemma UnwatchedSound(h: Hub, pair: Pair, g: nat)
    requires h.Sound()
    ensures Unwatched(h, pair, g).Sound()
    ensures Unwatched(h, pair, g).At(pair) == h.At(pair).(watchers := h.At(pair).watchers - {g})
  {
    PutSound(h, pair, h.At(pair).(watchers := h.At(pair).watchers - {g}));
  }

  /** The hub's lock-held sections. */
  class Ports {
    var next: nat
    var links: map<Pair, Link>

    ghost function View(): Hub
      reads this
    {
      Hub(next, links)
    }

    constructor ()
      ensures View() == Hub(0, map[]) && View().Sound()
    {
      next, links := 0, map[];
    }

    method Attach(pair: Pair, side: bool, call: Option<Call>) returns (r: Result<(nat, Sends)>)
      requires View().Sound()
      modifies this
      ensures View().Sound()
      ensures r == Err(InvalidAttachment) <==> !pair.Valid() || call.None?
      ensures r == Err(PortBusy) <==> pair.Valid() && call.Some? && old(View()).At(pair).Slot(side).call.Some?
      ensures r.Err? ==> View() == old(View())
      ensures r.Ok? ==>
                && View() == Attached(old(View()), pair, side, call.value)
                && r.value.0 == old(next) + 1
                && r.value.1 == (if side then Sends({}, Notice(View().At(pair).handle.generation, View().At(pair).handle.call))
                                 else Sends(old(View()).At(pair).watchers, Notice(r.value.0, call)))
    {
      if !pair.Valid() || call.None? {
        return Err(InvalidAttachment);
      }
      if pair in links && links[pair].Slot(side).call.Some? {
        return Err(PortBusy);
      }
      AttachedSound(View(), pair, side, call.value);
      next := next + 1;
      var generation := next;
      if pair !in links {
        links := links[pair := Link(FREE, FREE, {})];
      }
      links := links[pair := links[pair].With(side, Endpoint(generation, call))];
      assert links == old(links)[pair := old(View()).At(pair).With(side, Endpoint(generation, call))];
      assert View() == Attached(old(View()), pair, side, call.value);
      var binding := Notice(links[pair].handle.generation, links[pair].handle.call);
      r := Ok((generation, Sends(if side then {} else links[pair].watchers, binding)));
    }

    method Release(pair: Pair, side: bool, generation: nat) returns (sends: Option<Sends>)
      requires View().Sound() && 0 < generation
      modifies this
      ensures View().Sound() && View() == Released(old(View()), pair, side, generation)
      ensures sends == if !side && old(View()).At(pair).handle.generation == generation
                       then Some(Sends(View().At(pair).watchers, Notice(generation, None))) else None
    {
      ReleasedSound(View(), pair, side, generation);
      if pair !in links {
        return None;
      }
      assert !links[pair].Idle();
      var changed := false;
      if side && links[pair].seat.generation == generation {
        links := links[pair := links[pair].(seat := FREE)];
      }
      if !side && links[pair].handle.generation == generation {
        links := links[pair := links[pair].(handle := FREE)];
        changed := true;
      }
      var watchers := links[pair].watchers;
      if links[pair].Idle() {
        links := links - {pair};
      }
      assert View() == Released(old(View()), pair, side, generation) by {
        if old(links)[pair].Slot(side).generation != generation {
          assert links == old(links);
        } else {
          assert links.Keys <= old(links).Keys;
        }
      }
      sends := if changed then Some(Sends(watchers, Notice(generation, None))) else None;
    }

    method Watch(pair: Pair) returns (r: Result<(nat, Notice)>)
      requires View().Sound()
      modifies this
      ensures View().Sound()
      ensures r == Err(InvalidAttachment) <==> !pair.Valid()
      ensures r.Err? ==> r.error == InvalidAttachment && View() == old(View())
      ensures r.Ok? ==> View() == Watched(old(View()), pair) && r.value.0 == old(next) + 1 &&
                        r.value.1 == Notice(View().At(pair).handle.generation, View().At(pair).handle.call)
    {
      if !pair.Valid() {
        return Err(InvalidAttachment);
      }
      WatchedSound(View(), pair);
      next := next + 1;
      if pair !in links {
        links := links[pair := Link(FREE, FREE, {})];
      }
      links := links[pair := links[pair].(watchers := links[pair].watchers + {next})];
      assert links == old(links)[pair := old(View()).At(pair).(watchers := old(View()).At(pair).watchers + {next})];
      assert View() == Watched(old(View()), pair);
      r := Ok((next, Notice(links[pair].handle.generation, links[pair].handle.call)));
    }

    method Unwatch(pair: Pair, generation: nat)
      requires View().Sound()
      modifies this
      ensures View().Sound() && View() == Unwatched(old(View()), pair, generation)
    {
      UnwatchedSound(View(), pair, generation);
      if pair in links {
        links := links[pair := links[pair].(watchers := links[pair].watchers - {generation})];
        if links[pair].Idle() {
          links := links - {pair};
        }
      }
      assert links == Unwatched(old(View()), pair, generation).links;
    }

    /** Where `Drive` (the seat) and `Deliver` (the handle) route a request. */
    method Lookup(pair: Pair, side: bool) returns (call: Option<Call>)
      ensures call == View().At(pair).Slot(side).call
    {
      if pair in links {
        call := links[pair].Slot(side).call;
      } else {
        call := None;
      }
    }
  }
}
