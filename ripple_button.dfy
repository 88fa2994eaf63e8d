/**
 * The ripple button: a click appends a ripple record centred on the click
 * point and schedules a 600 ms timer that removes every ripple with that
 * record's id. The timers are explicit: the component keeps the ids of the
 * timers still pending, oldest first, and an `Expire` event fires the oldest
 * one (all timers have the same delay, so they fire in creation order).
 * `Date.now()` is the `now` parameter of a click.
 */
module RippleEffect {
  import opened Dom

  /** A ripple: its top-left corner relative to the button, its diameter, its id. */
  datatype Ripple = Ripple(x: real, y: real, size: real, id: int)

  /** `Math.max`. */
  function Max(a: real, b: real): real {
    if a >= b then a else b
  }

  /**
   * The ripple a click creates: as wide as the button's larger side, placed
   * so that its centre is the click point in the button's coordinates.
   */
  function NewRipple(rect: Rect, clientX: real, clientY: real, now: int): (r: Ripple)
    ensures r.size >= rect.width && r.size >= rect.height
    ensures r.size == rect.width || r.size == rect.height
    ensures r.x + r.size / 2.0 == clientX - rect.left
    ensures r.y + r.size / 2.0 == clientY - rect.top
    ensures r.id == now
  {
    var size := Max(rect.width, rect.height);
    Ripple(clientX - rect.left - size / 2.0, clientY - rect.top - size / 2.0, size, now)
  }

  /** The number of ripples carrying `id`. */
  function CountId(rs: seq<Ripple>, id: int): nat {
    if rs == [] then 0
    else (if rs[0].id == id then 1 else 0) + CountId(rs[1..], id)
  }

  /** No two ripples share an id. */
  predicate DistinctIds(rs: seq<Ripple>) {
    forall i, j :: 0 <= i < j < |rs| ==> rs[i].id != rs[j].id
  }

  /**
   * `prev.filter(r => r.id !== id)`: drops exactly the ripples carrying `id`
   * and keeps every other one.
   */
  function RemoveId(rs: seq<Ripple>, id: int): (r: seq<Ripple>)
    ensures forall x :: x in r <==> x in rs && x.id != id
    ensures |r| == |rs| - CountId(rs, id)
  {
    if rs == [] then []
    else if rs[0].id != id then [rs[0]] + RemoveId(rs[1..], id)
    else RemoveId(rs[1..], id)
  }

  /** Filtering distributes over concatenation, so the kept ripples stay in their order. */
  lemma {:induction false} RemoveIdAppend(a: seq<Ripple>, b: seq<Ripple>, id: int)
    ensures RemoveId(a + b, id) == RemoveId(a, id) + RemoveId(b, id)
  {
    if a == [] {
      assert a + b == b;
    } else {
      assert (a + b)[0] == a[0];
      assert (a + b)[1..] == a[1..] + b;
      RemoveIdAppend(a[1..], b, id);
      assert RemoveId(a + b, id) ==
        (if a[0].id != id then [a[0]] else []) + RemoveId(a[1..] + b, id);
    }
  }

  /** A list without the id is left as it is. */
  lemma {:induction false} RemoveIdAbsent(rs: seq<Ripple>, id: int)
    requires forall i :: 0 <= i < |rs| ==> rs[i].id != id
    ensures RemoveId(rs, id) == rs
  {
    if rs != [] {
      RemoveIdAbsent(rs[1..], id);
    }
  }

  /** With distinct ids, the expiry of ripple `j`'s id removes that ripple and nothing else. */
  lemma {:induction false} RemoveIdUnique(rs: seq<Ripple>, j: nat)
    requires DistinctIds(rs) && j < |rs|
    ensures RemoveId(rs, rs[j].id) == rs[..j] + rs[j + 1..]
  {
    var id := rs[j].id;
    var before, after := rs[..j], rs[j + 1..];
    assert rs == before + ([rs[j]] + after);
    RemoveIdAppend(before, [rs[j]] + after, id);
    RemoveIdAppend([rs[j]], after, id);
    assert RemoveId([rs[j]], id) == [] by {
      assert [rs[j]][1..] == [];
    }
    forall i | 0 <= i < |before|
      ensures before[i].id != id
    {
      assert before[i] == rs[i];
    }
    RemoveIdAbsent(before, id);
    forall i | 0 <= i < |after|
      ensures after[i].id != id
    {
      assert after[i] == rs[j + 1 + i];
    }
    RemoveIdAbsent(after, id);
  }

  /** With distinct ids, the oldest timer removes exactly the oldest ripple. */
  lemma ExpireOldest(rs: seq<Ripple>)
    requires DistinctIds(rs) && rs != []
    ensures RemoveId(rs, rs[0].id) == rs[1..]
  {
    RemoveIdUnique(rs, 0);
  }

  /**
   * Two clicks in the same millisecond give their ripples the same id, and
   * the first of their timers removes both.
   */
  lemma CollidingRipplesExpireTogether(a: Ripple, b: Ripple, rest: seq<Ripple>)
    requires a.id == b.id
    ensures RemoveId([a, b] + rest, a.id) == RemoveId(rest, a.id)
  {
    assert ([a, b] + rest)[1..] == [b] + rest;
    assert ([b] + rest)[1..] == rest;
  }

  /** The list after the pending timers `ids` have all fired, in order. */
  function ExpireAll(rs: seq<Ripple>, ids: seq<int>): seq<Ripple>
    decreases |ids|
  {
    if ids == [] then rs else ExpireAll(RemoveId(rs, ids[0]), ids[1..])
  }

  lemma HeadIsMember(rs: seq<Ripple>)
    requires rs != []
    ensures rs[0] in rs
  {
  }

  /** When every ripple's id has a pending timer, firing them all empties the list. */
  lemma {:induction false} ExpireAllEmpties(rs: seq<Ripple>, ids: seq<int>)
    requires forall r :: r in rs ==> r.id in ids
    ensures ExpireAll(rs, ids) == []
    decreases |ids|
  {
    if ids == [] {
      if rs != [] {
        HeadIsMember(rs);
        assert false;
      }
    } else {
      var rest := RemoveId(rs, ids[0]);
      forall r | r in rest
        ensures r.id in ids[1..]
      {
        assert r.id in ids && r.id != ids[0];
      }
      ExpireAllEmpties(rest, ids[1..]);
    }
  }

  /** The `RippleButton` component: its `ripples` state and its pending timers. */
  class RippleButton {
    var ripples: seq<Ripple>
    var timers: seq<int>

    /** Every ripple on screen still has a timer that will remove it. */
    ghost predicate Valid()
      reads this
    {
      forall r :: r in ripples ==> r.id in timers
    }

    /**
     * The pending timers are the ripples' ids in creation order, and no two
     * ripples share an id: this holds as long as every click comes at a new
     * time.
     */
    ghost predicate InOrder()
      reads this
    {
      && DistinctIds(ripples)
      && |timers| == |ripples|
      && (forall i :: 0 <= i < |ripples| ==> ripples[i].id == timers[i])
    }

    constructor ()
      ensures Valid() && InOrder() && ripples == [] && timers == []
    {
      ripples := [];
      timers := [];
    }

    /** `createRipple`: append one ripple and schedule its expiry. */
    method Click(rect: Rect, clientX: real, clientY: real, now: int)
      requires Valid()
      modifies this
      ensures Valid()
      ensures ripples == old(ripples) + [NewRipple(rect, clientX, clientY, now)]
      ensures timers == old(timers) + [now]
      ensures old(InOrder()) && now !in old(timers) ==> InOrder()
    {
      var ripple := NewRipple(rect, clientX, clientY, now);
      ghost var wasInOrder := InOrder();
      if wasInOrder && now !in timers {
        forall i | 0 <= i < |ripples|
          ensures ripples[i].id != now
        {
          assert ripples[i].id == timers[i];
        }
      }
      ripples := ripples + [ripple];
      timers := timers + [ripple.id];
    }

    /** The oldest pending timer fires and removes the ripples with its id. */
    method Expire()
      requires Valid()
      modifies this
      ensures Valid()
      ensures old(timers) == [] ==> ripples == old(ripples) && timers == []
      ensures old(timers) != [] ==>
        timers == old(timers)[1..] && ripples == RemoveId(old(ripples), old(timers)[0])
      ensures old(InOrder()) ==> InOrder() && ripples == (if old(ripples) == [] then [] else old(ripples)[1..])
    {
      if timers != [] {
        var id := timers[0];
        if InOrder() {
          ExpireOldest(ripples);
        }
        ripples := RemoveId(ripples, id);
        timers := timers[1..];
        forall r | r in ripples
          ensures r.id in timers
        {
          assert r.id in old(timers) && r.id != id;
        }
      }
    }

    /** After all pending timers have fired, no ripple is left. */
    lemma Drained()
      requires Valid()
      ensures ExpireAll(ripples, timers) == []
    {
      ExpireAllEmpties(ripples, timers);
    }
  }

  /**
   * Two clicks at different times, then one expiry: the first ripple is
   * gone and the second is still on screen.
   */
  method TwoClicksOneExpiry(rect: Rect, x1: real, y1: real, t1: int, x2: real, y2: real, t2: int)
    returns (button: RippleButton)
    requires t1 != t2
    ensures button.Valid() && button.InOrder()
    ensures button.ripples == [NewRipple(rect, x2, y2, t2)] && button.timers == [t2]
  {
    button := new RippleButton();
    button.Click(rect, x1, y1, t1);
    button.Click(rect, x2, y2, t2);
    button.Expire();
  }
}
