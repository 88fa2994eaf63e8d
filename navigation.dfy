/**
 * The navigation logic shared by the landing page and the works home page:
 * the scroll handler that finds the section under a point 100 pixels below
 * the top of the window, and the existence check of `scrollToSection`.
 */
module Navigation {
  import opened Dom
  import opened Wrappers

  /** How far below the top of the window the active-section probe sits. */
  const ScrollOffset: real := 100.0

  /** The element with id `id` exists and its box `[offsetTop, offsetTop + offsetHeight)` contains `pos`. */
  predicate Hit(doc: Document, id: string, pos: real) {
    id in doc && doc[id].offsetTop <= pos < doc[id].offsetTop + doc[id].offsetHeight
  }

  /**
   * The first section, in list order, whose element exists and contains
   * `pos`; `None` when there is none.
   */
  function FirstHit(sections: seq<string>, doc: Document, pos: real): (r: Option<string>)
    ensures r.Some? ==> r.value in sections && Hit(doc, r.value, pos)
    ensures r.Some? ==> exists j :: 0 <= j < |sections| && sections[j] == r.value &&
                                    (forall i :: 0 <= i < j ==> !Hit(doc, sections[i], pos))
    ensures r.None? <==> forall i :: 0 <= i < |sections| ==> !Hit(doc, sections[i], pos)
  {
    if sections == [] then None
    else if Hit(doc, sections[0], pos) then Some(sections[0])
    else
      var rest := FirstHit(sections[1..], doc, pos);
      assert forall i :: 1 <= i < |sections| ==> sections[i] == sections[1..][i - 1];
      assert rest.Some? ==> exists j :: 0 <= j < |sections| && sections[j] == rest.value &&
                                      (forall i :: 0 <= i < j ==> !Hit(doc, sections[i], pos)) by {
        if rest.Some? {
          var k :| 0 <= k < |sections[1..]| && sections[1..][k] == rest.value &&
            forall i :: 0 <= i < k ==> !Hit(doc, sections[1..][i], pos);
          assert sections[k + 1] == rest.value;
          assert forall i :: 0 <= i < k + 1 ==> !Hit(doc, sections[i], pos);
        }
      }
      rest
  }

  /**
   * The scroll handler's loop: walk the sections in order, skip those with
   * no element, and stop at the first whose box contains
   * `scrollY + 100`.
   */
  method Scan(sections: seq<string>, doc: Document, scrollY: real) returns (found: Option<string>)
    ensures found == FirstHit(sections, doc, scrollY + ScrollOffset)
  {
    var scrollPosition := scrollY + ScrollOffset;
    found := None;
    var i := 0;
    while i < |sections|
      invariant 0 <= i <= |sections|
      invariant found.None?
      invariant FirstHit(sections, doc, scrollPosition) == FirstHit(sections[i..], doc, scrollPosition)
    {
      var section := sections[i];
      assert sections[i..][0] == section && sections[i..][1..] == sections[i + 1..];
      if section in doc {
        var element := doc[section];
        if scrollPosition >= element.offsetTop && scrollPosition < element.offsetTop + element.offsetHeight {
          found := Some(section);
          break;
        }
      }
      i := i + 1;
    }
  }

  /** `scrollToSection`'s lookup: the id to scroll into view, if an element has it. */
  function ScrollTarget(doc: Document, id: string): (r: Option<string>)
    ensures r.Some? <==> id in doc
    ensures r.Some? ==> r.value == id
  {
    if id in doc then Some(id) else None
  }

  /** No id occurs twice in `items`. */
  predicate Distinct(items: seq<string>) {
    forall i, j :: 0 <= i < j < |items| ==> items[i] != items[j]
  }

  /** For each navigation item, whether it is drawn highlighted (its id equals the active one). */
  function Highlights(items: seq<string>, active: string): (h: seq<bool>)
    ensures |h| == |items|
    ensures forall i :: 0 <= i < |items| ==> (h[i] <==> items[i] == active)
  {
    seq(|items|, i requires 0 <= i < |items| => items[i] == active)
  }

  function CountTrue(bs: seq<bool>): nat {
    if bs == [] then 0 else (if bs[0] then 1 else 0) + CountTrue(bs[1..])
  }

  /**
   * Over distinct items, exactly one is highlighted when the active id is
   * among them, and none otherwise.
   */
  lemma {:induction false} HighlightCount(items: seq<string>, active: string)
    requires Distinct(items)
    ensures CountTrue(Highlights(items, active)) == if active in items then 1 else 0
  {
    if items != [] {
      var h := Highlights(items, active);
      assert h[1..] == Highlights(items[1..], active);
      assert Distinct(items[1..]) by {
        forall i, j | 0 <= i < j < |items[1..]|
          ensures items[1..][i] != items[1..][j]
        {
          assert items[1..][i] == items[i + 1] && items[1..][j] == items[j + 1];
        }
      }
      HighlightCount(items[1..], active);
      if items[0] == active {
        assert active !in items[1..] by {
          forall k | 0 <= k < |items[1..]|
            ensures items[1..][k] != active
          {
            assert items[1..][k] == items[k + 1];
          }
        }
      } else {
        assert active in items <==> active in items[1..] by {
          assert items == [items[0]] + items[1..];
        }
      }
    }
  }
}
