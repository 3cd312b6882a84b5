/** The wearable layout: one module shown at a time, chosen by a carousel
    index that buttons and swipes move. */
module WearableView {

  /** The modules of the carousel, in order. */
  datatype Panel = DistancePanel | TimePanel | RoutePanel

  const Modules: seq<Panel> := [DistancePanel, TimePanel, RoutePanel]

  /** Smallest horizontal travel, in pixels, that counts as a swipe. */
  const SwipeThreshold: real := 50.0

  /** The index after "previous": wraps from the first module to the last. */
  function PrevIndex(prev: int): (r: int)
    ensures 0 <= prev < |Modules| ==> r == (prev + |Modules| - 1) % |Modules|
  {
    if prev == 0 then |Modules| - 1 else prev - 1
  }

  /** The index after "next": wraps from the last module to the first. */
  function NextIndex(prev: int): (r: int)
    ensures 0 <= prev < |Modules| ==> r == (prev + 1) % |Modules|
  {
    if prev == |Modules| - 1 then 0 else prev + 1
  }

  /** Both moves stay on a valid index, and they wrap at the ends. */
  lemma NavigationInRange(i: int)
    requires 0 <= i < |Modules|
    ensures 0 <= PrevIndex(i) < |Modules| && 0 <= NextIndex(i) < |Modules|
    ensures PrevIndex(0) == 2 && NextIndex(2) == 0
  {
  }

  /** "next" then "previous", or the other way round, changes nothing, and
      three "next" moves go all the way round. */
  lemma NavigationInverse(i: int)
    requires 0 <= i < |Modules|
    ensures PrevIndex(NextIndex(i)) == i && NextIndex(PrevIndex(i)) == i
    ensures NextIndex(NextIndex(NextIndex(i))) == i
  {
  }

  /** The modules the view renders for an index: one conditional per
      module. At most one is rendered, and none for an index outside the
      carousel. */
  function Rendered(activeModule: int): (r: seq<Panel>)
    ensures |r| <= 1
    ensures !(0 <= activeModule < |Modules|) ==> r == []
  {
    (if activeModule == 0 then [DistancePanel] else [])
    + (if activeModule == 1 then [TimePanel] else [])
    + (if activeModule == 2 then [RoutePanel] else [])
  }

  /** For every valid index exactly one module is rendered: the one at that
      position of the carousel. */
  lemma ExactlyOneRendered(i: int)
    requires 0 <= i < |Modules|
    ensures Rendered(i) == [Modules[i]]
  {
  }

  /** The carousel state of the view. */
  class Carousel {
    var activeModule: int

    ghost predicate Valid()
      reads this
    {
      0 <= activeModule < |Modules|
    }

    constructor ()
      ensures Valid() && activeModule == 0
    {
      activeModule := 0;
    }

    method NavigatePrev()
      requires Valid()
      modifies this
      ensures Valid() && activeModule == PrevIndex(old(activeModule))
    {
      activeModule := if activeModule == 0 then |Modules| - 1 else activeModule - 1;
    }

    method NavigateNext()
      requires Valid()
      modifies this
      ensures Valid() && activeModule == NextIndex(old(activeModule))
    {
      activeModule := if activeModule == |Modules| - 1 then 0 else activeModule + 1;
    }

    /** End of a touch that started at `touchStart`: a leftward travel of
        more than the threshold moves to the next module, a rightward one
        to the previous module, anything shorter does nothing. */
    method HandleSwipe(touchStart: real, touchEnd: real)
      requires Valid()
      modifies this
      ensures Valid()
      ensures touchStart - touchEnd > SwipeThreshold ==> activeModule == NextIndex(old(activeModule))
      ensures touchStart - touchEnd < -SwipeThreshold ==> activeModule == PrevIndex(old(activeModule))
      ensures -SwipeThreshold <= touchStart - touchEnd <= SwipeThreshold ==> activeModule == old(activeModule)
    {
      var diff := touchStart - touchEnd;
      if diff > SwipeThreshold {
        NavigateNext();
      } else if diff < -SwipeThreshold {
        NavigatePrev();
      }
    }
  }
}
