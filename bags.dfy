/** Expressions over the bag list: creation, lookup, opening and reset. */
module Bags {

  import opened Types

  /** Bag `i` of the list has id `i`, and it is opened exactly when it holds content. */
  ghost predicate WellFormed(bags: seq<Bag>) {
    forall i :: 0 <= i < |bags| ==>
      bags[i].id == i && (bags[i].isOpened <==> bags[i].content.Some?)
  }

  /** The bags the mount effect creates (App.tsx:21-27): one closed, empty bag per index. */
  function InitialBags(): (bags: seq<Bag>)
    ensures |bags| == InitialBagsCount && WellFormed(bags)
    ensures forall i :: 0 <= i < |bags| ==> !bags[i].isOpened
  {
    seq(InitialBagsCount, i => Bag(i, false, None))
  }

  /** The lookup in the guard of App.tsx:42: the first bag with that id, if any. */
  function FindBag(bags: seq<Bag>, id: int): (r: Option<Bag>)
    ensures r.None? <==> forall i :: 0 <= i < |bags| ==> bags[i].id != id
    ensures r.Some? ==> exists i :: (0 <= i < |bags| && bags[i] == r.value && bags[i].id == id &&
                                     forall j :: 0 <= j < i ==> bags[j].id != id)
  {
    if bags == [] then None
    else if bags[0].id == id then Some(bags[0])
    else
      var r := FindBag(bags[1..], id);
      assert r.Some? ==> exists i :: (1 <= i < |bags| && bags[i] == r.value && bags[i].id == id &&
                                      forall j :: 0 <= j < i ==> bags[j].id != id);
      r
  }

  /**
   * The guard of `openBag`: it refuses while another bag is opening, or when
   * the first bag with that id is already opened. A missing id is not refused.
   */
  function OpenRefused(isOpening: bool, bags: seq<Bag>, id: int): bool {
    isOpening || (FindBag(bags, id).Some? && FindBag(bags, id).value.isOpened)
  }

  /** On a well-formed list the guard refuses exactly a busy widget or an opened bag. */
  lemma RefusedOnWellFormed(isOpening: bool, bags: seq<Bag>, id: int)
    requires WellFormed(bags)
    ensures OpenRefused(isOpening, bags, id) <==> isOpening || (0 <= id < |bags| && bags[id].isOpened)
  {
    if 0 <= id < |bags| {
      assert bags[id].id == id;
    }
  }

  /**
   * The update of App.tsx:55: every bag with that id is opened with content
   * `s`; every other bag is kept as it is.
   */
  function MarkOpened(bags: seq<Bag>, id: int, s: Session): (r: seq<Bag>)
    ensures |r| == |bags|
    ensures forall i :: 0 <= i < |bags| && bags[i].id == id ==>
      r[i].id == id && r[i].isOpened && r[i].content == Some(s)
    ensures forall i :: 0 <= i < |bags| && bags[i].id != id ==> r[i] == bags[i]
  {
    seq(|bags|, i requires 0 <= i < |bags| =>
      if bags[i].id == id then bags[i].(isOpened := true, content := Some(s)) else bags[i])
  }

  /** The update of App.tsx:65: every bag keeps its id and becomes closed and empty. */
  function ClearBags(bags: seq<Bag>): (r: seq<Bag>)
    ensures |r| == |bags|
    ensures forall i :: 0 <= i < |bags| ==> r[i].id == bags[i].id && !r[i].isOpened && r[i].content.None?
  {
    seq(|bags|, i requires 0 <= i < |bags| => bags[i].(isOpened := false, content := None))
  }

  /** Opening keeps the list well formed, and an id outside it changes nothing. */
  lemma MarkOpenedWellFormed(bags: seq<Bag>, id: int, s: Session)
    requires WellFormed(bags)
    ensures WellFormed(MarkOpened(bags, id, s))
    ensures !(0 <= id < |bags|) ==> MarkOpened(bags, id, s) == bags
  {
  }

  /** Reset yields the freshly created list whenever the ids are 0..11. */
  lemma ClearBagsIsInitial(bags: seq<Bag>)
    requires WellFormed(bags) && |bags| == InitialBagsCount
    ensures ClearBags(bags) == InitialBags()
  {
  }
}
