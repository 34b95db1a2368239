/**
 * The list widget of the terminal UI library, abstracted as its items and a
 * cursor. Assumptions of the abstraction (library behaviour, not code of
 * this repository): navigation wraps around because every list is created
 * with infinite scrolling; replacing the items keeps the cursor when it
 * still points at an item and otherwise moves it to the last item.
 */
module ListWidget {
  import opened Wrappers
  import opened Messages

  datatype List<T> = List(items: seq<T>, cursor: nat) {

    /** The cursor points at an item, or the list is empty and the cursor is 0. */
    ghost predicate Valid() {
      if |items| == 0 then cursor == 0 else cursor < |items|
    }

    /** SelectedItem: the highlighted item, nil when there is none. */
    function Selected(): (r: Option<T>)
      ensures r.Some? ==> cursor < |items| && r.value == items[cursor]
      ensures Valid() ==> (r.None? <==> |items| == 0)
    {
      if cursor < |items| then Some(items[cursor]) else None
    }

    /** Moves the highlight one item down, from the last item to the first. */
    function CursorDown(): (r: List<T>)
      ensures r.items == items && r.Valid()
    {
      if |items| == 0 then List(items, 0)
      else if cursor + 1 < |items| then List(items, cursor + 1)
      else List(items, 0)
    }

    /** Moves the highlight one item up, from the first item to the last. */
    function CursorUp(): (r: List<T>)
      ensures r.items == items && r.Valid()
    {
      if |items| == 0 then List(items, 0)
      else if 0 < cursor < |items| then List(items, cursor - 1)
      else List(items, |items| - 1)
    }

    /** SetItems: replaces the whole collection. */
    function SetItems(newItems: seq<T>): (r: List<T>)
      ensures r.items == newItems && r.Valid()
      ensures Valid() && cursor < |newItems| ==> r.cursor == cursor
    {
      List(newItems, if cursor < |newItems| then cursor else if |newItems| == 0 then 0 else |newItems| - 1)
    }

    /** The list's own key handling, for the keys the panes forward to it. */
    function Update(key: Key): (r: List<T>)
      ensures r.items == items
      ensures Valid() ==> r.Valid()
      ensures key != Up && key != Down ==> r == this
    {
      if key == Up then CursorUp() else if key == Down then CursorDown() else this
    }

    /** ResetSelected: highlights the first item. */
    function ResetSelected(): (r: List<T>)
      ensures r.items == items && r.cursor == 0
      ensures Valid() ==> r.Valid()
    {
      List(items, 0)
    }
  }

  /** A new list: no items. */
  function Empty<T>(): (l: List<T>)
    ensures l.Valid() && l.Selected().None?
  {
    List([], 0)
  }

  /** Down on the last item wraps to the first. */
  lemma DownWrapsToFirst<T>(l: List<T>)
    requires l.Valid() && |l.items| > 0 && l.cursor == |l.items| - 1
    ensures l.CursorDown().cursor == 0
  {
  }

  /** Up on the first item wraps to the last. */
  lemma UpWrapsToLast<T>(l: List<T>)
    requires |l.items| > 0 && l.cursor == 0
    ensures l.CursorUp().cursor == |l.items| - 1
  {
  }

  /** Up undoes Down and Down undoes Up. */
  lemma UpDownInverse<T>(l: List<T>)
    requires l.Valid()
    ensures l.CursorDown().CursorUp() == l
    ensures l.CursorUp().CursorDown() == l
  {
  }

  /** `n` presses of Down. */
  function DownTimes<T>(l: List<T>, n: nat): List<T> {
    if n == 0 then l else DownTimes(l, n - 1).CursorDown()
  }

  /** After k presses of Down, k at most the length, the cursor has advanced by k, wrapping once. */
  lemma {:induction false} DownTimesCursor<T>(l: List<T>, k: nat)
    requires l.Valid() && k <= |l.items|
    ensures DownTimes(l, k).items == l.items
    ensures DownTimes(l, k).cursor ==
      if l.cursor + k < |l.items| then l.cursor + k else l.cursor + k - |l.items|
  {
    if k > 0 {
      DownTimesCursor(l, k - 1);
    }
  }

  /** Pressing Down once per item goes all the way round. */
  lemma DownFullCircle<T>(l: List<T>)
    requires l.Valid()
    ensures DownTimes(l, |l.items|) == l
  {
    DownTimesCursor(l, |l.items|);
  }
}
