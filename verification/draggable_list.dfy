/**
 * DraggableListView: a list whose items can be dragged into a new order once it
 * is in the draggable state. The model keeps the view's own state machine, its
 * listener set, the adapter's data list and the default touch callback that
 * swaps and removes entries of that list. The RecyclerView is reduced to the
 * kind of layout manager it carries.
 */
module DraggableList {
  import opened Wrappers

  const STATE_NORMAL: int := 1
  const STATE_DRAGGABLE: int := 2

  const ITEM_STYLE_VERTICAL: int := 1
  const ITEM_STYLE_HORIZONTAL: int := 2
  const ITEM_STYLE_GRID: int := 3

  const DEFAULT_SPAN_COUNT: int := 4

  // ---------------------------------------------------------------- list mutations

  /** Collections.swap on a list: the entries at i and j trade places. */
  function Swapped<T>(s: seq<T>, i: nat, j: nat): (r: seq<T>)
    requires i < |s| && j < |s|
    ensures |r| == |s|
    ensures r[i] == s[j] && r[j] == s[i]
    ensures forall k :: 0 <= k < |s| && k != i && k != j ==> r[k] == s[k]
  {
    s[i := s[j]][j := s[i]]
  }

  /** List.remove(int): the entry at k goes and the later ones move up by one. */
  function RemovedAt<T>(s: seq<T>, k: nat): (r: seq<T>)
    requires k < |s|
    ensures |r| == |s| - 1
    ensures forall m :: 0 <= m < k ==> r[m] == s[m]
    ensures forall m :: k <= m < |r| ==> r[m] == s[m + 1]
  {
    s[..k] + s[k + 1..]
  }

  /** A swap reorders the list: the same entries, each as often as before. */
  lemma SwappedIsPermutation<T>(s: seq<T>, i: nat, j: nat)
    requires i < |s| && j < |s|
    ensures multiset(Swapped(s, i, j)) == multiset(s)
  {
    var t := s[i := s[j]];
    assert multiset(t) == multiset(s) - multiset{s[i]} + multiset{s[j]};
    assert multiset(t[j := s[i]]) == multiset(t) - multiset{t[j]} + multiset{s[i]};
  }

  /** Moving an item back where it came from restores the list. */
  lemma SwappedInvolution<T>(s: seq<T>, i: nat, j: nat)
    requires i < |s| && j < |s|
    ensures Swapped(Swapped(s, i, j), i, j) == s
  {
    var r := Swapped(Swapped(s, i, j), i, j);
    assert forall k :: 0 <= k < |s| ==> r[k] == s[k];
  }

  /** A removal drops exactly the swiped entry and keeps all the others. */
  lemma RemovedAtMultiset<T>(s: seq<T>, k: nat)
    requires k < |s|
    ensures multiset(RemovedAt(s, k)) + multiset{s[k]} == multiset(s)
  {
    assert s == s[..k] + [s[k]] + s[k + 1..];
  }

  // ---------------------------------------------------------------- adapter

  /** The data adapter. `getColumnNum` and `enableSwipeDrop` are overridable; their
      results are fixed when the adapter is made, with the base class's defaults. */
  class Adapter<T> {
    /** mDataList, possibly null; the touch callback mutates it in place. */
    var dataList: Option<seq<T>>
    const columnNum: int
    const swipeDrop: bool

    constructor(data: Option<seq<T>>, columns: int := DEFAULT_SPAN_COUNT, swipe: bool := false)
      ensures dataList == data && columnNum == columns && swipeDrop == swipe
    {
      dataList := data;
      columnNum := columns;
      swipeDrop := swipe;
    }

    /** getItemCount: the size of the list, 0 for a null list. */
    function ItemCount(): (n: nat)
      reads this
      ensures dataList.None? ==> n == 0
      ensures dataList.Some? ==> n == |dataList.value|
    {
      match dataList
      case None => 0
      case Some(s) => |s|
    }
  }

  // ---------------------------------------------------------------- movement flags

  /** The direction bits of ItemTouchHelper. */
  const UP: bv32 := 1
  const DOWN: bv32 := 2
  const LEFT: bv32 := 4
  const RIGHT: bv32 := 8

  /** The orientations of LinearLayoutManager. */
  const HORIZONTAL: int := 0
  const VERTICAL: int := 1

  /** The layout manager a RecyclerView carries; a GridLayoutManager is also a
      LinearLayoutManager, so it is tested first. */
  datatype LayoutKind = Grid(spanCount: int) | Linear(orientation: int) | NoLayout

  /** Drag and swipe directions, before makeMovementFlags packs them. */
  datatype Flags = Flags(drag: bv32, swipe: bv32)

  predicate Allows(flags: bv32, direction: bv32) {
    flags & direction != 0
  }

  /** getMovementFlags: every direction on a grid, up and down on a vertical list,
      left and right on a horizontal one, none otherwise; swiping the same as dragging. */
  function MovementFlags(layout: LayoutKind): (f: Flags)
    ensures f.swipe == f.drag
    ensures Allows(f.drag, UP) <==> layout.Grid? || layout == Linear(VERTICAL)
    ensures Allows(f.drag, DOWN) <==> layout.Grid? || layout == Linear(VERTICAL)
    ensures Allows(f.drag, LEFT) <==> layout.Grid? || layout == Linear(HORIZONTAL)
    ensures Allows(f.drag, RIGHT) <==> layout.Grid? || layout == Linear(HORIZONTAL)
    ensures f.drag & !(UP | DOWN | LEFT | RIGHT) == 0
  {
    match layout
    case Grid(_) => Flags(LEFT | UP | RIGHT | DOWN, LEFT | UP | RIGHT | DOWN)
    case Linear(orientation) =>
      if orientation == VERTICAL then Flags(UP | DOWN, UP | DOWN)
      else if orientation == HORIZONTAL then Flags(LEFT | RIGHT, LEFT | RIGHT)
      else Flags(0, 0)
    case NoLayout => Flags(0, 0)
  }

  /** initRecyclerView: the layout manager an item style asks for; an unknown style
      leaves the list without one. */
  function LayoutFor(style: int, columns: int): (k: LayoutKind)
    ensures k.Grid? <==> style == ITEM_STYLE_GRID
    ensures k.Grid? ==> k.spanCount == columns
    ensures k.Linear? <==> style == ITEM_STYLE_VERTICAL || style == ITEM_STYLE_HORIZONTAL
    ensures k.Linear? ==> (k.orientation == VERTICAL <==> style == ITEM_STYLE_VERTICAL)
    ensures k.Linear? ==> (k.orientation == HORIZONTAL <==> style == ITEM_STYLE_HORIZONTAL)
  {
    if style == ITEM_STYLE_VERTICAL then Linear(VERTICAL)
    else if style == ITEM_STYLE_HORIZONTAL then Linear(HORIZONTAL)
    else if style == ITEM_STYLE_GRID then Grid(columns)
    else NoLayout
  }

  /** What an item style lets the user drag: vertical lists move items up and down
      only, horizontal lists left and right only, grids every way, anything else not at all. */
  lemma {:induction false} StyleDirections(style: int, columns: int)
    ensures var f := MovementFlags(LayoutFor(style, columns));
      && (Allows(f.drag, UP) <==> style == ITEM_STYLE_VERTICAL || style == ITEM_STYLE_GRID)
      && (Allows(f.drag, LEFT) <==> style == ITEM_STYLE_HORIZONTAL || style == ITEM_STYLE_GRID)
      && (f.drag == 0 <==> style !in {ITEM_STYLE_VERTICAL, ITEM_STYLE_HORIZONTAL, ITEM_STYLE_GRID})
  {
    var k := LayoutFor(style, columns);
    var f := MovementFlags(k);
    if style == ITEM_STYLE_VERTICAL || style == ITEM_STYLE_HORIZONTAL || style == ITEM_STYLE_GRID {
      assert Allows(f.drag, UP) || Allows(f.drag, LEFT);
    }
  }

  // ---------------------------------------------------------------- touch callback

  /** The exceptions the list operations raise. */
  datatype ListError = NullList | IndexOutOfBounds(index: int)

  /** DefaultItemTouchCallBack: drags reorder the adapter's list, swipes remove from it. */
  class DefaultItemTouchCallBack<T> {
    const adapter: Adapter<T>

    constructor(a: Adapter<T>)
      ensures adapter == a
      ensures !LongPressDragEnabled() && ItemViewSwipeEnabled() == a.swipeDrop
    {
      adapter := a;
    }

    /** isLongPressDragEnabled: drags start only from the list's own listeners. */
    function LongPressDragEnabled(): (enabled: bool)
      ensures !enabled
    {
      false
    }

    /** isItemViewSwipeEnabled: as the adapter's enableSwipeDrop says. */
    function ItemViewSwipeEnabled(): (enabled: bool)
      reads this
      ensures enabled <==> adapter.swipeDrop
    {
      adapter.swipeDrop
    }

    /** onMove: swap the entries at the two adapter positions and report true. A null
        list or a position outside it throws before anything is written. */
    method OnMove(from: int, to: int) returns (r: Result<bool, ListError>)
      modifies adapter
      ensures old(adapter.dataList).None? ==> r == Err(NullList) && unchanged(adapter)
      ensures old(adapter.dataList).Some? && !(0 <= from < |old(adapter.dataList).value|) ==>
        r == Err(IndexOutOfBounds(from)) && unchanged(adapter)
      ensures (old(adapter.dataList).Some? && 0 <= from < |old(adapter.dataList).value|
               && !(0 <= to < |old(adapter.dataList).value|)) ==>
        r == Err(IndexOutOfBounds(to)) && unchanged(adapter)
      ensures r.Ok? ==> r.value
      ensures r.Ok? <==> (old(adapter.dataList).Some? && 0 <= from < |old(adapter.dataList).value|
                          && 0 <= to < |old(adapter.dataList).value|)
      ensures r.Ok? ==> adapter.dataList == Some(Swapped(old(adapter.dataList).value, from, to))
    {
      match adapter.dataList {
        case None =>
          r := Err(NullList);
        case Some(s) =>
          if !(0 <= from < |s|) {
            r := Err(IndexOutOfBounds(from));
          } else if !(0 <= to < |s|) {
            r := Err(IndexOutOfBounds(to));
          } else {
            adapter.dataList := Some(Swapped(s, from, to));
            r := Ok(true);
          }
      }
    }

    /** onSwiped: remove the entry at the swiped position; a null list is left
        alone, and a position outside the list throws without a change. */
    method OnSwiped(pos: int) returns (r: Outcome<ListError>)
      modifies adapter
      ensures old(adapter.dataList).None? ==> r == Pass && unchanged(adapter)
      ensures r.Fail? <==> old(adapter.dataList).Some? && !(0 <= pos < |old(adapter.dataList).value|)
      ensures r.Fail? ==> r.error == IndexOutOfBounds(pos) && unchanged(adapter)
      ensures old(adapter.dataList).Some? && r.Pass? ==>
        adapter.dataList == Some(RemovedAt(old(adapter.dataList).value, pos))
        && adapter.ItemCount() == old(adapter.ItemCount()) - 1
    {
      match adapter.dataList {
        case None =>
          r := Pass;
        case Some(s) =>
          if 0 <= pos < |s| {
            adapter.dataList := Some(RemovedAt(s, pos));
            r := Pass;
          } else {
            r := Fail(IndexOutOfBounds(pos));
          }
      }
    }
  }

  // ---------------------------------------------------------------- the view

  /** An OnStateChangedListener, by identity. */
  datatype Listener = Listener(id: nat)

  /** One onStateChanged(curState) call on a listener. */
  datatype Notice = Notice(listener: Listener, state: int)

  /** One Adapter.onStateChanged(view, item, position, curState) call. */
  datatype ItemNotice<T> = ItemNotice(position: nat, item: T, state: int)

  /** The listeners of a possibly not yet created set. */
  function ListenersOf(ls: Option<set<Listener>>): set<Listener> {
    match ls
    case None => {}
    case Some(s) => s
  }

  /** Each listener of `ls` told `state` exactly once, in some order. */
  predicate EachNotifiedOnce(log: seq<Notice>, ls: set<Listener>, state: int) {
    && |log| == |ls|
    && (forall k :: 0 <= k < |log| ==> log[k].listener in ls && log[k].state == state)
    && (forall k, m :: 0 <= k < m < |log| ==> log[k].listener != log[m].listener)
  }

  /** The adapter hook run for every item, in position order. */
  function ItemNotices<T>(items: seq<T>, state: int): (r: seq<ItemNotice<T>>)
    ensures |r| == |items|
    ensures forall i :: 0 <= i < |items| ==> r[i] == ItemNotice(i, items[i], state)
  {
    seq(|items|, i requires 0 <= i < |items| => ItemNotice(i, items[i], state))
  }

  function AdapterItems<T>(a: Adapter?<T>): seq<T>
    reads a
  {
    if a == null || a.dataList.None? then [] else a.dataList.value
  }

  class DraggableListView<T> {
    /** mCurState */
    var state: int
    /** mItemStyle */
    var itemStyle: int
    /** mStateChangedListeners, created by the first addOnStateChangedListener. */
    var listeners: Option<set<Listener>>
    var adapter: Adapter?<T>
    /** mCallBack; the ItemTouchHelper exists exactly when it is set. */
    var callback: DefaultItemTouchCallBack?<T>
    /** The RecyclerView's layout manager. */
    var layout: LayoutKind
    /** Every listener call and every adapter hook call made so far. */
    var notices: seq<Notice>
    var itemNotices: seq<ItemNotice<T>>

    /** init: the `style` attribute (VERTICAL when absent), the NORMAL state. */
    constructor(styleAttr: Option<int>)
      ensures state == STATE_NORMAL
      ensures itemStyle == (if styleAttr.Some? then styleAttr.value else ITEM_STYLE_VERTICAL)
      ensures listeners.None? && adapter == null && callback == null && layout == NoLayout
      ensures notices == [] && itemNotices == []
    {
      state := STATE_NORMAL;
      itemStyle := if styleAttr.Some? then styleAttr.value else ITEM_STYLE_VERTICAL;
      listeners := None;
      adapter := null;
      callback := null;
      layout := NoLayout;
      notices := [];
      itemNotices := [];
    }

    /** getState */
    function GetState(): (s: int)
      reads this
      ensures s == state
    {
      state
    }

    /** Everything notifyStateChanged leaves alone stayed as it was. */
    twostate predicate OnlyLogsChanged()
      reads this
    {
      && listeners == old(listeners) && adapter == old(adapter) && callback == old(callback)
      && layout == old(layout) && itemStyle == old(itemStyle)
    }

    /** The calls notifyStateChanged(s) adds: every listener once, then the
        adapter hook for every item. */
    twostate predicate NotifiedOf(s: int)
      reads this, adapter
    {
      && |old(notices)| <= |notices| && notices[..|old(notices)|] == old(notices)
      && EachNotifiedOnce(notices[|old(notices)|..], ListenersOf(listeners), s)
      && itemNotices == old(itemNotices) + ItemNotices(AdapterItems(adapter), s)
    }

    /** notifyStateChanged: the listener set in its (unspecified) iteration order,
        then Adapter.onStateChanged for each position below getItemCount. */
    method NotifyStateChanged(s: int)
      modifies this
      ensures OnlyLogsChanged() && state == old(state)
      ensures NotifiedOf(s)
    {
      var ls := ListenersOf(listeners);
      var remaining := ls;
      ghost var start := |notices|;
      while remaining != {}
        invariant state == old(state) && OnlyLogsChanged()
        invariant itemNotices == old(itemNotices)
        invariant remaining <= ls && start == |old(notices)| <= |notices|
        invariant notices[..start] == old(notices)
        invariant |notices| - start + |remaining| == |ls|
        invariant forall k :: start <= k < |notices| ==>
          notices[k].listener in ls - remaining && notices[k].state == s
        invariant forall k, m :: start <= k < m < |notices| ==> notices[k].listener != notices[m].listener
        decreases |remaining|
      {
        var l :| l in remaining;
        notices := notices + [Notice(l, s)];
        remaining := remaining - {l};
      }
      assert EachNotifiedOnce(notices[start..], ls, s);
      if adapter != null {
        var count := adapter.ItemCount();
        var i := 0;
        while i < count
          invariant 0 <= i <= count == |AdapterItems(adapter)|
          invariant state == old(state) && OnlyLogsChanged()
          invariant start <= |notices| && notices[..start] == old(notices) && EachNotifiedOnce(notices[start..], ls, s)
          invariant itemNotices == old(itemNotices) + ItemNotices(AdapterItems(adapter)[..i], s)
        {
          var items := adapter.dataList.value;
          assert ItemNotices(items[..i + 1], s) == ItemNotices(items[..i], s) + [ItemNotice(i, items[i], s)];
          itemNotices := itemNotices + [ItemNotice(i, items[i], s)];
          i := i + 1;
        }
        assert AdapterItems(adapter)[..i] == AdapterItems(adapter);
      }
    }

    /** setState: a new state is stored and announced; the current one changes nothing. */
    method SetState(s: int)
      modifies this
      ensures GetState() == s && OnlyLogsChanged()
      ensures old(state) == s ==> notices == old(notices) && itemNotices == old(itemNotices)
      ensures old(state) != s ==> NotifiedOf(s)
    {
      if state != s {
        state := s;
        NotifyStateChanged(s);
      }
    }

    /** The long-click listener setAdapter installs on an item: the list becomes
        draggable and announces it, whether or not it already was. */
    method OnItemLongClick()
      requires adapter != null
      modifies this
      ensures GetState() == STATE_DRAGGABLE && OnlyLogsChanged()
      ensures NotifiedOf(STATE_DRAGGABLE)
    {
      state := STATE_DRAGGABLE;
      NotifyStateChanged(state);
    }

    /** addOnStateChangedListener: creates the set on first use; null adds nothing,
        and a listener already there is not added twice. */
    method AddOnStateChangedListener(l: Option<Listener>)
      modifies this
      ensures listeners.Some?
      ensures l.None? ==> ListenersOf(listeners) == ListenersOf(old(listeners))
      ensures l.Some? ==> ListenersOf(listeners) == ListenersOf(old(listeners)) + {l.value}
      ensures l.Some? && l.value in ListenersOf(old(listeners)) ==> |ListenersOf(listeners)| == |ListenersOf(old(listeners))|
      ensures state == old(state) && adapter == old(adapter) && callback == old(callback)
      ensures layout == old(layout) && itemStyle == old(itemStyle)
      ensures notices == old(notices) && itemNotices == old(itemNotices)
    {
      if listeners.None? {
        listeners := Some({});
      }
      if l.Some? {
        if l.value in listeners.value {
          assert listeners.value + {l.value} == listeners.value;
        }
        listeners := Some(listeners.value + {l.value});
      }
    }

    /** setItemStyle: takes effect at the next setAdapter. */
    method SetItemStyle(style: int)
      modifies this
      ensures itemStyle == style
      ensures state == old(state) && listeners == old(listeners) && adapter == old(adapter)
      ensures callback == old(callback) && layout == old(layout)
      ensures notices == old(notices) && itemNotices == old(itemNotices)
    {
      itemStyle := style;
    }

    /** setItemTouchDragCallBack: null is ignored, anything else replaces the callback. */
    method SetItemTouchDragCallBack(cb: DefaultItemTouchCallBack?<T>)
      modifies this
      ensures callback == if cb == null then old(callback) else cb
      ensures state == old(state) && listeners == old(listeners) && adapter == old(adapter)
      ensures itemStyle == old(itemStyle) && layout == old(layout)
      ensures notices == old(notices) && itemNotices == old(itemNotices)
    {
      if cb != null {
        callback := cb;
      }
    }

    /** setAdapter: null is ignored. Otherwise the adapter is stored, the layout
        manager follows the item style, and the default callback is made for this
        adapter only when no callback exists yet. */
    method SetAdapter(a: Adapter?<T>)
      modifies this
      ensures a == null ==> adapter == old(adapter) && callback == old(callback) && layout == old(layout)
      ensures a != null ==> adapter == a && layout == LayoutFor(itemStyle, a.columnNum)
      ensures a != null && old(callback) == null ==> callback != null && fresh(callback) && callback.adapter == a
      ensures old(callback) != null ==> callback == old(callback)
      ensures state == old(state) && listeners == old(listeners) && itemStyle == old(itemStyle)
      ensures notices == old(notices) && itemNotices == old(itemNotices)
    {
      if a == null {
        return;
      }
      adapter := a;
      layout := LayoutFor(itemStyle, a.columnNum);
      if callback == null {
        var cb := new DefaultItemTouchCallBack(a);
        SetItemTouchDragCallBack(cb);
      }
    }

    /** getDataList: the adapter's live list, null without an adapter. */
    function GetDataList(): (r: Option<seq<T>>)
      reads this, adapter
      ensures r.None? <==> adapter == null || adapter.dataList.None?
      ensures adapter != null ==> r == adapter.dataList
      ensures r.Some? ==> |r.value| == adapter.ItemCount()
    {
      if adapter == null then None else adapter.dataList
    }
  }
}
