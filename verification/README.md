# FastDevelop guide queue, spotlight view, helpers and draggable list — a Dafny model

This project models four pieces of the FastDevelop Android utility collection and proves properties of them.

- **The guide queue controller** (`UserGuideLayout`), in `guide_layout.dfy`.
  - It keeps a FIFO queue of guide requests. A request is either a registered guide type, or a target view with a caption.
  - While the layout is hidden it pops and activates the head of the queue.
  - Every request whose class already has its persisted "user_guide_" flag set is skipped unseen.
  - Activating a request sets its flag, hides every child view and shows the request's view.
  - `dismissGuide` cancels one queued request or all of them.
  - The guide type registry (`GuideTypeProvider`) is modelled too.
  - The preference store is a `map<string, bool>` field of the layout.
- **The spotlight overlay** (`UserGuideView`), in `guide_view.dfy`.
  - Its show/dismiss state is a class.
  - The geometry of one frame is pure integer functions: the rectangle `drawDashed` returns (called the outline below), its screen quadrant, the arrow box with its flip, and the caption anchor.
- **The extension helpers** (`Common_ext.kt`), in `common_ext.dfy`:
  - `setVisible` and `isVisible`;
  - `toDoubleFormatStr`;
  - `toIntSafe`, with Integer.parseInt's grammar and Int range;
  - `toKeyValueString`, written as a loop over the extras.
- **The draggable list** (`DraggableListView`), in `draggable_list.dfy`.
  - It is a NORMAL/DRAGGABLE state machine with change-only notification and a lazily created listener set.
  - The adapter's data list is a field that the default touch callback swaps and removes in place, with the exceptions those operations raise.
  - The movement flags are chosen from an abstract layout-manager kind.

Two small shared files hold the rest:

- `wrappers.dfy` has the Option, Result and Outcome values that stand for null and for exceptions.
- `platform.dfy` has the Android stand-ins: classes with their canonical names, view identities, and the visibility constants.

The integer widths of the source are modelled where they decide an outcome. Parsing rejects anything outside the 32-bit Int range. Kotlin's `Int / 2` and `Float.toInt()` truncate toward zero, which `GuideView.Half` writes out.

Two consequences of the code are easy to misread, and the model states both:

- **A centre exactly on both screen midpoints.** One might expect the bottom-right quadrant. The strict `>` tests in `drawArrowBitmap` give left-top, quadrant 2 (`GuideView.QuadrantAtMidpoint`).
- **Dismissing when nothing matches, or a second time.** These are not no-ops. Every `dismissGuide` call that leaves the queue empty hides the layout and invokes the callback again, even when nothing matched (`GuideLayout.UserGuideLayout.DismissGuide`).

## Model

| member | source | states |
|---|---|---|
| CommonExt.IsVisible | kotlin_tools/src/main/java/com/hua/kotlin_tools/Common_ext.kt:34-36 | VISIBLE reads as visible; GONE and INVISIBLE both read as not visible |
| CommonExt.VisibilityFor | kotlin_tools/src/main/java/com/hua/kotlin_tools/Common_ext.kt:30-36 | setVisible writes VISIBLE or GONE, never INVISIBLE, and isVisible of the result is exactly the argument |
| CommonExt.NatToString | kotlin_tools/src/main/java/com/hua/kotlin_tools/Common_ext.kt:39 | the decimal text of a natural number: non-empty, digits only, a leading '0' only for zero itself, two or more characters exactly from 10 up |
| CommonExt.IntToString | kotlin_tools/src/main/java/com/hua/kotlin_tools/Common_ext.kt:39 | Int string templating: a '-' exactly for negatives, followed by the magnitude's decimal text; non-negatives are their plain decimal text |
| CommonExt.NatToStringValue | kotlin_tools/src/main/java/com/hua/kotlin_tools/Common_ext.kt:39 | the decimal text of a natural number reads back as that number |
| CommonExt.ToDoubleFormatStr | kotlin_tools/src/main/java/com/hua/kotlin_tools/Common_ext.kt:38-40 | at least two characters; 0..9 become "0" plus the digit; values from 10 up are their plain decimal text with no leading zero; a negative is "0-" followed by its magnitude's decimal text |
| CommonExt.ParseInt | kotlin_tools/src/main/java/com/hua/kotlin_tools/Common_ext.kt:108-113 | text is accepted only as an optional sign followed by at least one decimal digit, with a value that fits an Int; conversely every such text whose value fits (digits alone, '+' then digits, '-' then digits) parses to exactly that value, and one out of range is rejected |
| CommonExt.ToIntSafe | kotlin_tools/src/main/java/com/hua/kotlin_tools/Common_ext.kt:108-113 | a null receiver gives the default; text that parses gives exactly its parsed value; text that does not parse gives the default; an Int default gives an Int |
| CommonExt.ParseIntToString | kotlin_tools/src/main/java/com/hua/kotlin_tools/Common_ext.kt:108-111 | parsing the decimal text of an integer gives it back exactly when it fits an Int, and fails otherwise |
| CommonExt.ToIntSafeRoundTrip | kotlin_tools/src/main/java/com/hua/kotlin_tools/Common_ext.kt:108-113 | toIntSafe of a well-formed Int's text is that Int; of a wider number, the default |
| CommonExt.ToIntSafeMalformed | kotlin_tools/src/main/java/com/hua/kotlin_tools/Common_ext.kt:108-113 | text with a non-digit after its first character always gives the default |
| CommonExt.LeadingZeroValue | kotlin_tools/src/main/java/com/hua/kotlin_tools/Common_ext.kt:108-111 | a leading '0' in front of digits keeps them digits and does not change their value |
| CommonExt.ParseIntLeadingZero | kotlin_tools/src/main/java/com/hua/kotlin_tools/Common_ext.kt:108-111 | "0" followed by digits parses exactly as the digits alone do |
| CommonExt.ParseIntPlusSign | kotlin_tools/src/main/java/com/hua/kotlin_tools/Common_ext.kt:108-111 | "+" followed by digits parses exactly as the digits alone do |
| CommonExt.DoubleFormatParses | kotlin_tools/src/main/java/com/hua/kotlin_tools/Common_ext.kt:38-40 | the zero-padded text of a non-negative Int parses back to it; the "0-" text of a negative one does not parse |
| CommonExt.EntriesTextAppend | kotlin_tools/src/main/java/com/hua/kotlin_tools/Common_ext.kt:101-103 | the text of two runs of extras is the two texts joined, with no separator |
| CommonExt.EntryInText | kotlin_tools/src/main/java/com/hua/kotlin_tools/Common_ext.kt:101-103 | every extra's key:value text sits between the texts of the extras before and after it |
| CommonExt.ToKeyValueString | kotlin_tools/src/main/java/com/hua/kotlin_tools/Common_ext.kt:98-106 | the loop builds "[" + every key:value in order + "]"; the result always starts with '[' and ends with ']', and is "[]" for a null intent or no extras |
| GuideView.Half | kotlin_tools/src/main/java/com/hua/kotlin_tools/view/UserGuideView.kt:236-237 | Int halving rounds toward zero on both signs |
| GuideView.Padding | kotlin_tools/src/main/java/com/hua/kotlin_tools/view/UserGuideView.kt:202 | the dashed padding when padding is enabled, and zero when it is not |
| GuideView.Outline | kotlin_tools/src/main/java/com/hua/kotlin_tools/view/UserGuideView.kt:202-226 | an unknown shape is an IllegalArgumentException; rect is the target inflated by the padding on every side; round is a square anchored at the target's top-left with side 2*(max(w/2, h/2) + padding) |
| GuideView.RectOutlineWithoutPadding | kotlin_tools/src/main/java/com/hua/kotlin_tools/view/UserGuideView.kt:202-221 | with padding disabled the rect outline equals the target's bounds |
| GuideView.RoundOutlineCoversTarget | kotlin_tools/src/main/java/com/hua/kotlin_tools/view/UserGuideView.kt:206-214 | the round outline's square reaches the target's far edges once there is padding, and misses them by at most one pixel without it |
| GuideView.Quadrant.Index | kotlin_tools/src/main/java/com/hua/kotlin_tools/view/UserGuideView.kt:242-254 | the quadrant numbers are 0..3; 0 and 1 are exactly the right-hand quadrants and 0 and 3 exactly the bottom ones |
| GuideView.Centre | kotlin_tools/src/main/java/com/hua/kotlin_tools/view/UserGuideView.kt:236-237 | each centre coordinate is within half a pixel of the true midpoint, on the side of zero (Int division truncates) |
| GuideView.QuadrantOf | kotlin_tools/src/main/java/com/hua/kotlin_tools/view/UserGuideView.kt:236-254 | right exactly when the outline centre is strictly past half the screen width; bottom exactly when it is strictly past half the height |
| GuideView.QuadrantAtMidpoint | kotlin_tools/src/main/java/com/hua/kotlin_tools/view/UserGuideView.kt:242-254 | a centre exactly on both midpoints is left-top (2); one pixel right and down is right-bottom (0) |
| GuideView.CentreShift | kotlin_tools/src/main/java/com/hua/kotlin_tools/view/UserGuideView.kt:236-237 | moving both edges by one moves the truncated centre by one, for non-negative edge sums |
| GuideView.ShippedQuadrant | kotlin_tools/src/main/java/com/hua/kotlin_tools/view/UserGuideView.kt:51-52 | with the never-assigned zero screen size, right and bottom mean only a positive centre coordinate |
| GuideView.ShippedQuadrantIgnoresScreen | kotlin_tools/src/main/java/com/hua/kotlin_tools/view/UserGuideView.kt:242-264 | a target near the top-left corner is taken for right-bottom, so its arrow is placed above the screen's top edge; with the real screen size it is left-top and the arrow goes below the outline |
| GuideView.ArrowFor | kotlin_tools/src/main/java/com/hua/kotlin_tools/view/UserGuideView.kt:256-303 | the arrow box is arrowWidth x arrowHeight and centred on the outline centre within one pixel; it sits arrowGap above the outline in quadrants 0 and 3 and below it in 1 and 2; the flip is identity, x-mirror, point-mirror or y-mirror for 0..3 |
| GuideView.CaptionFor | kotlin_tools/src/main/java/com/hua/kotlin_tools/view/UserGuideView.kt:319-352 | quadrants 0 and 1 anchor right-aligned text textGap left of the arrow; quadrants 2 and 3 anchor left-aligned text textGap right of it; the baseline is taken from the arrow's top in 0 and 3 and from its bottom in 1 and 2 |
| GuideView.AnnotationFacesCentre | kotlin_tools/src/main/java/com/hua/kotlin_tools/view/UserGuideView.kt:256-352 | with the real screen size the arrow never overlaps the rectangle drawDashed returns (below it in the upper half, above it in the lower half), and the caption never overlaps the arrow, running toward the screen's centre |
| GuideView.FrameFor | kotlin_tools/src/main/java/com/hua/kotlin_tools/view/UserGuideView.kt:154-187 | no target is an IllegalStateException; with a target, a bad shape is an IllegalArgumentException and a round or rect shape always draws, its outline being Outline of the target relative to the overlay; an empty text draws the outline only; otherwise the arrow is ArrowFor the outline's quadrant and the caption CaptionFor that arrow |
| GuideView.AfterShow | kotlin_tools/src/main/java/com/hua/kotlin_tools/view/UserGuideView.kt:70-89 | a new target takes the given text, shape and padding; the current target again keeps the old ones; the view always ends up visible with that target |
| GuideView.UserGuideView.constructor | kotlin_tools/src/main/java/com/hua/kotlin_tools/view/UserGuideView.kt:66-68 | a new view has no target, empty text, the round shape, padding on, and is GONE (init ends in dismiss) |
| GuideView.UserGuideView.Show | kotlin_tools/src/main/java/com/hua/kotlin_tools/view/UserGuideView.kt:70-89 | the new state is AfterShow of the old one |
| GuideView.UserGuideView.Dismiss | kotlin_tools/src/main/java/com/hua/kotlin_tools/view/UserGuideView.kt:91-94 | the view becomes GONE and the dismiss listener is invoked once if set; nothing else changes |
| GuideView.UserGuideView.OnSingleTapUp | kotlin_tools/src/main/java/com/hua/kotlin_tools/view/UserGuideView.kt:122-126 | a single tap dismisses the view and is consumed |
| GuideView.UserGuideView.SetDismissListener | kotlin_tools/src/main/java/com/hua/kotlin_tools/view/UserGuideView.kt:54 | only whether a listener is set changes |
| GuideView.UserGuideView.SetVisible | kotlin_tools/src/main/java/com/hua/kotlin_tools/Common_ext.kt:30-32 | only the visibility changes, to VISIBLE or GONE |
| GuideView.UserGuideView.Draw | kotlin_tools/src/main/java/com/hua/kotlin_tools/view/UserGuideView.kt:154-166 | onDraw computes one frame as FrameFor of the view's current target, text, shape and padding; no target is an IllegalStateException |
| GuideLayout.PrefKey | kotlin_tools/src/main/java/com/hua/kotlin_tools/view/UserGuideLayout.kt:155-160 | the key is "user_guide_" followed by the canonical name, or by "null" when the class has none |
| GuideLayout.StoredFlag | kotlin_tools/src/main/java/com/hua/kotlin_tools/view/UserGuideLayout.kt:83 | a stored flag reads as stored; an absent one reads as false, the default passed to getBoolean |
| GuideLayout.KeyOf | kotlin_tools/src/main/java/com/hua/kotlin_tools/view/UserGuideLayout.kt:81-110 | a by-type request is keyed by its type class, an ad-hoc one by its target view's class |
| GuideLayout.PrefKeyDistinguishes | kotlin_tools/src/main/java/com/hua/kotlin_tools/view/UserGuideLayout.kt:155-157 | different canonical names give different keys; all classes without one share a key |
| GuideLayout.Matches | kotlin_tools/src/main/java/com/hua/kotlin_tools/view/UserGuideLayout.kt:139-140 | a request matches a handle exactly when the handle is its target view (ad-hoc) or its type class (by type) |
| GuideLayout.RemoveFirstMatch | kotlin_tools/src/main/java/com/hua/kotlin_tools/view/UserGuideLayout.kt:136-144 | at most one request goes, and only one that was queued; the queue keeps its length exactly when no request matches |
| GuideLayout.RemoveFirstMatchNone | kotlin_tools/src/main/java/com/hua/kotlin_tools/view/UserGuideLayout.kt:136-144 | with no matching request the queue is unchanged |
| GuideLayout.RemoveFirstMatchAt | kotlin_tools/src/main/java/com/hua/kotlin_tools/view/UserGuideLayout.kt:136-144 | exactly the first matching request is removed and the rest stay in order |
| GuideLayout.CutOne | kotlin_tools/src/main/java/com/hua/kotlin_tools/view/UserGuideLayout.kt:141 | removing one request shortens the queue by one and loses only that request |
| GuideLayout.DropFirstMatch | kotlin_tools/src/main/java/com/hua/kotlin_tools/view/UserGuideLayout.kt:135-144 | the iterator loop removes the first request whose target view or type class is the handle: one entry shorter when one matches, unchanged when none does |
| GuideLayout.GuideTypeProvider.constructor | kotlin_tools/src/main/java/com/hua/kotlin_tools/view/UserGuideLayout.kt:173-175 | the registry starts empty |
| GuideLayout.GuideTypeProvider.AddGuideType | kotlin_tools/src/main/java/com/hua/kotlin_tools/view/UserGuideLayout.kt:177-179 | a type is registered, or replaced, under its own implementation class; every key stays its value's own class |
| GuideLayout.GuideTypeProvider.GetGuideType | kotlin_tools/src/main/java/com/hua/kotlin_tools/view/UserGuideLayout.kt:181-183 | a type is found exactly for a registered class, and it is that class's implementation |
| GuideLayout.NextActive | kotlin_tools/src/main/java/com/hua/kotlin_tools/view/UserGuideLayout.kt:66-114 | anything but running dry consumes at least one request; an activated request has its flag clear and, by type, a registered class; an unregistered report names a class with its flag clear that is not registered |
| GuideLayout.NextActiveExhausted | kotlin_tools/src/main/java/com/hua/kotlin_tools/view/UserGuideLayout.kt:66-114 | draining leaves nothing to activate exactly when every queued request already has its flag set (an absent flag reads as false) |
| GuideLayout.NextActiveIsFirstUnshown | kotlin_tools/src/main/java/com/hua/kotlin_tools/view/UserGuideLayout.kt:66-114 | when the k-th request is the first whose flag is clear, the k before it are dropped unseen; it is activated, or reported if it is a by-type request for an unregistered class; exactly the requests after it stay queued |
| GuideLayout.NextActiveAppend | kotlin_tools/src/main/java/com/hua/kotlin_tools/view/UserGuideLayout.kt:41-64 | enqueueing at the tail never changes which earlier request comes next; it only lengthens what remains |
| GuideLayout.SameClassSharesFlag | kotlin_tools/src/main/java/com/hua/kotlin_tools/view/UserGuideLayout.kt:110-122 | once one target view's guide is shown, a guide for another view of the same class is skipped |
| GuideLayout.HideAll | kotlin_tools/src/main/java/com/hua/kotlin_tools/view/UserGuideLayout.kt:128-132 | every child is GONE afterwards, the list is as long, and the guide view is in it exactly when it was before |
| GuideLayout.UserGuideLayout.constructor | kotlin_tools/src/main/java/com/hua/kotlin_tools/view/UserGuideLayout.kt:33-39 | the layout starts GONE with an empty queue, no children and no guide view |
| GuideLayout.UserGuideLayout.IsShowing | kotlin_tools/src/main/java/com/hua/kotlin_tools/view/UserGuideLayout.kt:74-76 | showing exactly when VISIBLE |
| GuideLayout.UserGuideLayout.SetOnGuideLayoutDismissed | kotlin_tools/src/main/java/com/hua/kotlin_tools/view/UserGuideLayout.kt:35 | only whether the dismissed callback is set changes |
| GuideLayout.UserGuideLayout.ShowGuide | kotlin_tools/src/main/java/com/hua/kotlin_tools/view/UserGuideLayout.kt:41-48 | the request joins the tail; a showing layout changes nothing else; a hidden one drains the new queue as NextActive says |
| GuideLayout.UserGuideLayout.ShowCustomGuideView | kotlin_tools/src/main/java/com/hua/kotlin_tools/view/UserGuideLayout.kt:51-64 | as ShowGuide, for a target view with its text, shape (round by default) and padding (on by default) |
| GuideLayout.UserGuideLayout.NextGuide | kotlin_tools/src/main/java/com/hua/kotlin_tools/view/UserGuideLayout.kt:66-72 | the new state is the one NextActive of the old queue and flags describes: empty means hidden with the callback invoked; an unregistered type fails with the queue already popped; otherwise the flag is set, the layout is visible, all other children are hidden and the request's view is shown |
| GuideLayout.UserGuideLayout.ShowGuideInfo | kotlin_tools/src/main/java/com/hua/kotlin_tools/view/UserGuideLayout.kt:78-126 | a request whose flag is set is skipped; a by-type request adds a new visible child every time, and an unregistered one is an IllegalArgumentException; an ad-hoc request shows the shared guide view (made on first use) with the dismiss listener set; the flag is written at activation |
| GuideLayout.UserGuideLayout.GoneAllChildren | kotlin_tools/src/main/java/com/hua/kotlin_tools/view/UserGuideLayout.kt:128-132 | every child, the guide view included, becomes GONE; nothing else changes |
| GuideLayout.UserGuideLayout.DismissGuide | kotlin_tools/src/main/java/com/hua/kotlin_tools/view/UserGuideLayout.kt:134-153 | with a handle only the first matching request goes; without one the queue is cleared; whenever the queue ends empty the layout hides and the callback runs, even if nothing matched; otherwise visibility and callbacks are untouched |
| GuideLayout.UserGuideLayout.OnTypeChildClick | kotlin_tools/src/main/java/com/hua/kotlin_tools/view/UserGuideLayout.kt:96-98 | a click on a by-type child advances the queue as NextGuide does |
| GuideLayout.UserGuideLayout.OnGuideViewTap | kotlin_tools/src/main/java/com/hua/kotlin_tools/view/UserGuideLayout.kt:118-120 | a tap dismisses the guide view, whose listener then advances the queue as NextGuide does |
| DraggableList.Swapped | waveimageview/src/main/java/com/hua/waveimageview/DraggableListView.java:390 | the entries at the two positions trade places; the length and every other entry are unchanged |
| DraggableList.RemovedAt | waveimageview/src/main/java/com/hua/waveimageview/DraggableListView.java:398 | the list is one shorter; entries before the position stay, later ones move up by one |
| DraggableList.SwappedIsPermutation | waveimageview/src/main/java/com/hua/waveimageview/DraggableListView.java:388-392 | a move only reorders: the same entries, each as often |
| DraggableList.SwappedInvolution | waveimageview/src/main/java/com/hua/waveimageview/DraggableListView.java:388-392 | moving back the same two positions restores the list |
| DraggableList.RemovedAtMultiset | waveimageview/src/main/java/com/hua/waveimageview/DraggableListView.java:395-400 | a swipe drops exactly the swiped entry and keeps all the others |
| DraggableList.Adapter.constructor | waveimageview/src/main/java/com/hua/waveimageview/DraggableListView.java:268-309 | the adapter holds the given list; the defaults are 4 columns and swipe disabled |
| DraggableList.Adapter.ItemCount | waveimageview/src/main/java/com/hua/waveimageview/DraggableListView.java:333-335 | the list's size, or 0 for a null list |
| DraggableList.MovementFlags | waveimageview/src/main/java/com/hua/waveimageview/DraggableListView.java:369-385 | swipe equals drag; up and down exactly on a grid or a vertical list; left and right exactly on a grid or a horizontal list; no other bits |
| DraggableList.LayoutFor | waveimageview/src/main/java/com/hua/waveimageview/DraggableListView.java:193-209 | a grid with the adapter's column count exactly for the grid style; a vertical or horizontal linear layout for those styles; no layout manager for any other value |
| DraggableList.StyleDirections | waveimageview/src/main/java/com/hua/waveimageview/DraggableListView.java:369-385 | a vertical list drags only up and down, a horizontal one only sideways, a grid every way, and an unknown style not at all |
| DraggableList.DefaultItemTouchCallBack.constructor | waveimageview/src/main/java/com/hua/waveimageview/DraggableListView.java:364-410 | the callback works on the given adapter; long-press drag is disabled; swipe is enabled exactly when the adapter enables swipe-drop |
| DraggableList.DefaultItemTouchCallBack.LongPressDragEnabled | waveimageview/src/main/java/com/hua/waveimageview/DraggableListView.java:402-405 | long-press drag is always off |
| DraggableList.DefaultItemTouchCallBack.ItemViewSwipeEnabled | waveimageview/src/main/java/com/hua/waveimageview/DraggableListView.java:407-410 | swipe is on exactly when the adapter enables swipe-drop |
| DraggableList.DefaultItemTouchCallBack.OnMove | waveimageview/src/main/java/com/hua/waveimageview/DraggableListView.java:388-392 | a null list is a NullPointerException and a position outside the list an IndexOutOfBoundsException, both before any write; otherwise the list becomes its swap and true is returned |
| DraggableList.DefaultItemTouchCallBack.OnSwiped | waveimageview/src/main/java/com/hua/waveimageview/DraggableListView.java:395-400 | a null list is left alone; a position outside the list throws without a change; otherwise the entry goes and the item count drops by one |
| DraggableList.ItemNotices | waveimageview/src/main/java/com/hua/waveimageview/DraggableListView.java:248-254 | the adapter hook runs once per item, in position order, with that item and the new state |
| DraggableList.DraggableListView.constructor | waveimageview/src/main/java/com/hua/waveimageview/DraggableListView.java:82-93 | the list starts NORMAL, with the style attribute or VERTICAL, and no listeners, adapter, callback or layout manager |
| DraggableList.DraggableListView.NotifyStateChanged | waveimageview/src/main/java/com/hua/waveimageview/DraggableListView.java:242-255 | every registered listener is told the state exactly once, and the adapter hook runs for every item; the order between the two is not modelled; the state is unchanged |
| DraggableList.DraggableListView.GetState | waveimageview/src/main/java/com/hua/waveimageview/DraggableListView.java:143-145 | the current state |
| DraggableList.DraggableListView.SetState | waveimageview/src/main/java/com/hua/waveimageview/DraggableListView.java:130-145 | getState then returns the new state; setting the current state notifies nobody; a different one notifies everyone |
| DraggableList.DraggableListView.OnItemLongClick | waveimageview/src/main/java/com/hua/waveimageview/DraggableListView.java:215-222 | a long press makes the list DRAGGABLE and notifies, even when it already was |
| DraggableList.DraggableListView.AddOnStateChangedListener | waveimageview/src/main/java/com/hua/waveimageview/DraggableListView.java:162-169 | the set exists afterwards; null adds nothing; a listener already present is not added twice |
| DraggableList.DraggableListView.SetItemStyle | waveimageview/src/main/java/com/hua/waveimageview/DraggableListView.java:119-121 | only the style changes; the layout manager stays until the next setAdapter |
| DraggableList.DraggableListView.SetItemTouchDragCallBack | waveimageview/src/main/java/com/hua/waveimageview/DraggableListView.java:352-359 | null is ignored; anything else replaces the callback |
| DraggableList.DraggableListView.SetAdapter | waveimageview/src/main/java/com/hua/waveimageview/DraggableListView.java:176-191 | null is ignored; otherwise the adapter is stored and the layout follows the item style; a default callback for this adapter is made only when there is no callback yet |
| DraggableList.DraggableListView.GetDataList | waveimageview/src/main/java/com/hua/waveimageview/DraggableListView.java:415-420 | with an adapter, exactly the adapter's list (null when that list is null); null without an adapter; its length is the item count |

## Left out

- **Drawing.** Canvas, Paint, Bitmap and Matrix drawing are not modelled. The model computes the rectangle drawDashed returns, the arrow box, the flip and the caption anchor. The dashed circle of the round shape is not computed.
- **Densities.** `dip`/`sp` rounding is not modelled: the pixel sizes are a `Dims` parameter.
- **Caption baseline.** The y offset (`baselineDelta`) uses float font metrics. The model says only which arrow edge the baseline is measured from.
- **Screen, window and listeners.** `getScreenSize`, `getStatusBarHeight` and `parseColorAlpha` are not modelled. Neither are layout-change listeners, gesture detection beyond the single tap, `debugToast`, `ensureMainThread` or `isLocationServiceEnable`.
- **Foreign inputs.** Window positions, view sizes and the screen size are parameters of the drawing functions.
- GuideView.Outline: for the round shape the result is the square drawDashed returns, anchored at the target's top-left. The dashed circle actually drawn is centred on the target, so that square is not its bounds. The model does not compute the circle, and nothing proved about the arrow (ArrowFor, AnnotationFacesCentre) rules out the arrow reaching into it, as it does for a round target in the lower half that is much wider than tall.
- GuideView.Outline: does not model 32-bit overflow of the coordinate arithmetic or float precision. Integers are unbounded.
- CommonExt.ParseInt: accepts ASCII digits only. Integer.parseInt also accepts other Unicode decimal digits.
- CommonExt.ToKeyValueString: the extras are a sequence, so a bundle's key order is taken as given.
- **Extras values.** `Bundle.get(key)` is taken to be the value's `toString()` text, or null.
- **The guide type registry.** The `GuideTypeProvider` singleton is an object passed to the layout.
- **Guide type factories.** `IGuideType.getView` and the inflated views are not modelled. A by-type child is its class and its visibility.
- **Preference store.** The preference store is a map held by the layout. PreUtil's persistence is not part of this model.
- **Logging.** `LogUtil` calls are not modelled.
- **Target layout listener.** Adding and removing the layout-change listener on the target view in `show` is not modelled.
- **RecyclerView internals.** LayoutManager, ItemTouchHelper (attaching, `startDrag`, `makeMovementFlags` bit packing) and view holders are not modelled.
  - `setItemListeners` installs the long-press and touch listeners. Its effect on state is `OnItemLongClick`. A null view holder (an item that is not laid out) is not modelled.
  - The ACTION_DOWN listener only calls `startDrag`, so it changes no state in the model.
- **Grid span count.** A GridLayoutManager rejects a column count below 1. That check is not modelled.
- **Custom touch callbacks.** Only the default callback is modelled. A caller-supplied ItemTouchHelper.Callback is foreign code.
- DraggableList.DraggableListView.GetDataList: returns the list as a value. In Java the caller and the adapter share one List object, so later in-place swaps and removals show through the returned reference; that aliasing is not modelled.
- DraggableList.DraggableListView.NotifyStateChanged: the ArraySet's iteration order is left unspecified. The model proves only that each listener is called exactly once.
- **The rest of the repository.** `RxBus.java`, `RxJavaExt.kt`, `BaseViewModel.kt`, `LogUtil.kt`, `PreUtil.kt`, `RingFrameLayout.kt` and `DefaultAdapter.java` are not part of this model.

## Findings

| source | as written | input that shows it | evidently intended | confidence | as-written member | corrected member |
|---|---|---|---|---|---|---|
| kotlin_tools/src/main/java/com/hua/kotlin_tools/view/UserGuideView.kt:51-52 | `mScreenWidth` and `mScreenHeight` start at 0 and are never assigned. The quadrant tests at lines 242-254 therefore compare the outline centre with 0, and every on-screen target counts as right-bottom. | Outline (80,80)-(120,120) on a 1080x1920 screen, with arrow 57x147 and gap 27: the shipped code picks right-bottom and puts the arrow's top at -94, off the screen. | The quadrant is taken against half the real screen size. That gives left-top, with the arrow below the outline. | medium, not executed | GuideView.ShippedQuadrant, GuideView.ShippedQuadrantIgnoresScreen | GuideView.QuadrantOf, GuideView.AnnotationFacesCentre |
