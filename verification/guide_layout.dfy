/**
 * The guide queue of UserGuideLayout.kt: a FIFO of guide requests drained one
 * at a time while the layout is hidden, a persisted "already shown" flag per
 * request class that makes every guide a one-off, and the registry of
 * by-type guide factories (GuideTypeProvider).
 */
module GuideLayout {
  import opened Wrappers
  import opened Platform
  import opened CommonExt
  import GuideView

  // ---------------------------------------------------------------- flag keys

  const KEY_PREFIX: string := "user_guide_"

  /** `KEY_PREFIX + clz.canonicalName`; a missing canonical name is printed as "null". */
  function PrefKey(c: JClass): (k: string)
    ensures |k| >= |KEY_PREFIX| && k[..|KEY_PREFIX|] == KEY_PREFIX
    ensures c.canonicalName.Some? ==> k[|KEY_PREFIX|..] == c.canonicalName.value
    ensures c.canonicalName.None? ==> k[|KEY_PREFIX|..] == "null"
  {
    match c.canonicalName
    case Some(n) => KEY_PREFIX + n
    case None => KEY_PREFIX + "null"
  }

  /** Distinct canonical names give distinct keys; every class without one shares
      the key "user_guide_null". */
  lemma PrefKeyDistinguishes(c: JClass, d: JClass)
    ensures c.canonicalName.Some? && d.canonicalName.Some? && c.canonicalName != d.canonicalName
      ==> PrefKey(c) != PrefKey(d)
    ensures c.canonicalName.None? && d.canonicalName.None? ==> PrefKey(c) == PrefKey(d)
  {
    if c.canonicalName.Some? && d.canonicalName.Some? && PrefKey(c) == PrefKey(d) {
      assert c.canonicalName.value == PrefKey(c)[|KEY_PREFIX|..] == PrefKey(d)[|KEY_PREFIX|..] == d.canonicalName.value;
    }
  }

  /** `PrefUtil.getBoolean(key, false)`: an absent key reads as false. */
  function StoredFlag(prefs: map<string, bool>, key: string): (b: bool)
    ensures key !in prefs ==> !b
    ensures key in prefs ==> b == prefs[key]
  {
    key in prefs && prefs[key]
  }

  // ---------------------------------------------------------------- requests

  /** GuideInfo: either a registered guide type, or a target view with its caption. */
  datatype GuideInfo =
    | ByType(typeClass: JClass)
    | AdHoc(target: ViewRef, guideText: string, dashedShape: int, enablePadding: bool)

  /** The flag key of a request: its type class, or the class of its target view
      (not the view itself). */
  function KeyOf(g: GuideInfo): (k: string)
    ensures g.ByType? ==> k == PrefKey(g.typeClass)
    ensures g.AdHoc? ==> k == PrefKey(g.target.cls)
  {
    match g
    case ByType(c) => PrefKey(c)
    case AdHoc(t, _, _, _) => PrefKey(t.cls)
  }

  /** What dismissGuide(any) compares against: a target view or a type class. */
  datatype Handle = ViewHandle(view: ViewRef) | ClassHandle(cls: JClass)

  /** `guideInfo.targetView == any || guideInfo.typeClass == any` */
  function Matches(g: GuideInfo, h: Handle): (b: bool)
    ensures b ==> (h.ViewHandle? <==> g.AdHoc?)
    ensures b && g.AdHoc? ==> h.view == g.target
    ensures b && g.ByType? ==> h.cls == g.typeClass
    ensures g.AdHoc? && h == ViewHandle(g.target) ==> b
    ensures g.ByType? && h == ClassHandle(g.typeClass) ==> b
  {
    match h
    case ViewHandle(v) => g.AdHoc? && g.target == v
    case ClassHandle(c) => g.ByType? && g.typeClass == c
  }

  /** The queue after removing its first entry that matches, if any. */
  function RemoveFirstMatch(q: seq<GuideInfo>, h: Handle): (r: seq<GuideInfo>)
    ensures |q| - 1 <= |r| <= |q|
    ensures |r| == |q| <==> forall i :: 0 <= i < |q| ==> !Matches(q[i], h)
    ensures multiset(r) <= multiset(q)
  {
    if q == [] then []
    else if Matches(q[0], h) then
      assert q == [q[0]] + q[1..];
      q[1..]
    else
      var rest := RemoveFirstMatch(q[1..], h);
      assert q == [q[0]] + q[1..];
      assert forall i :: 0 < i < |q| ==> q[i] == q[1..][i - 1];
      [q[0]] + rest
  }

  /** With no matching entry the queue is left as it is. */
  lemma {:induction false} RemoveFirstMatchNone(q: seq<GuideInfo>, h: Handle)
    requires forall i :: 0 <= i < |q| ==> !Matches(q[i], h)
    ensures RemoveFirstMatch(q, h) == q
    decreases |q|
  {
    if q != [] {
      RemoveFirstMatchNone(q[1..], h);
    }
  }

  /** Exactly the first matching entry goes; everything before and after it stays in order. */
  lemma {:induction false} RemoveFirstMatchAt(q: seq<GuideInfo>, h: Handle, k: nat)
    requires k < |q| && Matches(q[k], h)
    requires forall i :: 0 <= i < k ==> !Matches(q[i], h)
    ensures RemoveFirstMatch(q, h) == q[..k] + q[k + 1..]
    decreases k
  {
    if k > 0 {
      var tail := q[1..];
      RemoveFirstMatchAt(tail, h, k - 1);
      assert tail[..k - 1] + tail[k..] == q[1..k] + q[k + 1..];
      assert [q[0]] + q[1..k] == q[..k];
    }
  }

  /** Cutting one entry out of a queue shortens it by one and loses only that entry. */
  lemma CutOne(q: seq<GuideInfo>, k: nat)
    requires k < |q|
    ensures |q[..k] + q[k + 1..]| == |q| - 1
    ensures multiset(q[..k] + q[k + 1..]) + multiset{q[k]} == multiset(q)
  {
    assert q == q[..k] + [q[k]] + q[k + 1..];
  }

  // ---------------------------------------------------------------- registry

  /** An IGuideType implementation; its factory makes the guide's view. */
  datatype GuideType = GuideType(implClass: JClass)

  /** The GuideTypeProvider singleton: guide types keyed by their own class. */
  class GuideTypeProvider {
    var types: map<JClass, GuideType>

    ghost predicate Valid()
      reads this
    {
      forall c :: c in types ==> types[c].implClass == c
    }

    constructor()
      ensures Valid() && types == map[]
    {
      types := map[];
    }

    /** addGuideType: registers (or replaces) the type under its own class. */
    method AddGuideType(t: GuideType)
      requires Valid()
      modifies this
      ensures Valid()
      ensures types == old(types)[t.implClass := t]
    {
      types := types[t.implClass := t];
    }

    /** getGuideType: the type registered for the class, or null. */
    function GetGuideType(c: JClass): (r: Option<GuideType>)
      requires Valid()
      reads this
      ensures r.Some? <==> c in types
      ensures r.Some? ==> r.value.implClass == c
    {
      if c in types then Some(types[c]) else None
    }
  }

  // ---------------------------------------------------------------- draining the queue

  /** What nextGuide ends in, starting from a queue: every leading entry whose
      flag is set is dropped unseen; the first one whose flag is clear is
      activated, unless it is a by-type request for an unregistered class. */
  datatype Advance =
    | Exhausted
    | Activate(guide: GuideInfo, rest: seq<GuideInfo>)
    | Unregistered(typeClass: JClass, rest: seq<GuideInfo>)

  function NextActive(q: seq<GuideInfo>, prefs: map<string, bool>, registered: set<JClass>): (a: Advance)
    ensures !a.Exhausted? ==> |a.rest| < |q|
    ensures a.Activate? ==> !StoredFlag(prefs, KeyOf(a.guide)) && (a.guide.ByType? ==> a.guide.typeClass in registered)
    ensures a.Unregistered? ==> a.typeClass !in registered && !StoredFlag(prefs, PrefKey(a.typeClass))
    decreases |q|
  {
    if q == [] then Exhausted
    else if StoredFlag(prefs, KeyOf(q[0])) then NextActive(q[1..], prefs, registered)
    else if q[0].ByType? && q[0].typeClass !in registered then Unregistered(q[0].typeClass, q[1..])
    else Activate(q[0], q[1..])
  }

  /** The drain runs dry exactly when every queued entry already has its flag set. */
  lemma {:induction false} NextActiveExhausted(q: seq<GuideInfo>, prefs: map<string, bool>, registered: set<JClass>)
    ensures NextActive(q, prefs, registered).Exhausted? <==> forall i :: 0 <= i < |q| ==> StoredFlag(prefs, KeyOf(q[i]))
    decreases |q|
  {
    if q != [] && StoredFlag(prefs, KeyOf(q[0])) {
      var tail := q[1..];
      NextActiveExhausted(tail, prefs, registered);
      assert forall i :: 0 < i < |q| ==> q[i] == tail[i - 1];
    }
  }

  /** Strict FIFO with skipping: when the k-th entry is the first whose flag is
      clear, the drain drops the k entries before it unseen, picks it (or reports
      its class as unregistered) and leaves exactly the entries after it queued. */
  lemma {:induction false} NextActiveIsFirstUnshown(q: seq<GuideInfo>, prefs: map<string, bool>, registered: set<JClass>, k: nat)
    requires k < |q| && !StoredFlag(prefs, KeyOf(q[k]))
    requires forall i :: 0 <= i < k ==> StoredFlag(prefs, KeyOf(q[i]))
    ensures NextActive(q, prefs, registered) ==
      if q[k].ByType? && q[k].typeClass !in registered then Unregistered(q[k].typeClass, q[k + 1..])
      else Activate(q[k], q[k + 1..])
    decreases k
  {
    if k > 0 {
      var tail := q[1..];
      assert StoredFlag(prefs, KeyOf(q[0]));
      assert forall i :: 0 <= i < k - 1 ==> tail[i] == q[i + 1];
      NextActiveIsFirstUnshown(tail, prefs, registered, k - 1);
      assert tail[k - 1] == q[k] && tail[k..] == q[k + 1..];
    }
  }

  /** Appending to the tail never changes which entry comes next while an
      earlier entry is still due; it only lengthens what remains. */
  lemma {:induction false} NextActiveAppend(q: seq<GuideInfo>, g: GuideInfo, prefs: map<string, bool>, registered: set<JClass>)
    ensures NextActive(q + [g], prefs, registered) ==
      match NextActive(q, prefs, registered)
      case Exhausted => NextActive([g], prefs, registered)
      case Activate(x, rest) => Activate(x, rest + [g])
      case Unregistered(c, rest) => Unregistered(c, rest + [g])
    decreases |q|
  {
    if q != [] {
      assert (q + [g])[0] == q[0];
      assert (q + [g])[1..] == q[1..] + [g];
      NextActiveAppend(q[1..], g, prefs, registered);
    } else {
      assert q + [g] == [g];
    }
  }

  /** Once one view's guide has been shown, the guide for any other view of the
      same class is skipped: the flag belongs to the class. */
  lemma SameClassSharesFlag(shown: GuideInfo, next: GuideInfo, prefs: map<string, bool>, registered: set<JClass>)
    requires shown.AdHoc? && next.AdHoc? && shown.target.cls == next.target.cls
    ensures NextActive([next], prefs[KeyOf(shown) := true], registered) == Exhausted
  {
  }

  // ---------------------------------------------------------------- the layout

  /** An UnregisteredType error is the IllegalArgumentException thrown for a type
      that was never passed to addGuideType. */
  datatype GuideError = UnregisteredType(typeClass: JClass)

  /** A child of the layout: a view made by a guide type's factory, with its own
      visibility, or the shared guide view (whose visibility it keeps itself). */
  datatype Child = TypeView(cls: JClass, visibility: int) | GuideChild

  function Hidden(c: Child): Child {
    match c
    case TypeView(cls, _) => TypeView(cls, GONE)
    case GuideChild => GuideChild
  }

  /** goneAllChildren's effect on the list of children. */
  function HideAll(cs: seq<Child>): (r: seq<Child>)
    ensures |r| == |cs|
    ensures forall i :: 0 <= i < |cs| ==> r[i] == Hidden(cs[i])
    ensures GuideChild in r <==> GuideChild in cs
  {
    var r := seq(|cs|, i requires 0 <= i < |cs| => Hidden(cs[i]));
    assert forall i :: 0 <= i < |cs| ==> (r[i] == GuideChild <==> cs[i] == GuideChild);
    r
  }

  /** The guide view's state as goneAllChildren leaves it. */
  function HiddenView(s: Option<GuideView.ViewState>): Option<GuideView.ViewState> {
    match s
    case None => None
    case Some(v) => Some(v.(visibility := GONE))
  }

  /** The guide view's state after an ad-hoc activation: hidden with the other
      children (or newly made, hence hidden), then shown with the request's
      target, with the layout's dismiss listener installed. */
  function ShownView(prior: Option<GuideView.ViewState>, g: GuideInfo): GuideView.ViewState
    requires g.AdHoc?
  {
    var hidden := match prior case None => GuideView.INITIAL_STATE case Some(v) => v.(visibility := GONE);
    GuideView.AfterShow(hidden, g.target, g.guideText, g.dashedShape, g.enablePadding).(hasDismissListener := true)
  }

  /** The search dismissGuide(any) runs over the queue: the first request
      matching the handle is dropped, and nothing else changes. */
  method DropFirstMatch(q: seq<GuideInfo>, h: Handle) returns (r: seq<GuideInfo>)
    ensures r == RemoveFirstMatch(q, h)
    ensures (exists j :: 0 <= j < |q| && Matches(q[j], h)) ==> |r| == |q| - 1
    ensures (forall j :: 0 <= j < |q| ==> !Matches(q[j], h)) ==> r == q
  {
    var i := 0;
    while i < |q| && !Matches(q[i], h)
      invariant 0 <= i <= |q|
      invariant forall j :: 0 <= j < i ==> !Matches(q[j], h)
    {
      i := i + 1;
    }
    if i < |q| {
      RemoveFirstMatchAt(q, h, i);
      CutOne(q, i);
      r := q[..i] + q[i + 1..];
    } else {
      RemoveFirstMatchNone(q, h);
      r := q;
    }
  }

  class UserGuideLayout {
    const provider: GuideTypeProvider
    /** mGuideQueue: pending requests, the active one excluded. */
    var queue: seq<GuideInfo>
    var visibility: int
    /** The persisted flags, as the preference store holds them. */
    var prefs: map<string, bool>
    var children: seq<Child>
    /** mCustomGuideView, made on first use. */
    var guideView: GuideView.UserGuideView?
    /** Whether onGuideLayoutDissmissed is set, and how often it has been invoked. */
    var hasDismissedCallback: bool
    var dismissedCallbacks: nat

    ghost predicate Valid()
      reads this, guideView
    {
      && (guideView != null <==> GuideChild in children)
      && (guideView != null ==> guideView.hasDismissListener)
    }

    function GuideViewState(): Option<GuideView.ViewState>
      reads this, guideView
    {
      if guideView == null then None else Some(guideView.State())
    }

    /** Everything but the queue and the children stayed as it was. */
    twostate predicate Untouched()
      reads this, guideView
    {
      && visibility == old(visibility) && prefs == old(prefs) && children == old(children)
      && guideView == old(guideView) && GuideViewState() == old(GuideViewState())
      && hasDismissedCallback == old(hasDismissedCallback) && dismissedCallbacks == old(dismissedCallbacks)
    }

    /** The state nextGuide leaves, given how the drain ended (`a`), what was
        returned (`r`) and the guide view's state just before (`prior`). */
    twostate predicate Advanced(a: Advance, new r: Outcome<GuideError>, new prior: Option<GuideView.ViewState>)
      reads this, guideView
    {
      && hasDismissedCallback == old(hasDismissedCallback)
      && match a
         case Exhausted =>
           && r == Pass && queue == [] && visibility == GONE && prefs == old(prefs)
           && dismissedCallbacks == old(dismissedCallbacks) + (if hasDismissedCallback then 1 else 0)
           && children == old(children) && guideView == old(guideView) && GuideViewState() == prior
         case Unregistered(c, rest) =>
           && r == Fail(UnregisteredType(c)) && queue == rest && visibility == old(visibility)
           && prefs == old(prefs) && dismissedCallbacks == old(dismissedCallbacks)
           && children == old(children) && guideView == old(guideView) && GuideViewState() == prior
         case Activate(g, rest) =>
           && r == Pass && queue == rest && visibility == VISIBLE
           && prefs == old(prefs)[KeyOf(g) := true]
           && dismissedCallbacks == old(dismissedCallbacks)
           && match g
              case ByType(c) =>
                && children == HideAll(old(children)) + [TypeView(c, VISIBLE)]
                && guideView == old(guideView) && GuideViewState() == HiddenView(prior)
              case AdHoc(_, _, _, _) =>
                && guideView != null
                && (old(guideView) == null ==> fresh(guideView) && children == HideAll(old(children)) + [GuideChild])
                && (old(guideView) != null ==> guideView == old(guideView) && children == HideAll(old(children)))
                && GuideViewState() == Some(ShownView(prior, g))
    }

    /** The layout starts hidden, with an empty queue, over the flags already stored. */
    constructor(provider: GuideTypeProvider, stored: map<string, bool>)
      ensures Valid() && this.provider == provider
      ensures queue == [] && visibility == GONE && prefs == stored
      ensures children == [] && guideView == null && !hasDismissedCallback && dismissedCallbacks == 0
    {
      this.provider := provider;
      queue, prefs, children, guideView := [], stored, [], null;
      hasDismissedCallback, dismissedCallbacks := false, 0;
      visibility := VisibilityFor(false);
    }

    /** isShowing: the layout is VISIBLE. */
    function IsShowing(): (b: bool)
      reads this
      ensures b <==> visibility == VISIBLE
    {
      IsVisible(visibility)
    }

    /** Assigning onGuideLayoutDissmissed (a callback, or null). */
    method SetOnGuideLayoutDismissed(present: bool)
      requires Valid()
      modifies this
      ensures Valid()
      ensures hasDismissedCallback == present && queue == old(queue) && Untouched'()
    {
      hasDismissedCallback := present;
    }

    /** Untouched, except that the callback may have been set or cleared. */
    twostate predicate Untouched'()
      reads this, guideView
    {
      && visibility == old(visibility) && prefs == old(prefs) && children == old(children)
      && guideView == old(guideView) && GuideViewState() == old(GuideViewState())
      && dismissedCallbacks == old(dismissedCallbacks)
    }

    /** showGuide(type): the request joins the tail; a hidden layout starts draining at once. */
    method ShowGuide(c: JClass) returns (r: Outcome<GuideError>)
      requires Valid() && provider.Valid()
      modifies this, guideView
      ensures Valid()
      ensures old(IsShowing()) ==> r == Pass && queue == old(queue) + [ByType(c)] && Untouched()
      ensures !old(IsShowing()) ==>
        Advanced(NextActive(old(queue) + [ByType(c)], old(prefs), provider.types.Keys), r, old(GuideViewState()))
    {
      queue := queue + [ByType(c)];
      if !IsShowing() {
        r := NextGuide();
      } else {
        r := Pass;
      }
    }

    /** showCustomGuideView(target, text, shape = round, padding = true): as
        showGuide, for a target view and its caption. */
    method ShowCustomGuideView(target: ViewRef, text: string, shape: int := GuideView.SHAPE_ROUND,
                               padding: bool := true) returns (r: Outcome<GuideError>)
      requires Valid() && provider.Valid()
      modifies this, guideView
      ensures Valid()
      ensures old(IsShowing()) ==>
        r == Pass && queue == old(queue) + [AdHoc(target, text, shape, padding)] && Untouched()
      ensures !old(IsShowing()) ==>
        Advanced(NextActive(old(queue) + [AdHoc(target, text, shape, padding)], old(prefs), provider.types.Keys),
                 r, old(GuideViewState()))
    {
      queue := queue + [AdHoc(target, text, shape, padding)];
      if !IsShowing() {
        r := NextGuide();
      } else {
        r := Pass;
      }
    }

    /** nextGuide: pops the head and activates it, or, on an empty queue,
        dismisses the layout. */
    method NextGuide() returns (r: Outcome<GuideError>)
      requires Valid() && provider.Valid()
      modifies this, guideView
      ensures Valid()
      ensures Advanced(NextActive(old(queue), old(prefs), provider.types.Keys), r, old(GuideViewState()))
      decreases |queue|, 0
    {
      if |queue| > 0 {
        var g := queue[0];
        queue := queue[1..];
        r := ShowGuideInfo(g);
      } else {
        DismissGuide(None);
        r := Pass;
      }
    }

    /** _showGuide for a request just popped: skip it if its flag is set,
        otherwise set the flag, hide every child, show the request's view and the
        layout. */
    method ShowGuideInfo(g: GuideInfo) returns (r: Outcome<GuideError>)
      requires Valid() && provider.Valid()
      modifies this, guideView
      ensures Valid()
      ensures Advanced(NextActive([g] + old(queue), old(prefs), provider.types.Keys), r, old(GuideViewState()))
      decreases |queue|, 1
    {
      assert ([g] + queue)[1..] == queue;
      var key := KeyOf(g);
      if StoredFlag(prefs, key) {
        r := NextGuide();
        return;
      }
      match g {
        case ByType(c) =>
          var t := provider.GetGuideType(c);
          if t.None? {
            return Fail(UnregisteredType(c));
          }
          // mCachedChildrenMap is never written, so the factory runs and a new
          // child is added on every activation.
          children := children + [TypeView(c, VISIBLE)];
          GoneAllChildren();
          ghost var hidden := children;
          children := children[|children| - 1 := TypeView(c, VISIBLE)];
          assert children == hidden[..|hidden| - 1] + [TypeView(c, VISIBLE)];
          assert hidden == hidden[..|hidden| - 1] + [TypeView(c, GONE)];
          assert GuideChild in children <==> GuideChild in hidden;
          prefs := prefs[key := true];
        case AdHoc(target, text, shape, padding) =>
          GoneAllChildren();
          if guideView == null {
            var v := new GuideView.UserGuideView();
            guideView := v;
            children := children + [GuideChild];
          }
          guideView.Show(target, text, shape, padding);
          guideView.SetDismissListener(true);
          prefs := prefs[key := true];
      }
      visibility := VisibilityFor(true);
      r := Pass;
    }

    /** goneAllChildren: every child, the guide view included, becomes GONE. */
    method GoneAllChildren()
      requires Valid()
      modifies this, guideView
      ensures Valid()
      ensures children == HideAll(old(children)) && guideView == old(guideView)
      ensures GuideViewState() == HiddenView(old(GuideViewState()))
      ensures queue == old(queue) && visibility == old(visibility) && prefs == old(prefs)
      ensures hasDismissedCallback == old(hasDismissedCallback) && dismissedCallbacks == old(dismissedCallbacks)
    {
      var i := 0;
      while i < |children|
        invariant 0 <= i <= |children| == |old(children)|
        decreases |children| - i
        invariant children[..i] == HideAll(old(children))[..i] && children[i..] == old(children)[i..]
        invariant guideView == old(guideView)
        invariant GuideViewState() ==
          if GuideChild in old(children)[..i] then HiddenView(old(GuideViewState())) else old(GuideViewState())
        invariant queue == old(queue) && visibility == old(visibility) && prefs == old(prefs)
        invariant hasDismissedCallback == old(hasDismissedCallback) && dismissedCallbacks == old(dismissedCallbacks)
        invariant guideView != null ==> guideView.hasDismissListener
      {
        assert old(children)[..i + 1] == old(children)[..i] + [old(children)[i]];
        match children[i] {
          case TypeView(c, _) =>
            children := children[i := TypeView(c, GONE)];
          case GuideChild =>
            guideView.SetVisible(false);
        }
        i := i + 1;
      }
      assert old(children)[..i] == old(children);
      assert children == HideAll(old(children));
    }

    /** dismissGuide(any = null): with a handle, drop the first queued request
        for it; without, drop them all. If the queue is then empty the layout
        hides and the callback runs, whether or not anything was dropped. */
    method DismissGuide(h: Option<Handle> := None)
      requires Valid()
      modifies this
      ensures Valid()
      ensures queue == if h.None? then [] else RemoveFirstMatch(old(queue), h.value)
      ensures queue == [] ==>
        visibility == GONE && dismissedCallbacks == old(dismissedCallbacks) + (if hasDismissedCallback then 1 else 0)
      ensures queue != [] ==> visibility == old(visibility) && dismissedCallbacks == old(dismissedCallbacks)
      ensures prefs == old(prefs) && children == old(children) && guideView == old(guideView)
      ensures hasDismissedCallback == old(hasDismissedCallback)
    {
      if h.Some? {
        queue := DropFirstMatch(queue, h.value);
      } else {
        queue := [];
      }
      if queue == [] {
        visibility := VisibilityFor(false);
        if hasDismissedCallback {
          dismissedCallbacks := dismissedCallbacks + 1;
        }
      }
    }

    /** A click on a by-type guide's view: its listener calls nextGuide (the
        child itself is only hidden by the next activation). */
    method OnTypeChildClick(i: nat) returns (r: Outcome<GuideError>)
      requires Valid() && provider.Valid()
      requires i < |children| && children[i].TypeView?
      modifies this, guideView
      ensures Valid()
      ensures Advanced(NextActive(old(queue), old(prefs), provider.types.Keys), r, old(GuideViewState()))
    {
      r := NextGuide();
    }

    /** A single tap on the guide view: it dismisses itself, and its listener
        (installed at activation) calls nextGuide. */
    method OnGuideViewTap() returns (r: Outcome<GuideError>)
      requires Valid() && provider.Valid()
      requires guideView != null
      modifies this, guideView
      ensures Valid()
      ensures Advanced(NextActive(old(queue), old(prefs), provider.types.Keys), r,
        Some(old(guideView.State()).(visibility := GONE, dismissNotifications := old(guideView.dismissNotifications) + 1)))
    {
      var handled := guideView.OnSingleTapUp();
      r := NextGuide();
    }
  }
}
