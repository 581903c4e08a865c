/** The selection/value-switch choreography of the time picker (DigitAnimator):
    an AnimatorSet runs every step's start hook in order before starting the
    step's animation, and a CountingAnimListener fires every step's end hook,
    once, when the last of the set's animations has ended.

    The host toolkit is a `Host`: the properties of the views the animator
    touches, the animations it has started and not yet ended, and a ghost log
    of the calls made into it. The animations themselves are opaque; the host
    (the environment) ends them, one at a time and in any order, through
    `DeliverAnimationEnd`. */
module Animation {
  import opened Util

  type ViewId = nat

  /** What the choreography reads and writes of a view. Coordinates are
      whole pixels; alpha is a real. */
  datatype ViewProps = ViewProps(x: int, y: int, height: int, alpha: real,
                                 selected: bool, visible: bool, text: string)

  type Views = map<ViewId, ViewProps>

  /** One AnimatorCreator: which animation it creates and which listener. */
  datatype Creator =
    | DigitStep(view: ViewId)                                  // fade and lift a digit label
    | UtilStep(target: ViewId, util: ViewId, newValue: string) // slide an overlay showing newValue
    | SelectionStep(target: ViewId, highlight: ViewId)         // move the highlight to target

  /** The three listener kinds; a DigitListener carries the Y and alpha it
      captured in its start hook. */
  datatype Listener =
    | DigitListener(view: ViewId, prevY: int, prevAlpha: real)
    | UtilViewListener(util: ViewId, target: ViewId, newValue: string)
    | SelectionListener(target: ViewId)

  /** The calls into the host, in order; `RunStarted` and `RunFinished` are the
      animator's Callback notifications. */
  datatype Event =
    | RunStarted
    | RunFinished
    | SetStarted(steps: seq<Creator>, delay: nat)
    | ListenerCreated(step: nat)
    | StartHookRan(step: nat)
    | AnimationStarted(step: nat)
    | EndHookRan(step: nat)

  /** A started animation: the listener it reports its end to, the index of
      its step in the set, the view it animates and the start delay set on it. */
  datatype Running = Running(listener: CountingAnimListener, step: nat, view: ViewId, startDelay: Option<nat>)

  /** The state the end hooks change. */
  datatype AnimState = AnimState(views: Views, curView: ViewId, isAnimating: bool)

  function CreatorViews(c: Creator): set<ViewId> {
    match c
    case DigitStep(v) => {v}
    case UtilStep(t, u, _) => {t, u}
    case SelectionStep(t, h) => {t, h}
  }

  function ListenerViews(l: Listener): set<ViewId> {
    match l
    case DigitListener(v, _, _) => {v}
    case UtilViewListener(u, t, _) => {u, t}
    case SelectionListener(t) => {t}
  }

  /** createListener; a fresh DigitListener has not captured anything yet
      (Java's float fields start at 0). */
  function CreateListener(c: Creator): (l: Listener)
    ensures ListenerViews(l) <= CreatorViews(c)
    ensures c.SelectionStep? <==> l.SelectionListener?
  {
    match c
    case DigitStep(v) => DigitListener(v, 0, 0.0)
    case UtilStep(t, u, s) => UtilViewListener(u, t, s)
    case SelectionStep(t, _) => SelectionListener(t)
  }

  function CreateListeners(cs: seq<Creator>): (ls: seq<Listener>)
    ensures |ls| == |cs|
    ensures forall i :: 0 <= i < |cs| ==> ls[i] == CreateListener(cs[i])
  {
    seq(|cs|, i requires 0 <= i < |cs| => CreateListener(cs[i]))
  }

  /** The view whose animate() the step's createAnimator uses. */
  function AnimatedView(c: Creator): (v: ViewId)
    ensures v in CreatorViews(c)
  {
    match c
    case DigitStep(v) => v
    case UtilStep(_, u, _) => u
    case SelectionStep(_, h) => h
  }

  // ---------------------------------------------------------------------------
  // Listener hooks

  /** Every view the listeners name is one of `keys`. */
  predicate Fits(ls: seq<Listener>, keys: set<ViewId>) {
    forall i :: 0 <= i < |ls| ==> ListenerViews(ls[i]) <= keys
  }

  /** onAnimationStart of one listener. */
  function StartHook(l: Listener, views: Views): (r: (Listener, Views))
    requires ListenerViews(l) <= views.Keys
    ensures r.1.Keys == views.Keys
    ensures ListenerViews(r.0) == ListenerViews(l) && (r.0.SelectionListener? <==> l.SelectionListener?)
  {
    match l
    case DigitListener(v, _, _) => (DigitListener(v, views[v].y, views[v].alpha), views)
    case UtilViewListener(u, t, s) =>
      (l, views[u := views[u].(visible := true, text := s, x := views[t].x, y := views[t].y + views[t].height)])
    case SelectionListener(_) => (l, views)
  }

  /** onAnimationEnd of one listener. */
  function EndHook(l: Listener, st: AnimState): (r: AnimState)
    requires ListenerViews(l) <= st.views.Keys
    ensures r.views.Keys == st.views.Keys
    ensures r.curView == st.curView || r.curView in ListenerViews(l)
    ensures !l.SelectionListener? ==> r.curView == st.curView && r.isAnimating == st.isAnimating
  {
    match l
    case DigitListener(v, y, a) => st.(views := st.views[v := st.views[v].(y := y, alpha := a)])
    case UtilViewListener(u, _, _) => st.(views := st.views[u := st.views[u].(visible := false)])
    case SelectionListener(t) => AnimState(st.views[t := st.views[t].(selected := true)], t, false)
  }

  /** The start hooks of `ls`, in list order, each seeing the views the
      previous ones left. */
  function StartHooks(ls: seq<Listener>, views: Views): (r: (seq<Listener>, Views))
    requires Fits(ls, views.Keys)
    ensures |r.0| == |ls| && r.1.Keys == views.Keys
    ensures forall i :: 0 <= i < |ls| ==>
      ListenerViews(r.0[i]) == ListenerViews(ls[i]) && (r.0[i].SelectionListener? <==> ls[i].SelectionListener?)
    decreases |ls|
  {
    if ls == [] then ([], views)
    else
      var pre := StartHooks(ls[..|ls| - 1], views);
      var last := StartHook(ls[|ls| - 1], pre.1);
      (pre.0 + [last.0], last.1)
  }

  lemma StartHooksFit(ls: seq<Listener>, views: Views)
    requires Fits(ls, views.Keys)
    ensures Fits(StartHooks(ls, views).0, views.Keys)
  {
  }

  /** The end hooks of `ls`, in list order. */
  function EndHooks(ls: seq<Listener>, st: AnimState): (r: AnimState)
    requires Fits(ls, st.views.Keys)
    ensures r.views.Keys == st.views.Keys
    ensures st.curView in st.views.Keys ==> r.curView in st.views.Keys
    decreases |ls|
  {
    if ls == [] then st
    else EndHook(ls[|ls| - 1], EndHooks(ls[..|ls| - 1], st))
  }

  /** End hooks that notify no finish leave the busy flag and the current
      view alone: only a SelectionListener ends a run. */
  lemma {:induction false} EndHooksWithoutFinish(ls: seq<Listener>, st: AnimState)
    requires Fits(ls, st.views.Keys) && Finishes(ls) == 0
    ensures EndHooks(ls, st).isAnimating == st.isAnimating && EndHooks(ls, st).curView == st.curView
    decreases |ls|
  {
    if ls != [] {
      assert Fits(ls[..|ls| - 1], st.views.Keys);
      EndHooksWithoutFinish(ls[..|ls| - 1], st);
    }
  }

  /** How many times the end hooks of `ls` notify onAnimationFinished. */
  function Finishes(ls: seq<Listener>): nat
    decreases |ls|
  {
    if ls == [] then 0
    else Finishes(ls[..|ls| - 1]) + (if ls[|ls| - 1].SelectionListener? then 1 else 0)
  }

  /** The log the end hooks of `ls` leave. */
  function EndTrace(ls: seq<Listener>): seq<Event>
    decreases |ls|
  {
    if ls == [] then []
    else
      EndTrace(ls[..|ls| - 1]) + [EndHookRan(|ls| - 1)]
      + (if ls[|ls| - 1].SelectionListener? then [RunFinished] else [])
  }

  /** The step indices of the EndHookRan entries of a log, in log order. */
  function HookSteps(es: seq<Event>): seq<nat>
    decreases |es|
  {
    if es == [] then []
    else HookSteps(es[..|es| - 1]) + (if es[|es| - 1].EndHookRan? then [es[|es| - 1].step] else [])
  }

  lemma {:induction false} HookStepsAppend(a: seq<Event>, b: seq<Event>)
    ensures HookSteps(a + b) == HookSteps(a) + HookSteps(b)
    decreases |b|
  {
    if b == [] {
      assert a + b == a;
    } else {
      assert (a + b)[..|a + b| - 1] == a + b[..|b| - 1];
      HookStepsAppend(a, b[..|b| - 1]);
    }
  }

  /** The counting listener's end phase runs every end hook exactly once, in
      list order; the only other entries are one finished notification per
      selection listener. */
  lemma {:induction false} EndOrder(ls: seq<Listener>)
    ensures |EndTrace(ls)| == |ls| + Finishes(ls)
    ensures |HookSteps(EndTrace(ls))| == |ls|
    ensures forall i :: 0 <= i < |ls| ==> HookSteps(EndTrace(ls))[i] == i
    ensures forall i :: 0 <= i < |EndTrace(ls)| ==> EndTrace(ls)[i].EndHookRan? || EndTrace(ls)[i] == RunFinished
    decreases |ls|
  {
    if ls != [] {
      var pre := ls[..|ls| - 1];
      var tail := [EndHookRan(|ls| - 1)] + (if ls[|ls| - 1].SelectionListener? then [RunFinished] else []);
      EndOrder(pre);
      assert EndTrace(ls) == EndTrace(pre) + tail;
      HookStepsAppend(EndTrace(pre), tail);
      assert HookSteps(tail) == [|ls| - 1] by {
        HookStepsAppend([EndHookRan(|ls| - 1)], tail[1..]);
        assert [EndHookRan(|ls| - 1)][..0] == [];
        assert tail == [EndHookRan(|ls| - 1)] + tail[1..];
        if ls[|ls| - 1].SelectionListener? {
          assert tail[1..][..0] == [];
        }
      }
    }
  }

  // ---------------------------------------------------------------------------
  // AnimatorSet.start as a trace

  function ListenerCreations(n: nat): (es: seq<Event>)
    ensures |es| == n
    ensures forall i :: 0 <= i < n ==> es[i] == ListenerCreated(i)
  {
    seq(n, i requires 0 <= i < n => ListenerCreated(i))
  }

  function Launches(n: nat): seq<Event>
  {
    if n == 0 then [] else Launches(n - 1) + [StartHookRan(n - 1), AnimationStarted(n - 1)]
  }

  lemma LogAssoc(a: seq<Event>, b: seq<Event>, c: seq<Event>)
    ensures a + b + c == a + (b + c)
  {
  }

  /** The log of AnimatorSet.start on n steps, after its SetStarted entry. */
  function StartTrace(n: nat): seq<Event>
  {
    ListenerCreations(n) + Launches(n)
  }

  lemma {:induction false} LaunchesAt(n: nat)
    ensures |Launches(n)| == 2 * n
    ensures forall i :: 0 <= i < n ==>
      Launches(n)[2 * i] == StartHookRan(i) && Launches(n)[2 * i + 1] == AnimationStarted(i)
  {
    if n > 0 {
      LaunchesAt(n - 1);
    }
  }

  /** AnimatorSet.start creates every listener before any start hook runs;
      then, step by step in registration order, a step's start hook runs
      immediately before its animation is started. */
  lemma StartOrder(n: nat)
    ensures |StartTrace(n)| == 3 * n
    ensures forall i :: 0 <= i < n ==> StartTrace(n)[i] == ListenerCreated(i)
    ensures forall i :: 0 <= i < n ==>
      StartTrace(n)[n + 2 * i] == StartHookRan(i) && StartTrace(n)[n + 2 * i + 1] == AnimationStarted(i)
  {
    LaunchesAt(n);
  }

  function Launched(c: CountingAnimListener, cs: seq<Creator>, delay: nat): (rs: seq<Running>)
    ensures |rs| == |cs|
    decreases |cs|
  {
    if cs == [] then []
    else Launched(c, cs[..|cs| - 1], delay)
         + [Running(c, |cs| - 1, AnimatedView(cs[|cs| - 1]), if delay > 0 then Some(delay) else None)]
  }

  /** Every animation a set starts reports to that set's counting listener,
      carries its own step index and animated view, and gets the set's delay
      only when the delay is positive. */
  lemma {:induction false} LaunchedAt(c: CountingAnimListener, cs: seq<Creator>, delay: nat)
    ensures forall i :: 0 <= i < |cs| ==>
      Launched(c, cs, delay)[i] == Running(c, i, AnimatedView(cs[i]), if delay > 0 then Some(delay) else None)
    decreases |cs|
  {
    if cs != [] {
      LaunchedAt(c, cs[..|cs| - 1], delay);
    }
  }

  /** The animation at index `n` of `rs` belongs to a set of `steps` started
      over `views`: its counting listener holds the hooked listeners of the
      steps, waits for one end per step and has seen none yet. */
  ghost predicate RunPending(rs: seq<Running>, n: nat, steps: seq<Creator>, views: Views)
    reads if n < |rs| then {rs[n].listener} else {}
  {
    && n < |rs| && Fits(CreateListeners(steps), views.Keys)
    && var c := rs[n].listener;
       c.count == |steps| && c.curCount == 0 && c.listeners == StartHooks(CreateListeners(steps), views).0
  }

  /** The animations a new set launches, behind the ones already running,
      start a pending run of its steps. */
  lemma RunPendingLaunched(rs: seq<Running>, c: CountingAnimListener, steps: seq<Creator>, delay: nat, views: Views)
    requires 0 < |steps| && Fits(CreateListeners(steps), views.Keys)
    requires c.count == |steps| && c.curCount == 0 && c.listeners == StartHooks(CreateListeners(steps), views).0
    ensures RunPending(rs + Launched(c, steps, delay), |rs|, steps, views)
  {
    LaunchedAt(c, steps, delay);
    assert (rs + Launched(c, steps, delay))[|rs|] == Launched(c, steps, delay)[0];
  }

  /** Animations appended after a pending run leave it pending. */
  lemma RunPendingKept(rs: seq<Running>, rs': seq<Running>, n: nat, steps: seq<Creator>, views: Views)
    requires RunPending(rs, n, steps, views) && |rs| <= |rs'| && rs'[..|rs|] == rs
    ensures RunPending(rs', n, steps, views)
  {
    assert rs'[n] == rs'[..|rs|][n];
  }

  /** Number of running animations that report to `c`. */
  function Count(rs: seq<Running>, c: CountingAnimListener): nat
    decreases |rs|
  {
    if rs == [] then 0 else Count(rs[..|rs| - 1], c) + (if rs[|rs| - 1].listener == c then 1 else 0)
  }

  lemma {:induction false} CountAppend(a: seq<Running>, b: seq<Running>, c: CountingAnimListener)
    ensures Count(a + b, c) == Count(a, c) + Count(b, c)
    decreases |b|
  {
    if b == [] {
      assert a + b == a;
    } else {
      assert (a + b)[..|a + b| - 1] == a + b[..|b| - 1];
      assert (a + b)[|a + b| - 1] == b[|b| - 1];
      CountAppend(a, b[..|b| - 1], c);
    }
  }

  lemma {:induction false} CountLaunched(c: CountingAnimListener, cs: seq<Creator>, delay: nat, d: CountingAnimListener)
    ensures Count(Launched(c, cs, delay), d) == if c == d then |cs| else 0
    decreases |cs|
  {
    if cs != [] {
      var rs := Launched(c, cs, delay);
      assert rs[..|rs| - 1] == Launched(c, cs[..|cs| - 1], delay);
      CountLaunched(c, cs[..|cs| - 1], delay, d);
    }
  }

  lemma {:induction false} CountPositive(rs: seq<Running>, i: nat)
    requires i < |rs|
    ensures Count(rs, rs[i].listener) >= 1
    decreases |rs|
  {
    if i < |rs| - 1 {
      CountPositive(rs[..|rs| - 1], i);
    }
  }

  lemma {:induction false} CountAbsent(rs: seq<Running>, c: CountingAnimListener)
    requires forall i :: 0 <= i < |rs| ==> rs[i].listener != c
    ensures Count(rs, c) == 0
    decreases |rs|
  {
    if rs != [] {
      CountAbsent(rs[..|rs| - 1], c);
    }
  }

  /** Removing the k-th running animation lowers the count of its own
      listener by one and leaves every other count alone. */
  lemma CountRemove(rs: seq<Running>, k: nat, c: CountingAnimListener)
    requires k < |rs|
    ensures Count(rs[..k] + rs[k + 1..], c) == Count(rs, c) - (if rs[k].listener == c then 1 else 0)
  {
    assert rs == rs[..k] + [rs[k]] + rs[k + 1..];
    CountAppend(rs[..k] + [rs[k]], rs[k + 1..], c);
    CountAppend(rs[..k], [rs[k]], c);
    CountAppend(rs[..k], rs[k + 1..], c);
    assert ([] + [rs[k]])[..0] == [];
    assert Count([rs[k]], c) == (if rs[k].listener == c then 1 else 0) by {
      assert [rs[k]][..0] == [];
    }
  }

  /** Every counting listener that still has running animations in `rs` has
      seen exactly as many end events as it is still missing from its count. */
  ghost predicate Accounted(rs: seq<Running>, host: Host)
    reads set i | 0 <= i < |rs| :: rs[i].listener
  {
    forall i :: 0 <= i < |rs| ==>
      && rs[i].listener.host == host
      && rs[i].listener.Valid()
      && rs[i].listener.curCount + Count(rs, rs[i].listener) == rs[i].listener.count
  }

  /** Starting a set's animations, all reporting to a new counting listener
      that has seen no end yet, keeps every count accounted for. */
  lemma LaunchAccounted(rs: seq<Running>, counting: CountingAnimListener, creators: seq<Creator>, delay: nat, host: Host)
    requires Accounted(rs, host)
    requires forall i :: 0 <= i < |rs| ==> rs[i].listener != counting
    requires counting.host == host && counting.curCount == 0 && counting.count == |creators|
    requires |counting.listeners| == |creators| && Fits(counting.listeners, host.ids)
    ensures Accounted(rs + Launched(counting, creators, delay), host)
  {
    var added := Launched(counting, creators, delay);
    var all := rs + added;
    LaunchedAt(counting, creators, delay);
    forall i | 0 <= i < |all|
      ensures all[i].listener.host == host && all[i].listener.Valid()
      ensures all[i].listener.curCount + Count(all, all[i].listener) == all[i].listener.count
    {
      CountAppend(rs, added, all[i].listener);
      CountLaunched(counting, creators, delay, all[i].listener);
      if i < |rs| {
        assert all[i] == rs[i];
      } else {
        assert all[i] == added[i - |rs|];
        CountAbsent(rs, counting);
      }
    }
  }

  // ---------------------------------------------------------------------------
  // The host toolkit

  class Host {
    /** The views of the layout; their set never changes. */
    const ids: set<ViewId>
    var views: Views
    /** Animations started and not yet ended. */
    var running: seq<Running>
    ghost var log: seq<Event>

    constructor (layout: Views)
      ensures ids == layout.Keys && views == layout && running == [] && log == []
      ensures Valid()
    {
      ids := layout.Keys;
      views := layout;
      running := [];
      log := [];
    }

    ghost function Listeners(): set<CountingAnimListener>
      reads this
    {
      set i | 0 <= i < |running| :: running[i].listener
    }

    /** Every counting listener that still has running animations has seen
        exactly as many end events as it is still missing from its count. */
    ghost predicate Valid()
      reads this, Listeners()
    {
      views.Keys == ids && Accounted(running, this)
    }
  }

  // ---------------------------------------------------------------------------
  // CountingAnimListener

  class CountingAnimListener {
    const host: Host
    const count: nat
    /** The set's listeners; shared with AnimatorSet.start, which updates them
        in its start hooks. */
    var listeners: seq<Listener>
    var curCount: nat

    ghost predicate Valid()
      reads this
    {
      |listeners| == count && curCount < count && Fits(listeners, host.ids)
    }

    constructor (count: nat, listeners: seq<Listener>, host: Host)
      ensures this.count == count && this.listeners == listeners && this.host == host && curCount == 0
    {
      this.count := count;
      this.listeners := listeners;
      this.host := host;
      curCount := 0;
    }

    /** One end event of one of the set's animations. The count-th event resets
        the counter and runs every listener's end hook, in list order. */
    method OnAnimationEnd(anim: DigitAnimator) returns (finished: nat)
      requires Valid() && anim.host == host && host.views.Keys == host.ids
      modifies this, anim, host
      ensures Valid() && listeners == old(listeners) && host.views.Keys == host.ids
      ensures host.running == old(host.running)
      ensures old(curCount) + 1 < count ==>
        curCount == old(curCount) + 1 && finished == 0 &&
        anim.State() == old(anim.State()) && host.log == old(host.log)
      ensures old(curCount) + 1 == count ==>
        curCount == 0 && finished == Finishes(listeners) &&
        anim.State() == EndHooks(listeners, old(anim.State())) &&
        host.log == old(host.log) + EndTrace(listeners)
    {
      curCount := curCount + 1;
      finished := 0;
      if curCount == count {
        curCount := 0;
        for i := 0 to |listeners|
          invariant listeners == old(listeners) && curCount == 0
          invariant anim.State() == EndHooks(listeners[..i], old(anim.State()))
          invariant finished == Finishes(listeners[..i])
          invariant host.log == old(host.log) + EndTrace(listeners[..i])
          invariant host.running == old(host.running) && host.views.Keys == host.ids
        {
          EndHooksStep(listeners, i, old(anim.State()));
          host.log := host.log + [EndHookRan(i)];
          var f := ListenerOnAnimationEnd(listeners[i], anim);
          finished := finished + f;
          LogAssoc(old(host.log), EndTrace(listeners[..i]), [EndHookRan(i)]);
          LogAssoc(old(host.log), EndTrace(listeners[..i]) + [EndHookRan(i)],
                   if listeners[i].SelectionListener? then [RunFinished] else []);
        }
        assert listeners[..|listeners|] == listeners;
      }
    }
  }

  /** The onAnimationEnd of one listener: DigitListener restores what it
      captured, UtilViewListener hides its overlay, SelectionListener selects
      its target, makes it the current view and ends the run. */
  method ListenerOnAnimationEnd(l: Listener, anim: DigitAnimator) returns (finished: nat)
    requires ListenerViews(l) <= anim.host.views.Keys
    modifies anim, anim.host
    ensures anim.State() == EndHook(l, old(anim.State()))
    ensures finished == if l.SelectionListener? then 1 else 0
    ensures anim.host.log == old(anim.host.log) + (if l.SelectionListener? then [RunFinished] else [])
    ensures anim.host.running == old(anim.host.running)
  {
    var host := anim.host;
    finished := 0;
    match l
    case DigitListener(v, y, a) =>
      host.views := host.views[v := host.views[v].(y := y, alpha := a)];
    case UtilViewListener(u, _, _) =>
      host.views := host.views[u := host.views[u].(visible := false)];
    case SelectionListener(t) =>
      host.views := host.views[t := host.views[t].(selected := true)];
      anim.curView := t;
      anim.OnAnimationFinished();
      finished := 1;
  }

  /** The host ends the k-th running animation: it reports to its set's
      counting listener. The set's end hooks fire exactly when this was the
      last of the set's animations still running, whatever the order in which
      the others ended. */
  method DeliverAnimationEnd(anim: DigitAnimator, k: nat) returns (fired: bool, finished: nat)
    requires anim.Valid() && k < |anim.host.running|
    modifies anim, anim.host, anim.host.running[k].listener
    ensures anim.Valid()
    ensures anim.host.running == old(anim.host.running[..k] + anim.host.running[k + 1..])
    ensures var c := old(anim.host.running[k].listener);
      c.host == anim.host && c.Valid() && c.listeners == old(c.listeners)
    ensures fired <==> Count(old(anim.host.running), old(anim.host.running[k].listener)) == 1
    ensures !fired ==>
      finished == 0 && anim.State() == old(anim.State()) && anim.host.log == old(anim.host.log)
    ensures fired ==>
      var c := old(anim.host.running[k].listener);
      finished == Finishes(c.listeners) &&
      anim.State() == EndHooks(c.listeners, old(anim.State())) &&
      anim.host.log == old(anim.host.log) + EndTrace(c.listeners)
  {
    var host := anim.host;
    ghost var rs := host.running;
    var c := host.running[k].listener;
    CountPositive(rs, k);
    host.running := host.running[..k] + host.running[k + 1..];
    fired := c.curCount + 1 == c.count;
    finished := c.OnAnimationEnd(anim);
    forall i | 0 <= i < |host.running|
      ensures host.running[i].listener.host == host && host.running[i].listener.Valid()
      ensures host.running[i].listener.curCount + Count(host.running, host.running[i].listener)
              == host.running[i].listener.count
    {
      var j := if i < k then i else i + 1;
      assert host.running[i] == rs[j];
      CountRemove(rs, k, rs[j].listener);
      if rs[j].listener == c && fired {
        CountPositive(host.running, i);
      }
    }
  }

  // ---------------------------------------------------------------------------
  // AnimatorSet

  datatype SetCreation = Created(animatorSet: AnimatorSet) | Rejected(message: string)

  class AnimatorSet {
    const delay: nat
    var creators: seq<Creator>

    /** The checked constructor, past its check. */
    constructor (delay: nat)
      ensures this.delay == delay && creators == []
    {
      this.delay := delay;
      creators := [];
    }

    /** The no-argument constructor: delay 0. */
    constructor Default()
      ensures delay == 0 && creators == []
    {
      delay := 0;
      creators := [];
    }

    /** AnimatorSet(int delay): a negative delay is an IllegalArgumentException. */
    static method Create(delay: int) returns (r: SetCreation)
      ensures r.Rejected? <==> delay < 0
      ensures r.Rejected? ==> r.message == "Delay should not be negative"
      ensures r.Created? ==> fresh(r.animatorSet) && r.animatorSet.delay == delay && r.animatorSet.creators == []
    {
      if delay < 0 {
        return Rejected("Delay should not be negative");
      }
      var s := new AnimatorSet(delay);
      r := Created(s);
    }

    method Add(creator: Creator)
      modifies this
      ensures creators == old(creators) + [creator]
    {
      creators := creators + [creator];
    }

    /** Creates every listener, then for each step in order runs its start
        hook and starts its animation, reporting to one shared counting
        listener. */
    method Start(host: Host) returns (counting: CountingAnimListener)
      requires host.Valid()
      requires forall c <- creators :: CreatorViews(c) <= host.ids
      modifies host
      ensures host.Valid()
      ensures fresh(counting) && counting.host == host && counting.count == |creators| && counting.curCount == 0
      ensures (counting.listeners, host.views) == StartHooks(CreateListeners(creators), old(host.views))
      ensures host.running == old(host.running) + Launched(counting, creators, delay)
      ensures host.log == old(host.log) + [SetStarted(creators, delay)] + StartTrace(|creators|)
      ensures 0 < |creators| ==> RunPending(host.running, |old(host.running)|, creators, old(host.views))
    {
      ghost var old0 := host.running;
      ghost var views0 := host.views;
      counting := Prepare(host);
      var created := counting.listeners;
      var hooked := LaunchAll(host, counting, created);
      LogAssoc(old(host.log) + [SetStarted(creators, delay)], ListenerCreations(|creators|), Launches(|creators|));
      counting.listeners := hooked;
      StartHooksFit(created, views0);
      assert Accounted(old0, host);
      LaunchAccounted(old0, counting, creators, delay, host);
      if 0 < |creators| {
        RunPendingLaunched(old0, counting, creators, delay, views0);
      }
    }

    /** The first part of start: the set is logged, its listeners are
        created and a counting listener over them is made. */
    method Prepare(host: Host) returns (counting: CountingAnimListener)
      requires forall c <- creators :: CreatorViews(c) <= host.ids
      modifies host
      ensures fresh(counting) && counting.host == host && counting.count == |creators| && counting.curCount == 0
      ensures counting.listeners == CreateListeners(creators) && Fits(counting.listeners, host.ids)
      ensures host.log == old(host.log) + [SetStarted(creators, delay)] + ListenerCreations(|creators|)
      ensures host.views == old(host.views) && host.running == old(host.running)
      ensures forall i :: 0 <= i < |host.running| ==> host.running[i].listener != counting
    {
      host.log := host.log + [SetStarted(creators, delay)];
      var listeners := CreateAll(host);
      counting := new CountingAnimListener(|creators|, listeners, host);
    }

    /** One listener per step, in order. */
    method CreateAll(host: Host) returns (listeners: seq<Listener>)
      requires forall c <- creators :: CreatorViews(c) <= host.ids
      modifies host
      ensures listeners == CreateListeners(creators)
      ensures Fits(listeners, host.ids)
      ensures host.log == old(host.log) + ListenerCreations(|creators|)
      ensures host.views == old(host.views) && host.running == old(host.running)
    {
      listeners := [];
      for i := 0 to |creators|
        invariant listeners == CreateListeners(creators)[..i]
        invariant host.log == old(host.log) + ListenerCreations(i)
        invariant host.views == old(host.views) && host.running == old(host.running)
      {
        listeners := listeners + [CreateListener(creators[i])];
        host.log := host.log + [ListenerCreated(i)];
        assert ListenerCreations(i + 1) == ListenerCreations(i) + [ListenerCreated(i)];
      }
      assert listeners == CreateListeners(creators);
      forall i | 0 <= i < |listeners| ensures ListenerViews(listeners[i]) <= host.ids {
        assert creators[i] in creators;
        assert listeners[i] == CreateListener(creators[i]);
      }
    }

    /** The second half of start: step by step, the start hook, then the
        animation. */
    method LaunchAll(host: Host, counting: CountingAnimListener, listeners: seq<Listener>) returns (hooked: seq<Listener>)
      requires |listeners| == |creators| && host.views.Keys == host.ids
      requires Fits(listeners, host.ids)
      modifies host
      ensures (hooked, host.views) == StartHooks(listeners, old(host.views))
      ensures host.running == old(host.running) + Launched(counting, creators, delay)
      ensures host.log == old(host.log) + Launches(|creators|)
    {
      ghost var views0 := host.views;
      hooked := [];
      assert creators[..0] == [] && old(host.running) + [] == old(host.running);
      for i := 0 to |creators|
        invariant (hooked, host.views) == StartHooks(listeners[..i], views0)
        invariant host.running == old(host.running) + Launched(counting, creators[..i], delay)
        invariant host.log == old(host.log) + Launches(i)
      {
        StartHooksStep(listeners, i, views0);
        LaunchedStep(counting, creators, i, delay);
        var l := StartStep(host, counting, i, listeners[i]);
        hooked := hooked + [l];
      }
      assert listeners[..|creators|] == listeners && creators[..|creators|] == creators;
    }

    /** One step of start: the listener's start hook, then the step's
        animation is started. */
    method StartStep(host: Host, counting: CountingAnimListener, i: nat, listener: Listener) returns (hooked: Listener)
      requires i < |creators| && ListenerViews(listener) <= host.views.Keys
      modifies host
      ensures (hooked, host.views) == StartHook(listener, old(host.views))
      ensures host.running == old(host.running) + [Running(counting, i, AnimatedView(creators[i]), if delay > 0 then Some(delay) else None)]
      ensures host.log == old(host.log) + [StartHookRan(i), AnimationStarted(i)]
    {
      var step := StartHook(listener, host.views);
      hooked := step.0;
      host.views := step.1;
      host.log := host.log + [StartHookRan(i)];
      var creator := creators[i];
      host.running := host.running + [Running(counting, i, AnimatedView(creator), if delay > 0 then Some(delay) else None)];
      host.log := host.log + [AnimationStarted(i)];
    }
  }

  // ---------------------------------------------------------------------------
  // DigitAnimator

  /** startSelectionAndValueSwitchAnimators (with a new value) or
      startSelectionAnimator (without): the steps of a run from `cur` to `target`. */
  function SelectionRun(cur: ViewId, target: ViewId, highlight: ViewId, util: ViewId, newValue: Option<string>): seq<Creator>
  {
    if newValue.None? then [SelectionStep(target, highlight)]
    else [DigitStep(cur), UtilStep(cur, util, newValue.value), SelectionStep(target, highlight)]
  }

  /** The calls into the host that animateTo makes when idle: a synchronous
      start and finish when the target is already current, otherwise the
      start notification and one AnimatorSet.start of the run's steps. */
  function RunTrace(cur: ViewId, target: ViewId, highlight: ViewId, util: ViewId, newValue: Option<string>): seq<Event> {
    if target == cur then [RunStarted, RunFinished]
    else
      var steps := SelectionRun(cur, target, highlight, util, newValue);
      [RunStarted, SetStarted(steps, 0)] + StartTrace(|steps|)
  }

  /** animateValue: the steps that switch the digit shown by `view`. */
  function ValueRun(view: ViewId, util: ViewId, newValue: string): seq<Creator>
  {
    [DigitStep(view), UtilStep(view, util, newValue)]
  }

  /** A move or value-switch run ends with its only selection step; the
      special-case switch has none, so it never ends a run. */
  lemma RunSteps(cur: ViewId, target: ViewId, highlight: ViewId, util: ViewId, newValue: Option<string>, newText: string)
    ensures var steps := SelectionRun(cur, target, highlight, util, newValue);
      && |steps| == (if newValue.None? then 1 else 3)
      && steps[|steps| - 1] == SelectionStep(target, highlight)
      && forall i :: 0 <= i < |steps| - 1 ==> !steps[i].SelectionStep?
    ensures var steps := ValueRun(cur, util, newText);
      |steps| == 2 && forall i :: 0 <= i < |steps| ==> !steps[i].SelectionStep?
  {
  }

  /** An idle animateTo notifies its finish during the call iff the target is
      already current; otherwise its second call into the host starts the
      run's set with delay 0. */
  lemma RunTraceNotifies(cur: ViewId, target: ViewId, highlight: ViewId, util: ViewId, newValue: Option<string>)
    ensures var es := RunTrace(cur, target, highlight, util, newValue);
      && 2 <= |es| && es[0] == RunStarted
      && (es[1] == RunFinished <==> target == cur)
      && (target != cur ==> es[1] == SetStarted(SelectionRun(cur, target, highlight, util, newValue), 0))
  {
  }

  function Deselect(views: Views, v: ViewId): Views
    requires v in views
  {
    views[v := views[v].(selected := false)]
  }

  class DigitAnimator {
    const host: Host
    var curView: ViewId
    const animatedView: ViewId
    const digitAnimationUtil: ViewId
    const digitAnimationUtilSpecialCase: ViewId
    const duration: nat
    var isAnimating: bool

    ghost predicate Valid()
      reads this, host, host.Listeners()
    {
      && host.Valid()
      && curView in host.ids && animatedView in host.ids
      && digitAnimationUtil in host.ids && digitAnimationUtilSpecialCase in host.ids
    }

    function State(): AnimState
      reads this, host
    {
      AnimState(host.views, curView, isAnimating)
    }

    /** The constructor and init(): the highlight is put over the current
        view and the current view is selected. */
    constructor (host: Host, curView: ViewId, animatedView: ViewId, util: ViewId, utilSpecial: ViewId)
      requires host.Valid() && curView in host.ids && animatedView in host.ids
      requires util in host.ids && utilSpecial in host.ids
      modifies host
      ensures Valid() && this.host == host && this.curView == curView && this.animatedView == animatedView
      ensures digitAnimationUtil == util && digitAnimationUtilSpecialCase == utilSpecial
      ensures duration == 200 && !isAnimating
      ensures var v1 := old(host.views)[animatedView := old(host.views)[animatedView].(x := old(host.views)[curView].x)];
              host.views == v1[curView := v1[curView].(selected := true)]
      ensures host.running == old(host.running) && host.log == old(host.log)
    {
      this.host := host;
      this.curView := curView;
      this.animatedView := animatedView;
      digitAnimationUtil := util;
      digitAnimationUtilSpecialCase := utilSpecial;
      duration := 200;
      isAnimating := false;
      new;
      host.views := host.views[animatedView := host.views[animatedView].(x := host.views[curView].x)];
      host.views := host.views[curView := host.views[curView].(selected := true)];
    }

    method OnAnimationStarted()
      requires Valid()
      modifies this, host
      ensures Valid()
      ensures isAnimating && curView == old(curView)
      ensures host.views == Deselect(old(host.views), curView)
      ensures host.running == old(host.running) && host.log == old(host.log) + [RunStarted]
    {
      host.log := host.log + [RunStarted];
      host.views := Deselect(host.views, curView);
      isAnimating := true;
    }

    method OnAnimationFinished()
      modifies this, host
      ensures !isAnimating && curView == old(curView)
      ensures host.views == old(host.views) && host.running == old(host.running)
      ensures host.log == old(host.log) + [RunFinished]
    {
      host.log := host.log + [RunFinished];
      isAnimating := false;
    }

    method StartSelectionAnimator(target: ViewId)
      requires Valid() && target in host.ids
      modifies host
      ensures Valid()
      ensures var steps := SelectionRun(curView, target, animatedView, digitAnimationUtil, None);
        && |host.running| == |old(host.running)| + 1
        && fresh(host.running[|old(host.running)|].listener)
        && host.running == old(host.running) + Launched(host.running[|old(host.running)|].listener, steps, 0)
        && host.views == StartHooks(CreateListeners(steps), old(host.views)).1
        && host.log == old(host.log) + [SetStarted(steps, 0)] + StartTrace(|steps|)
        && RunPending(host.running, |old(host.running)|, steps, old(host.views))
    {
      var s := new AnimatorSet.Default();
      s.Add(SelectionStep(target, animatedView));
      assert s.creators == SelectionRun(curView, target, animatedView, digitAnimationUtil, None);
      var counting := s.Start(host);
      assert host.running[|old(host.running)|].listener == counting by { LaunchedAt(counting, s.creators, 0); }
    }

    method StartSelectionAndValueSwitchAnimators(target: ViewId, newValue: string)
      requires Valid() && target in host.ids
      modifies host
      ensures Valid()
      ensures var steps := SelectionRun(curView, target, animatedView, digitAnimationUtil, Some(newValue));
        && |host.running| == |old(host.running)| + 3
        && fresh(host.running[|old(host.running)|].listener)
        && host.running == old(host.running) + Launched(host.running[|old(host.running)|].listener, steps, 0)
        && host.views == StartHooks(CreateListeners(steps), old(host.views)).1
        && host.log == old(host.log) + [SetStarted(steps, 0)] + StartTrace(|steps|)
        && RunPending(host.running, |old(host.running)|, steps, old(host.views))
    {
      var s := new AnimatorSet.Default();
      s.Add(DigitStep(curView));
      s.Add(UtilStep(curView, digitAnimationUtil, newValue));
      s.Add(SelectionStep(target, animatedView));
      assert s.creators == SelectionRun(curView, target, animatedView, digitAnimationUtil, Some(newValue));
      var counting := s.Start(host);
      assert host.running[|old(host.running)|].listener == counting by { LaunchedAt(counting, s.creators, 0); }
    }

    /** animateTo: ignored while a run is in flight; otherwise the run starts
        (callback, deselection, busy flag) and either ends at once, when the
        target is the current view, or is handed to a new AnimatorSet. Returns
        whether the run's finished callback fired during the call. */
    method AnimateTo(target: ViewId, newValue: Option<string>) returns (finished: bool)
      requires Valid() && target in host.ids
      modifies this, host
      ensures Valid()
      ensures old(isAnimating) ==>
        !finished && State() == old(State()) && host.running == old(host.running) && host.log == old(host.log)
      ensures !old(isAnimating) && target == old(curView) ==>
        && finished && !isAnimating && curView == old(curView)
        && host.views == Deselect(old(host.views), old(curView))
        && host.running == old(host.running)
        && host.log == old(host.log) + [RunStarted, RunFinished]
      ensures !old(isAnimating) && target != old(curView) ==>
        var steps := SelectionRun(old(curView), target, animatedView, digitAnimationUtil, newValue);
        && !finished && isAnimating && curView == old(curView)
        && |host.running| == |old(host.running)| + |steps|
        && fresh(host.running[|old(host.running)|].listener)
        && host.running == old(host.running) + Launched(host.running[|old(host.running)|].listener, steps, 0)
        && host.views == StartHooks(CreateListeners(steps), Deselect(old(host.views), old(curView))).1
        && host.log == old(host.log) + [RunStarted, SetStarted(steps, 0)] + StartTrace(|steps|)
        && RunPending(host.running, |old(host.running)|, steps, Deselect(old(host.views), old(curView)))
    {
      finished := false;
      if !isAnimating {
        OnAnimationStarted();
        if target == curView {
          OnAnimationFinished();
          finished := true;
        } else if newValue.Some? {
          StartSelectionAndValueSwitchAnimators(target, newValue.value);
        } else {
          StartSelectionAnimator(target);
        }
      }
    }

    /** animateValue: switches the digit shown by `view` to `newValue` through
        the special-case overlay, after `delay`; a negative delay is rejected
        (`ok` false) before anything happens. Neither the busy flag nor the
        current view is touched. */
    method AnimateValue(view: ViewId, newValue: string, delay: int) returns (ok: bool)
      requires Valid() && view in host.ids
      modifies host
      ensures Valid()
      ensures ok <==> 0 <= delay
      ensures !ok ==> host.views == old(host.views) && host.running == old(host.running) && host.log == old(host.log)
      ensures ok ==>
        var steps := ValueRun(view, digitAnimationUtilSpecialCase, newValue);
        && |host.running| == |old(host.running)| + 2
        && fresh(host.running[|old(host.running)|].listener)
        && host.running == old(host.running) + Launched(host.running[|old(host.running)|].listener, steps, delay)
        && host.views == StartHooks(CreateListeners(steps), old(host.views)).1
        && host.log == old(host.log) + [SetStarted(steps, delay)] + StartTrace(|steps|)
        && RunPending(host.running, |old(host.running)|, steps, old(host.views))
    {
      var created := AnimatorSet.Create(delay);
      match created
      case Rejected(_) =>
        ok := false;
      case Created(s) =>
        s.Add(DigitStep(view));
        s.Add(UtilStep(view, digitAnimationUtilSpecialCase, newValue));
        assert s.creators == ValueRun(view, digitAnimationUtilSpecialCase, newValue);
        var counting := s.Start(host);
        assert host.running[|old(host.running)|].listener == counting by { LaunchedAt(counting, s.creators, delay); }
        ok := true;
    }
  }

  // ---------------------------------------------------------------------------
  // What a run does, end to end

  lemma StartHooksStep(ls: seq<Listener>, i: nat, views: Views)
    requires i < |ls| && Fits(ls, views.Keys)
    ensures Fits(ls[..i], views.Keys) && Fits(ls[..i + 1], views.Keys)
    ensures var pre := StartHooks(ls[..i], views);
      var last := StartHook(ls[i], pre.1);
      StartHooks(ls[..i + 1], views) == (pre.0 + [last.0], last.1)
  {
    assert ls[..i + 1][..i] == ls[..i];
  }

  lemma EndHooksStep(ls: seq<Listener>, i: nat, st: AnimState)
    requires i < |ls| && Fits(ls, st.views.Keys)
    ensures Fits(ls[..i], st.views.Keys) && Fits(ls[..i + 1], st.views.Keys)
    ensures EndHooks(ls[..i + 1], st) == EndHook(ls[i], EndHooks(ls[..i], st))
    ensures Finishes(ls[..i + 1]) == Finishes(ls[..i]) + (if ls[i].SelectionListener? then 1 else 0)
    ensures EndTrace(ls[..i + 1]) == EndTrace(ls[..i]) + [EndHookRan(i)] + (if ls[i].SelectionListener? then [RunFinished] else [])
  {
    assert ls[..i + 1][..i] == ls[..i];
  }

  lemma LaunchedStep(c: CountingAnimListener, cs: seq<Creator>, i: nat, delay: nat)
    requires i < |cs|
    ensures Launched(c, cs[..i + 1], delay)
            == Launched(c, cs[..i], delay) + [Running(c, i, AnimatedView(cs[i]), if delay > 0 then Some(delay) else None)]
  {
    assert cs[..i + 1][..i] == cs[..i];
  }

  /** The start hooks of a value-switch run: the digit listener captures the
      label's Y and alpha, and the overlay is shown with the new value one
      label height below the label. */
  lemma SwitchRunStarts(cur: ViewId, target: ViewId, highlight: ViewId, util: ViewId, newValue: string, views: Views)
    requires {cur, target, highlight, util} <= views.Keys
    ensures var started := StartHooks(CreateListeners(SelectionRun(cur, target, highlight, util, Some(newValue))), views);
      && started.0 == [DigitListener(cur, views[cur].y, views[cur].alpha), UtilViewListener(util, cur, newValue), SelectionListener(target)]
      && started.1 == views[util := views[util].(visible := true, text := newValue, x := views[cur].x, y := views[cur].y + views[cur].height)]
  {
    var ls := CreateListeners(SelectionRun(cur, target, highlight, util, Some(newValue)));
    assert Fits(ls, views.Keys);
    assert ls[..0] == [] && ls[..3] == ls;
    StartHooksStep(ls, 0, views);
    StartHooksStep(ls, 1, views);
    StartHooksStep(ls, 2, views);
  }

  /** The end hooks of a value-switch run restore the label's captured Y and
      alpha, hide the overlay, select the target and make it current, and
      end the run with one finished notification. */
  lemma SwitchRunEnds(cur: ViewId, target: ViewId, util: ViewId, newValue: string, y: int, alpha: real, st: AnimState)
    requires {cur, target, util} <= st.views.Keys
    ensures var ls := [DigitListener(cur, y, alpha), UtilViewListener(util, cur, newValue), SelectionListener(target)];
      var ended := EndHooks(ls, st);
      && Finishes(ls) == 1
      && ended.curView == target && !ended.isAnimating && ended.views[target].selected
      && !ended.views[util].visible && ended.views[cur].y == y && ended.views[cur].alpha == alpha
  {
    var ls := [DigitListener(cur, y, alpha), UtilViewListener(util, cur, newValue), SelectionListener(target)];
    assert Fits(ls, st.views.Keys);
    assert ls[..0] == [] && ls[..3] == ls;
    EndHooksStep(ls, 0, st);
    EndHooksStep(ls, 1, st);
    EndHooksStep(ls, 2, st);
  }

  /** A move run (no new value) or a value-switch run (three steps: digit fade,
      overlay and selection) notifies onAnimationFinished exactly once, after
      which the target is selected and current and the busy flag is clear.
      The digit label gets back the Y and alpha it had when the run started
      and the overlay, shown at the label's position one height below, is
      hidden again, whatever the animations did to the views meanwhile. */
  lemma SelectionRunEnds(cur: ViewId, target: ViewId, highlight: ViewId, util: ViewId,
                         newValue: Option<string>, views: Views, st: AnimState)
    requires {cur, target, highlight, util} <= views.Keys && st.views.Keys == views.Keys
    ensures var steps := SelectionRun(cur, target, highlight, util, newValue);
      var started := StartHooks(CreateListeners(steps), views);
      var ended := EndHooks(started.0, st);
      && |steps| == (if newValue.None? then 1 else 3)
      && Finishes(started.0) == 1
      && ended.curView == target && !ended.isAnimating && ended.views[target].selected
      && (newValue.Some? ==>
            && started.1[util].visible && started.1[util].text == newValue.value
            && started.1[util].x == views[cur].x && started.1[util].y == views[cur].y + views[cur].height
            && !ended.views[util].visible
            && ended.views[cur].y == views[cur].y && ended.views[cur].alpha == views[cur].alpha)
  {
    if newValue.None? {
      var ls := CreateListeners(SelectionRun(cur, target, highlight, util, newValue));
      assert Fits(ls, views.Keys);
      var e := StartHooks(ls, views).0;
      assert Fits(e, st.views.Keys);
      assert ls[..0] == [] && ls[..1] == ls && e[..0] == [] && e[..1] == e;
      StartHooksStep(ls, 0, views);
      EndHooksStep(e, 0, st);
    } else {
      SwitchRunStarts(cur, target, highlight, util, newValue.value, views);
      SwitchRunEnds(cur, target, util, newValue.value, views[cur].y, views[cur].alpha, st);
    }
  }

  /** A pending move or value-switch run, in a barrier-accounted host, fires
      after exactly one end per step; its end hooks then notify one finish
      and leave the animator idle on the target, whatever the views became
      meanwhile. */
  lemma PendingRunEnds(rs: seq<Running>, host: Host, n: nat, cur: ViewId, target: ViewId, highlight: ViewId,
                       util: ViewId, newValue: Option<string>, views: Views, st: AnimState)
    requires RunPending(rs, n, SelectionRun(cur, target, highlight, util, newValue), views) && Accounted(rs, host)
    requires {cur, target, highlight, util} <= views.Keys && st.views.Keys == views.Keys
    ensures var c := rs[n].listener;
      && Count(rs, c) == |SelectionRun(cur, target, highlight, util, newValue)|
      && Fits(c.listeners, st.views.Keys)
      && Finishes(c.listeners) == 1
      && EndHooks(c.listeners, st).curView == target && !EndHooks(c.listeners, st).isAnimating
  {
    var steps := SelectionRun(cur, target, highlight, util, newValue);
    StartHooksFit(CreateListeners(steps), views);
    SelectionRunEnds(cur, target, highlight, util, newValue, views, st);
  }

  /** A pending special-case switch fires after exactly two ends; its end
      hooks notify no finish and keep the busy flag and the current view. */
  lemma PendingValueRunEnds(rs: seq<Running>, host: Host, n: nat, view: ViewId, util: ViewId, newValue: string,
                            views: Views, st: AnimState)
    requires RunPending(rs, n, ValueRun(view, util, newValue), views) && Accounted(rs, host)
    requires {view, util} <= views.Keys && st.views.Keys == views.Keys
    ensures var c := rs[n].listener;
      && Count(rs, c) == 2
      && Fits(c.listeners, st.views.Keys)
      && Finishes(c.listeners) == 0
      && EndHooks(c.listeners, st).curView == st.curView && EndHooks(c.listeners, st).isAnimating == st.isAnimating
  {
    ValueRunStarts(view, util, newValue, views);
    ValueRunEnds(view, util, newValue, views[view].y, views[view].alpha, st);
  }

  /** The start hooks of the special-case value switch: the label's Y and
      alpha are captured and the overlay is shown with the new value. */
  lemma ValueRunStarts(view: ViewId, util: ViewId, newValue: string, views: Views)
    requires {view, util} <= views.Keys
    ensures var started := StartHooks(CreateListeners(ValueRun(view, util, newValue)), views);
      && started.0 == [DigitListener(view, views[view].y, views[view].alpha), UtilViewListener(util, view, newValue)]
      && started.1 == views[util := views[util].(visible := true, text := newValue, x := views[view].x, y := views[view].y + views[view].height)]
  {
    var ls := CreateListeners(ValueRun(view, util, newValue));
    assert Fits(ls, views.Keys);
    assert ls[..0] == [] && ls[..2] == ls;
    StartHooksStep(ls, 0, views);
    StartHooksStep(ls, 1, views);
  }

  /** The special-case value switch never notifies onAnimationFinished and
      leaves the busy flag and the current view as they were; its label gets
      back its Y and alpha and its overlay ends hidden. */
  lemma ValueRunEnds(view: ViewId, util: ViewId, newValue: string, y: int, alpha: real, st: AnimState)
    requires {view, util} <= st.views.Keys
    ensures var ls := [DigitListener(view, y, alpha), UtilViewListener(util, view, newValue)];
      var ended := EndHooks(ls, st);
      && Finishes(ls) == 0
      && ended.curView == st.curView && ended.isAnimating == st.isAnimating
      && !ended.views[util].visible
      && ended.views[view].y == y && ended.views[view].alpha == alpha
  {
    var ls := [DigitListener(view, y, alpha), UtilViewListener(util, view, newValue)];
    assert Fits(ls, st.views.Keys);
    assert ls[..0] == [] && ls[..2] == ls;
    EndHooksStep(ls, 0, st);
    EndHooksStep(ls, 1, st);
  }
}
