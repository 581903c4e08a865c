/** The digit-entry state machine of MaterialTimePicker: four slots, one per
    digit of HH:MM, a keypad whose enabled keys follow the slot, the special
    case that keeps the hour below 25, the digit labels that select a slot,
    and the Time record with its parcel form. */
module Picker {
  import opened Util
  import opened Animation

  // The views of the dialog layout that the state machine and the animator use.
  const FIRST_HOUR_VIEW: ViewId := 0
  const SEC_HOUR_VIEW: ViewId := 1
  const FIRST_MIN_VIEW: ViewId := 2
  const SEC_MIN_VIEW: ViewId := 3
  /** The highlight that moves between digit labels. */
  const ANIMATED_VIEW: ViewId := 4
  /** The overlay of a value-switch run. */
  const UTIL_VIEW: ViewId := 5
  /** The overlay of the special-case correction. */
  const UTIL_SPECIAL_VIEW: ViewId := 6

  const SPECIAL_CASE_ANIM_DELAY: int := 70

  predicate HasLayout(keys: set<ViewId>) {
    forall v: ViewId :: v <= 6 ==> v in keys
  }

  // ---------------------------------------------------------------------------
  // State

  /** The digit slot the keypad writes next. */
  datatype State = FirstHour | SecHour | FirstMin | SecMin {

    function Next(): (s: State)
      ensures s.GetSaveState() == (GetSaveState() + 1) % 4
    {
      match this
      case FirstHour => SecHour
      case SecHour => FirstMin
      case FirstMin => SecMin
      case SecMin => FirstHour
    }

    /** The digit label of the slot. */
    function TargetView(): (v: ViewId)
      ensures LabelState(v) == Some(this)
    {
      match this
      case FirstHour => FIRST_HOUR_VIEW
      case SecHour => SEC_HOUR_VIEW
      case FirstMin => FIRST_MIN_VIEW
      case SecMin => SEC_MIN_VIEW
    }

    /** The saved form of the slot: its ordinal. */
    function GetSaveState(): (ordinal: int)
      ensures 0 <= ordinal <= 3
    {
      match this
      case FirstHour => 0
      case SecHour => 1
      case FirstMin => 2
      case SecMin => 3
    }

    /** `values()[ordinal]`; an ordinal out of range is the
        ArrayIndexOutOfBoundsException, here None. */
    static function GetFromSaveState(ordinal: int): (s: Option<State>)
      ensures s.Some? <==> 0 <= ordinal <= 3
      ensures s.Some? ==> s.value.GetSaveState() == ordinal
    {
      if ordinal == 0 then Some(FirstHour)
      else if ordinal == 1 then Some(SecHour)
      else if ordinal == 2 then Some(FirstMin)
      else if ordinal == 3 then Some(SecMin)
      else None
    }

    /** The keys setUi enables for the slot, given the first hour digit. */
    function EnabledDigits(firstHour: int): (ds: seq<int>)
      ensures forall d :: d in ds <==>
        && 0 <= d <= 9
        && (this == FirstHour ==> d <= 2)
        && (this == FirstMin ==> d <= 5)
        && (this == SecHour && firstHour == 2 ==> 20 + d <= 23)
    {
      match this
      case FirstHour => [0, 1, 2]
      case SecHour => if firstHour == 2 then [0, 1, 2, 3] else [0, 1, 2, 3, 4, 5, 6, 7, 8, 9]
      case FirstMin => [0, 1, 2, 3, 4, 5]
      case SecMin => [0, 1, 2, 3, 4, 5, 6, 7, 8, 9]
    }

    /** The digit of `t` the slot writes. */
    function Field(t: TimeValue): (d: int)
      ensures DigitsInDomain(t) ==> 0 <= d <= 9
    {
      match this
      case FirstHour => t.firstHour
      case SecHour => t.secHour
      case FirstMin => t.firstMin
      case SecMin => t.secMin
    }

    /** `t` after setTimeValue writes `v` into the slot. */
    function WithField(t: TimeValue, v: int): (r: TimeValue)
      ensures Field(r) == v
      ensures forall s: State :: s != this ==> s.Field(r) == s.Field(t)
    {
      match this
      case FirstHour => t.(firstHour := v)
      case SecHour => t.(secHour := v)
      case FirstMin => t.(firstMin := v)
      case SecMin => t.(secMin := v)
    }
  }

  /** The tag bindDigitViewsToStates puts on a view, if any. */
  function LabelState(v: ViewId): (s: Option<State>)
    ensures s.Some? <==> v <= 3
  {
    if v == FIRST_HOUR_VIEW then Some(FirstHour)
    else if v == SEC_HOUR_VIEW then Some(SecHour)
    else if v == FIRST_MIN_VIEW then Some(FirstMin)
    else if v == SEC_MIN_VIEW then Some(SecMin)
    else None
  }

  function NextN(s: State, n: nat): State {
    if n == 0 then s else NextN(s, n - 1).Next()
  }

  /** The successor visits the four slots in the order of the digits and
      comes back after four steps. */
  lemma NextCycles(s: State)
    ensures FirstHour.Next() == SecHour && SecHour.Next() == FirstMin
    ensures FirstMin.Next() == SecMin && SecMin.Next() == FirstHour
    ensures s.Next().Next().Next().Next() == s
    ensures s.Next() != s && s.Next().Next() != s && s.Next().Next().Next() != s
  {
  }

  /** Advancing n slots and then four more is advancing n slots. */
  lemma {:induction false} NextNPeriodic(s: State, n: nat)
    ensures NextN(s, n + 4) == NextN(s, n)
  {
    if n == 0 {
      assert NextN(s, 4) == s.Next().Next().Next().Next();
      NextCycles(s);
    } else {
      NextNPeriodic(s, n - 1);
    }
  }

  /** The saved ordinal restores the slot, and the restored slot saves to
      the same ordinal. */
  lemma SaveStateRoundTrip(s: State, ordinal: int)
    ensures State.GetFromSaveState(s.GetSaveState()) == Some(s)
    ensures 0 <= ordinal <= 3 ==> State.GetFromSaveState(ordinal).value.GetSaveState() == ordinal
  {
  }

  /** Each digit label is bound to the slot whose label it is, and only the
      four digit labels are bound. */
  lemma LabelsBindTheirSlot(s: State, v: ViewId)
    ensures LabelState(s.TargetView()) == Some(s)
    ensures LabelState(v).Some? ==> LabelState(v).value.TargetView() == v
  {
  }

  /** setTimeValue writes exactly the slot's digit: reading the slot back
      gives the value and every other slot reads as before. */
  lemma WriteOnlyTheSlot(s: State, t: TimeValue, v: int)
    ensures s.Field(s.WithField(t, v)) == v
    ensures forall o: State :: o != s ==> o.Field(s.WithField(t, v)) == o.Field(t)
    ensures s.WithField(t, s.Field(t)) == t
  {
  }

  // ---------------------------------------------------------------------------
  // The special case

  /** The digits form a time the picker can show: in the keypad's domain and
      with an hour of at most 24. */
  predicate ClockDigits(t: TimeValue) {
    DigitsInDomain(t) && !(t.firstHour == 2 && t.secHour > 4)
  }

  /** addressSpecialCases on a value: a first hour digit 2 with a second
      hour digit above 4 gets the second hour digit 3. */
  function SpecialCase(t: TimeValue): (r: TimeValue)
    ensures !(r.firstHour == 2 && r.secHour > 4)
  {
    if t.firstHour == 2 && t.secHour > 4 then t.(secHour := 3) else t
  }

  /** The correction fires only on 25..29: then it changes the second hour
      digit to 3 and nothing else, and otherwise it changes nothing. It is
      idempotent and keeps the digits in the keypad's domain. */
  lemma SpecialCaseChangesOnlySecHour(t: TimeValue)
    ensures SpecialCase(t) != t <==> t.firstHour == 2 && t.secHour > 4
    ensures SpecialCase(t) != t ==> SpecialCase(t) == t.(secHour := 3)
    ensures SpecialCase(SpecialCase(t)) == SpecialCase(t)
    ensures DigitsInDomain(t) ==> ClockDigits(SpecialCase(t))
  {
  }

  /** 24 passes the correction unchanged: "24:mm" can be entered. */
  lemma TwentyFourIsNotCorrected(m1: int, m2: int)
    ensures SpecialCase(TimeValue(2, 4, m1, m2)) == TimeValue(2, 4, m1, m2)
    ensures TimeToMillis(TimeValue(2, 4, m1, m2)).0 == 24
    ensures SpecialCase(TimeValue(1, 4, 0, 0).(firstHour := 2)) == TimeValue(2, 4, 0, 0)
  {
  }

  /** Writing an enabled key's digit into the slot, then correcting, keeps
      the time showable. */
  lemma EnabledDigitKeepsClock(s: State, t: TimeValue, v: int)
    requires ClockDigits(t) && v in s.EnabledDigits(t.firstHour)
    ensures ClockDigits(SpecialCase(s.WithField(t, v)))
    ensures DigitsInDomain(s.WithField(t, v))
  {
  }

  /** A time of day from the calendar gives showable digits. */
  lemma CalendarTimeIsClock(hours: int, mins: int)
    requires 0 <= hours <= 23 && 0 <= mins <= 59
    ensures ClockDigits(MillisToTime(hours, mins))
  {
    MillisToTimeInDomain(hours, mins);
    SplitIsDecimal(hours, 3);
  }

  /** The animator calls the special-case correction of `t` makes. */
  function CorrectionLog(t: TimeValue): seq<Event> {
    if t.firstHour == 2 && t.secHour > 4 then
      [SetStarted(ValueRun(SEC_HOUR_VIEW, UTIL_SPECIAL_VIEW, "3"), SPECIAL_CASE_ANIM_DELAY)] + StartTrace(2)
    else []
  }

  // ---------------------------------------------------------------------------
  // Parcel and Time

  /** The int slots of an Android Parcel and its data position. */
  class Parcel {
    var data: seq<int>
    var pos: nat

    ghost predicate Valid()
      reads this
    {
      pos <= |data|
    }

    constructor ()
      ensures data == [] && pos == 0 && Valid()
    {
      data := [];
      pos := 0;
    }

    /** writeInt: the value goes to the data position, which advances. */
    method WriteInt(v: int)
      requires Valid()
      modifies this
      ensures Valid()
      ensures data == old(data[..pos]) + [v] + old(if pos < |data| then data[pos + 1..] else [])
      ensures pos == old(pos) + 1
    {
      data := data[..pos] + [v] + (if pos < |data| then data[pos + 1..] else []);
      pos := pos + 1;
    }

    /** readInt: the int at the data position, or 0 past the end. */
    method ReadInt() returns (v: int)
      requires Valid()
      modifies this
      ensures Valid() && data == old(data)
      ensures v == IntAt(data, old(pos))
      ensures pos == if old(pos) < |data| then old(pos) + 1 else old(pos)
    {
      if pos < |data| {
        v := data[pos];
        pos := pos + 1;
      } else {
        v := 0;
      }
    }

    method SetDataPosition(p: nat)
      requires p <= |data|
      modifies this
      ensures Valid() && data == old(data) && pos == p
    {
      pos := p;
    }
  }

  /** What an overwrite at a position leaves of the data after `i`. */
  function Rest(data: seq<int>, i: nat): seq<int> {
    if i <= |data| then data[i..] else []
  }

  function IntAt(data: seq<int>, i: nat): int {
    if i < |data| then data[i] else 0
  }

  /** writeToParcel as ints: firstHour, secHour, firstMin, secMin. */
  function EncodeTime(t: TimeValue): (ints: seq<int>)
    ensures |ints| == 4
  {
    [t.firstHour, t.secHour, t.firstMin, t.secMin]
  }

  /** Time(Parcel) reading from position `at`. */
  function DecodeTime(data: seq<int>, at: nat): (t: TimeValue)
    ensures at + 4 <= |data| ==> EncodeTime(t) == data[at..at + 4]
  {
    TimeValue(IntAt(data, at), IntAt(data, at + 1), IntAt(data, at + 2), IntAt(data, at + 3))
  }

  /** Reading a Time back from where it was written gives the same Time,
      whatever was written before and after it. */
  lemma ParcelRoundTrip(before: seq<int>, t: TimeValue, after: seq<int>)
    ensures DecodeTime(before + EncodeTime(t) + after, |before|) == t
  {
    var d := before + EncodeTime(t) + after;
    assert d[|before|] == t.firstHour && d[|before| + 1] == t.secHour;
    assert d[|before| + 2] == t.firstMin && d[|before| + 3] == t.secMin;
  }

  /** The time being entered, one field per digit. */
  class Time {
    var firstHour: int
    var secHour: int
    var firstMin: int
    var secMin: int

    function Value(): TimeValue
      reads this
    {
      TimeValue(firstHour, secHour, firstMin, secMin)
    }

    constructor ()
      ensures Value() == TimeValue(0, 0, 0, 0)
    {
      firstHour, secHour, firstMin, secMin := 0, 0, 0, 0;
    }

    constructor Of(firstHour: int, secHour: int, firstMin: int, secMin: int)
      ensures Value() == TimeValue(firstHour, secHour, firstMin, secMin)
    {
      this.firstHour, this.secHour, this.firstMin, this.secMin := firstHour, secHour, firstMin, secMin;
    }

    /** Time(Parcel): four readInt calls, in field order. */
    constructor FromParcel(source: Parcel)
      requires source.Valid()
      modifies source
      ensures Value() == DecodeTime(old(source.data), old(source.pos))
      ensures source.Valid() && source.data == old(source.data)
    {
      var at := source.pos;
      var fh := source.ReadInt();
      assert source.pos == if at < |source.data| then at + 1 else at;
      var sh := source.ReadInt();
      var fm := source.ReadInt();
      var sm := source.ReadInt();
      firstHour, secHour, firstMin, secMin := fh, sh, fm, sm;
    }

    method SetFirstHour(v: int)
      modifies this
      ensures Value() == old(Value()).(firstHour := v)
    {
      firstHour := v;
    }

    method SetSecHour(v: int)
      modifies this
      ensures Value() == old(Value()).(secHour := v)
    {
      secHour := v;
    }

    method SetFirstMin(v: int)
      modifies this
      ensures Value() == old(Value()).(firstMin := v)
    {
      firstMin := v;
    }

    method SetSecMin(v: int)
      modifies this
      ensures Value() == old(Value()).(secMin := v)
    {
      secMin := v;
    }

    /** writeToParcel: four writeInt calls, in field order. */
    method WriteToParcel(dest: Parcel)
      requires dest.Valid()
      modifies dest
      ensures dest.Valid() && dest.pos == old(dest.pos) + 4
      ensures dest.data == old(dest.data[..dest.pos]) + EncodeTime(Value())
                           + old(Rest(dest.data, dest.pos + 4))
    {
      ghost var d0, p0 := dest.data, dest.pos;
      dest.WriteInt(firstHour);
      assert dest.data == d0[..p0] + [firstHour] + Rest(d0, p0 + 1);
      dest.WriteInt(secHour);
      assert dest.data == d0[..p0] + [firstHour, secHour] + Rest(d0, p0 + 2);
      dest.WriteInt(firstMin);
      assert dest.data == d0[..p0] + [firstHour, secHour, firstMin] + Rest(d0, p0 + 3);
      dest.WriteInt(secMin);
      assert dest.data == d0[..p0] + [firstHour, secHour, firstMin, secMin] + Rest(d0, p0 + 4);
    }
  }

  /** A Time written to a parcel and read back from the same position is a
      new Time with the same digits. */
  method ParcelCopy(t: Time) returns (copy: Time)
    ensures fresh(copy) && copy.Value() == t.Value()
  {
    var parcel := new Parcel();
    t.WriteToParcel(parcel);
    parcel.SetDataPosition(0);
    ParcelRoundTrip([], t.Value(), []);
    assert parcel.data == [] + EncodeTime(t.Value()) + [];
    copy := new Time.FromParcel(parcel);
  }

  /** The time of initProvidedState: all zeros for millis 0, otherwise the
      digits of the calendar's time of day. */
  method ProvidedTime(timeMillis: int, clockHours: int, clockMins: int) returns (time: Time)
    ensures fresh(time)
    ensures time.Value() == if timeMillis == 0 then TimeValue(0, 0, 0, 0) else MillisToTime(clockHours, clockMins)
  {
    if timeMillis == 0 {
      time := new Time();
    } else {
      var t := MillisToTime(clockHours, clockMins);
      time := new Time.Of(t.firstHour, t.secHour, t.firstMin, t.secMin);
    }
  }

  /** setTimeValue of slot `s`: writes the digit and says whether it changed. */
  method SetTimeValue(s: State, time: Time, value: int) returns (changed: bool)
    modifies time
    ensures changed <==> s.Field(old(time.Value())) != value
    ensures time.Value() == s.WithField(old(time.Value()), value)
  {
    match s
    case FirstHour =>
      changed := time.firstHour != value;
      time.SetFirstHour(value);
    case SecHour =>
      changed := time.secHour != value;
      time.SetSecHour(value);
    case FirstMin =>
      changed := time.firstMin != value;
      time.SetFirstMin(value);
    case SecMin =>
      changed := time.secMin != value;
      time.SetSecMin(value);
  }

  // ---------------------------------------------------------------------------
  // The keypad

  /** The HashSet of enabled digits, reused across calls. */
  class DigitSet {
    var contents: set<int>

    constructor ()
      ensures contents == {}
    {
      contents := {};
    }

    method Clear()
      modifies this
      ensures contents == {}
    {
      contents := {};
    }

    method Add(d: int)
      modifies this
      ensures contents == old(contents) + {d}
    {
      contents := contents + {d};
    }
  }

  /** The keypad still holds the ten keys of the layout, in layout order;
      only their enabled flags change. */
  predicate KeypadKeys(children: seq<GridItem>) {
    |children| == 10 && forall i :: 0 <= i < 10 ==> children[i].value == KeypadLayout()[i].value
  }

  /** Exactly the keys whose value is one of `digits` are enabled. */
  predicate KeypadEnables(children: seq<GridItem>, digits: seq<int>) {
    forall i :: 0 <= i < |children| ==> (children[i].enabled <==> children[i].value in digits)
  }

  /** With the keys enabled for a slot, a key's digit is accepted iff it is
      one of the slot's digits, and every slot accepts at least its 0 key. */
  lemma EnabledKeysAreTheSlotDigits(children: seq<GridItem>, s: State, firstHour: int, d: int)
    requires KeypadKeys(children) && KeypadEnables(children, s.EnabledDigits(firstHour))
    requires 0 <= d <= 9
    ensures exists i :: 0 <= i < |children| && children[i].value == d
    ensures forall i :: 0 <= i < |children| && children[i].value == d ==>
      (children[i].enabled <==> d in s.EnabledDigits(firstHour))
    ensures children[9].value == 0 && children[9].enabled
  {
    KeypadPlacesEachDigitOnce();
    if d == 0 {
      assert children[9].value == d;
    } else {
      assert children[d - 1].value == d;
    }
  }

  /** How many animations animateTo from `cur` to `target` starts. */
  function RunSize(cur: ViewId, target: ViewId, newValue: Option<string>): nat {
    if target == cur then 0 else |SelectionRun(cur, target, ANIMATED_VIEW, UTIL_VIEW, newValue)|
  }

  /** The label texts setUi writes: each digit label shows its digit of `t`. */
  function Relabel(views: Views, t: TimeValue): Views
    requires HasLayout(views.Keys)
  {
    views[FIRST_HOUR_VIEW := views[FIRST_HOUR_VIEW].(text := IntToString(t.firstHour))]
         [SEC_HOUR_VIEW := views[SEC_HOUR_VIEW].(text := IntToString(t.secHour))]
         [FIRST_MIN_VIEW := views[FIRST_MIN_VIEW].(text := IntToString(t.firstMin))]
         [SEC_MIN_VIEW := views[SEC_MIN_VIEW].(text := IntToString(t.secMin))]
  }

  /** After setUi every slot's label shows the slot's digit, and no other
      view or property changes. */
  lemma RelabelShowsTime(views: Views, t: TimeValue)
    requires HasLayout(views.Keys)
    ensures Relabel(views, t).Keys == views.Keys
    ensures forall s: State :: Relabel(views, t)[s.TargetView()] == views[s.TargetView()].(text := IntToString(s.Field(t)))
    ensures forall v :: v in views && LabelState(v).None? ==> Relabel(views, t)[v] == views[v]
  {
    forall s: State ensures Relabel(views, t)[s.TargetView()] == views[s.TargetView()].(text := IntToString(s.Field(t))) {
      match s
      case FirstHour => assert s.TargetView() == FIRST_HOUR_VIEW;
      case SecHour => assert s.TargetView() == SEC_HOUR_VIEW;
      case FirstMin => assert s.TargetView() == FIRST_MIN_VIEW;
      case SecMin => assert s.TargetView() == SEC_MIN_VIEW;
    }
  }

  /** Running setUi again on the same time changes nothing more. */
  lemma RelabelIdempotent(views: Views, t: TimeValue)
    requires HasLayout(views.Keys)
    ensures Relabel(Relabel(views, t), t) == Relabel(views, t)
  {
    var once := Relabel(views, t);
    assert once.Keys == views.Keys;
    assert forall v :: v in once ==> Relabel(once, t)[v] == once[v];
  }

  /** The views after animateTo from `cur` to `target` over `views`, with the
      finished callback's setUi when the run ends at once. */
  ghost function SlotRunViews(views: Views, cur: ViewId, target: ViewId, newValue: Option<string>, t: TimeValue): Views
    requires HasLayout(views.Keys) && cur in views && target in views
  {
    var deselected := Deselect(views, cur);
    if target == cur then Relabel(deselected, t)
    else
      var steps := SelectionRun(cur, target, ANIMATED_VIEW, UTIL_VIEW, newValue);
      assert forall i :: 0 <= i < |steps| ==> CreatorViews(steps[i]) <= deselected.Keys;
      StartHooks(CreateListeners(steps), deselected).1
  }

  /** The special-case switch started over `views` behind the animations
      `rs0`: its two animations are appended with delay 70, its start hooks
      give `views'`, and it is pending. */
  ghost predicate CorrectionPending(rs0: seq<Running>, views: Views, rs: seq<Running>, views': Views)
    reads if |rs0| < |rs| then {rs[|rs0|].listener} else {}
  {
    var steps := ValueRun(SEC_HOUR_VIEW, UTIL_SPECIAL_VIEW, "3");
    && RunPending(rs, |rs0|, steps, views)
    && |rs| == |rs0| + 2
    && rs == rs0 + Launched(rs[|rs0|].listener, steps, SPECIAL_CASE_ANIM_DELAY)
    && views' == StartHooks(CreateListeners(steps), views).1
  }

  /** What a keypad click leaves behind `rs0` and `views0` once the digit
      `t` is written: the run from `cur0` to the `target` label pending (or,
      when the label is already current, the labels relabelled at once),
      then the special-case switch pending behind it when `t` needs the
      correction, and nothing more otherwise. */
  ghost predicate SlotReached(rs0: seq<Running>, views0: Views, cur0: ViewId, target: ViewId, newValue: Option<string>,
                              t: TimeValue, rs: seq<Running>, views: Views)
    requires HasLayout(views0.Keys) && cur0 in views0 && target in views0
    reads if |rs0| < |rs| then {rs[|rs0|].listener} else {}
    reads var n1 := |rs0| + RunSize(cur0, target, newValue); if n1 < |rs| then {rs[n1].listener} else {}
  {
    var mid := SlotRunViews(views0, cur0, target, newValue, t);
    var n1 := |rs0| + RunSize(cur0, target, newValue);
    && (target != cur0 ==>
          RunPending(rs, |rs0|, SelectionRun(cur0, target, ANIMATED_VIEW, UTIL_VIEW, newValue), Deselect(views0, cur0)))
    && n1 <= |rs| && rs[..|rs0|] == rs0
    && (t.firstHour == 2 && t.secHour > 4 ==> CorrectionPending(rs[..n1], mid, rs, views))
    && (!(t.firstHour == 2 && t.secHour > 4) ==> |rs| == n1 && views == mid)
  }

  /** The run to the label, then the special case behind it, reach the slot. */
  lemma SlotReachedInTwoSteps(rs0: seq<Running>, views0: Views, cur0: ViewId, target: ViewId, newValue: Option<string>,
                              t: TimeValue, rs1: seq<Running>, mid: Views, rs: seq<Running>, views: Views)
    requires HasLayout(views0.Keys) && cur0 in views0 && target in views0
    requires target != cur0 ==>
      RunPending(rs1, |rs0|, SelectionRun(cur0, target, ANIMATED_VIEW, UTIL_VIEW, newValue), Deselect(views0, cur0))
    requires mid == SlotRunViews(views0, cur0, target, newValue, t)
    requires |rs1| == |rs0| + RunSize(cur0, target, newValue) && rs1[..|rs0|] == rs0
    requires |rs1| <= |rs| && rs[..|rs1|] == rs1
    requires if t.firstHour == 2 && t.secHour > 4 then CorrectionPending(rs1, mid, rs, views) else views == mid && rs == rs1
    ensures SlotReached(rs0, views0, cur0, target, newValue, t, rs, views)
  {
    if target != cur0 {
      RunPendingKept(rs1, rs, |rs0|, SelectionRun(cur0, target, ANIMATED_VIEW, UTIL_VIEW, newValue), Deselect(views0, cur0));
    }
    assert rs[..|rs0|] == rs1[..|rs0|];
  }

  /** When a click's new slot label is already current, the run finishes at
      once and setUi relabels with the digit as written, before the special
      case corrects the time. On 25..29 the SEC_HOUR label is left showing
      the uncorrected digit: the special-case switch only shows "3" on its
      overlay, never on the label, so the label and the time disagree. */
  lemma CurrentLabelKeepsUncorrectedDigit(rs0: seq<Running>, views0: Views, cur0: ViewId, newValue: Option<string>,
                                         t: TimeValue, rs: seq<Running>, views: Views)
    requires HasLayout(views0.Keys) && cur0 in views0
    requires t.firstHour == 2 && 4 < t.secHour <= 9
    requires SlotReached(rs0, views0, cur0, cur0, newValue, t, rs, views)
    ensures views[SEC_HOUR_VIEW].text == IntToString(t.secHour)
    ensures views[SEC_HOUR_VIEW].text != IntToString(SpecialCase(t).secHour)
  {
    var mid := SlotRunViews(views0, cur0, cur0, newValue, t);
    RelabelShowsTime(Deselect(views0, cur0), t);
    assert mid[SecHour.TargetView()].text == IntToString(t.secHour);
    ValueRunStarts(SEC_HOUR_VIEW, UTIL_SPECIAL_VIEW, "3", mid);
  }

  /** The run a click or a label tap leaves pending ends, after one end per
      step, with a single finished notification and the animator idle on the
      label of the slot it was started for. */
  lemma SlotRunEndsOnLabel(rs: seq<Running>, host: Host, n: nat, cur: ViewId, s: State,
                           newValue: Option<string>, views: Views, st: AnimState)
    requires RunPending(rs, n, SelectionRun(cur, s.TargetView(), ANIMATED_VIEW, UTIL_VIEW, newValue), views)
    requires Accounted(rs, host) && HasLayout(views.Keys) && cur in views && st.views.Keys == views.Keys
    ensures var c := rs[n].listener;
      var ended := EndHooks(c.listeners, st);
      && Count(rs, c) == (if newValue.None? then 1 else 3)
      && Finishes(c.listeners) == 1
      && ended.curView == s.TargetView() && LabelState(ended.curView) == Some(s) && !ended.isAnimating
  {
    PendingRunEnds(rs, host, n, cur, s.TargetView(), ANIMATED_VIEW, UTIL_VIEW, newValue, views, st);
    RunSteps(cur, s.TargetView(), ANIMATED_VIEW, UTIL_VIEW, newValue, "");
  }

  /** The special-case switch a click leaves pending ends after two ends:
      no finished notification, the busy flag and current view kept, the
      SEC_HOUR label back at the Y and alpha it had when the switch started,
      and the overlay hidden. */
  lemma CorrectionEnds(rs0: seq<Running>, views: Views, rs: seq<Running>, views': Views, host: Host, st: AnimState)
    requires CorrectionPending(rs0, views, rs, views') && Accounted(rs, host)
    requires HasLayout(views.Keys) && st.views.Keys == views.Keys
    ensures var c := rs[|rs0|].listener;
      var ended := EndHooks(c.listeners, st);
      && Count(rs, c) == 2
      && Finishes(c.listeners) == 0
      && ended.curView == st.curView && ended.isAnimating == st.isAnimating
      && ended.views[SEC_HOUR_VIEW].y == views[SEC_HOUR_VIEW].y && ended.views[SEC_HOUR_VIEW].alpha == views[SEC_HOUR_VIEW].alpha
      && !ended.views[UTIL_SPECIAL_VIEW].visible
  {
    PendingValueRunEnds(rs, host, |rs0|, SEC_HOUR_VIEW, UTIL_SPECIAL_VIEW, "3", views, st);
    ValueRunStarts(SEC_HOUR_VIEW, UTIL_SPECIAL_VIEW, "3", views);
    ValueRunEnds(SEC_HOUR_VIEW, UTIL_SPECIAL_VIEW, "3", views[SEC_HOUR_VIEW].y, views[SEC_HOUR_VIEW].alpha, st);
  }

  /** The picker dialog: the slot being entered, the time, the keypad, the
      dialog's views (in the host) and the animator over them. Outside a
      run, the keypad enables exactly the current slot's digits. */
  class MaterialTimePicker {
    var state: State
    const time: Time
    var digitsSet: Option<DigitSet>
    const keypad: Grid
    const host: Host
    const animator: DigitAnimator
    var newDialogInstance: bool

    ghost predicate Valid()
      reads this, time, keypad, host, animator, host.Listeners()
    {
      && animator.host == host && animator.Valid()
      && HasLayout(host.ids)
      && animator.animatedView == ANIMATED_VIEW
      && animator.digitAnimationUtil == UTIL_VIEW
      && animator.digitAnimationUtilSpecialCase == UTIL_SPECIAL_VIEW
      && KeypadKeys(keypad.children)
      && (!animator.isAnimating ==> KeypadEnables(keypad.children, state.EnabledDigits(time.firstHour)))
    }

    ghost function DigitsSetObjects(): set<DigitSet>
      reads this
    {
      if digitsSet.Some? then {digitsSet.value} else {}
    }

    /** initProvidedState, then the wiring of onCreateDialog: the animator
        starts on the FIRST_HOUR label, the keypad is filled and setUi runs.
        `clockHours` and `clockMins` are what the calendar reads from
        `timeMillis`. */
    constructor Provided(timeMillis: int, clockHours: int, clockMins: int, layout: Views)
      requires HasLayout(layout.Keys)
      ensures Valid() && fresh(time) && fresh(host) && fresh(animator) && fresh(keypad)
      ensures newDialogInstance && state == FirstHour
      ensures time.Value() == if timeMillis == 0 then TimeValue(0, 0, 0, 0) else MillisToTime(clockHours, clockMins)
      ensures animator.curView == FIRST_HOUR_VIEW && !animator.isAnimating
      ensures host.running == [] && host.log == []
      ensures forall s: State :: host.views[s.TargetView()].text == IntToString(s.Field(time.Value()))
    {
      newDialogInstance := true;
      var t := ProvidedTime(timeMillis, clockHours, clockMins);
      time := t;
      state := FirstHour;
      var h := new Host(layout);
      host := h;
      keypad := new Grid();
      digitsSet := None;
      animator := new DigitAnimator(h, FIRST_HOUR_VIEW, ANIMATED_VIEW, UTIL_VIEW, UTIL_SPECIAL_VIEW);
      new;
      ghost var views0 := host.views;
      SetUpKeypad();
      RelabelShowsTime(views0, time.Value());
    }

    /** setUiListeners and the first setUi: the ten keys are added, then the
        slot's keys are enabled. */
    method SetUpKeypad()
      requires keypad.children == [] && host.views.Keys == host.ids && HasLayout(host.ids)
      modifies this, host, keypad, DigitsSetObjects()
      ensures KeypadKeys(keypad.children) && KeypadEnables(keypad.children, state.EnabledDigits(time.firstHour))
      ensures state == old(state) && newDialogInstance == old(newDialogInstance)
      ensures host.views == Relabel(old(host.views), time.Value()) && host.views.Keys == host.ids
      ensures host.running == old(host.running) && host.log == old(host.log)
    {
      FillGridAndSetItemsListener(keypad);
      assert keypad.children == [] + KeypadLayout();
      assert KeypadKeys(keypad.children);
      SetUi();
    }

    /** getDigitsSet: the reused set, cleared, or a new one the first time. */
    method GetDigitsSet() returns (digits: DigitSet)
      modifies this, DigitsSetObjects()
      ensures digits.contents == {} && digitsSet == Some(digits)
      ensures old(digitsSet).Some? ==> digits == old(digitsSet).value
      ensures old(digitsSet).None? ==> fresh(digits)
      ensures state == old(state) && newDialogInstance == old(newDialogInstance)
    {
      if digitsSet.None? {
        digits := new DigitSet();
        digitsSet := Some(digits);
      } else {
        digits := digitsSet.value;
        digits.Clear();
      }
    }

    /** setEnabledKeyboardDigits: collects the digits into the reused set,
        then enables exactly the keys whose value is in it. */
    method SetEnabledKeyboardDigits(enabledDigits: seq<int>)
      modifies this, keypad, DigitsSetObjects()
      ensures |keypad.children| == |old(keypad.children)|
      ensures forall i :: 0 <= i < |keypad.children| ==>
        keypad.children[i] == old(keypad.children[i]).(enabled := old(keypad.children[i]).value in enabledDigits)
      ensures KeypadEnables(keypad.children, enabledDigits)
      ensures digitsSet.Some? && (old(digitsSet).Some? ==> digitsSet == old(digitsSet))
      ensures old(digitsSet).None? ==> fresh(digitsSet.value)
      ensures state == old(state) && newDialogInstance == old(newDialogInstance)
    {
      var digits := GetDigitsSet();
      for i := 0 to |enabledDigits|
        invariant forall d :: d in digits.contents <==> d in enabledDigits[..i]
        invariant digitsSet == Some(digits) && state == old(state) && newDialogInstance == old(newDialogInstance) && keypad.children == old(keypad.children)
      {
        assert enabledDigits[..i + 1] == enabledDigits[..i] + [enabledDigits[i]];
        digits.Add(enabledDigits[i]);
      }
      assert enabledDigits[..|enabledDigits|] == enabledDigits;
      ghost var before := keypad.children;
      for i := 0 to |keypad.children|
        invariant |keypad.children| == |before|
        invariant forall j :: 0 <= j < i ==> keypad.children[j] == before[j].(enabled := before[j].value in enabledDigits)
        invariant forall j :: i <= j < |before| ==> keypad.children[j] == before[j]
        invariant forall d :: d in digits.contents <==> d in enabledDigits
        invariant digitsSet == Some(digits) && state == old(state) && newDialogInstance == old(newDialogInstance)
      {
        var child := keypad.children[i];
        keypad.children := keypad.children[i := child.(enabled := child.value in digits.contents)];
      }
    }

    /** setUi of the current slot: the labels show the digits, then the slot's
        keys are enabled. */
    method SetUi()
      requires host.views.Keys == host.ids && HasLayout(host.ids)
      modifies this, host, keypad, DigitsSetObjects()
      ensures animator.host == host && old(animator.Valid()) ==> animator.Valid()
      ensures state == old(state) && newDialogInstance == old(newDialogInstance)
      ensures digitsSet.Some? && (old(digitsSet).Some? ==> digitsSet == old(digitsSet))
      ensures old(digitsSet).None? ==> fresh(digitsSet.value)
      ensures host.views == Relabel(old(host.views), time.Value())
      ensures host.running == old(host.running) && host.log == old(host.log)
      ensures |keypad.children| == |old(keypad.children)|
      ensures forall i :: 0 <= i < |keypad.children| ==> keypad.children[i].value == old(keypad.children[i].value)
      ensures KeypadEnables(keypad.children, state.EnabledDigits(time.firstHour))
    {
      var v := host.views;
      v := v[FIRST_HOUR_VIEW := v[FIRST_HOUR_VIEW].(text := IntToString(time.firstHour))];
      v := v[SEC_HOUR_VIEW := v[SEC_HOUR_VIEW].(text := IntToString(time.secHour))];
      v := v[FIRST_MIN_VIEW := v[FIRST_MIN_VIEW].(text := IntToString(time.firstMin))];
      v := v[SEC_MIN_VIEW := v[SEC_MIN_VIEW].(text := IntToString(time.secMin))];
      host.views := v;
      SetEnabledKeyboardDigits(state.EnabledDigits(time.firstHour));
    }

    /** addressSpecialCases: 25..29 becomes 23, with the special-case value
        switch on the SEC_HOUR label after a 70 ms delay. */
    method AddressSpecialCases()
      requires Valid()
      modifies time, host
      ensures Valid()
      ensures time.Value() == SpecialCase(old(time.Value()))
      ensures host.log == old(host.log) + CorrectionLog(old(time.Value()))
      ensures if old(time.firstHour) == 2 && old(time.secHour) > 4
              then CorrectionPending(old(host.running), old(host.views), host.running, host.views)
              else host.views == old(host.views) && host.running == old(host.running)
      ensures |old(host.running)| <= |host.running| && host.running[..|old(host.running)|] == old(host.running)
    {
      if time.firstHour == 2 && time.secHour > 4 {
        ghost var t0 := time.Value();
        CorrectSecHour();
        assert t0 == old(time.Value()) && SpecialCase(t0) == time.Value();
      } else {
        assert host.log + CorrectionLog(time.Value()) == host.log;
        assert host.running[..|host.running|] == host.running;
      }
    }

    /** The corrective branch of addressSpecialCases. */
    method CorrectSecHour()
      requires Valid()
      modifies time, host
      ensures Valid()
      ensures time.Value() == old(time.Value()).(secHour := 3)
      ensures host.log == old(host.log) + [SetStarted(ValueRun(SEC_HOUR_VIEW, UTIL_SPECIAL_VIEW, "3"), SPECIAL_CASE_ANIM_DELAY)] + StartTrace(2)
      ensures CorrectionPending(old(host.running), old(host.views), host.running, host.views)
      ensures |old(host.running)| <= |host.running| && host.running[..|old(host.running)|] == old(host.running)
    {
      time.SetSecHour(3);
      assert SecHour.TargetView() == SEC_HOUR_VIEW;
      var ok := animator.AnimateValue(SEC_HOUR_VIEW, "3", SPECIAL_CASE_ANIM_DELAY);
    }

    /** animateTo the current slot's label; the finished callback of a run
        that ends at once runs the slot's setUi. */
    method AnimateToSlot(newValue: Option<string>)
      requires animator.host == host && animator.Valid() && HasLayout(host.ids)
      requires animator.animatedView == ANIMATED_VIEW && animator.digitAnimationUtil == UTIL_VIEW
      requires KeypadKeys(keypad.children)
      modifies this, keypad, host, animator, DigitsSetObjects()
      ensures animator.Valid() && KeypadKeys(keypad.children)
      ensures state == old(state) && newDialogInstance == old(newDialogInstance)
      ensures !animator.isAnimating ==> KeypadEnables(keypad.children, state.EnabledDigits(time.firstHour))
      ensures old(animator.isAnimating) ==>
        && animator.State() == old(animator.State()) && host.running == old(host.running)
        && host.log == old(host.log) && keypad.children == old(keypad.children)
      ensures !old(animator.isAnimating) ==> host.log == old(host.log) + RunTrace(old(animator.curView), state.TargetView(), ANIMATED_VIEW, UTIL_VIEW, newValue)
      ensures !old(animator.isAnimating) ==>
        animator.curView == old(animator.curView) && (animator.isAnimating <==> state.TargetView() != old(animator.curView))
      ensures !old(animator.isAnimating) && state.TargetView() == old(animator.curView) ==>
        host.running == old(host.running) && host.views == Relabel(Deselect(old(host.views), old(animator.curView)), time.Value())
      ensures !old(animator.isAnimating) && state.TargetView() != old(animator.curView) ==>
        var steps := SelectionRun(old(animator.curView), state.TargetView(), ANIMATED_VIEW, UTIL_VIEW, newValue);
        && |host.running| == |old(host.running)| + |steps|
        && host.running == old(host.running) + Launched(host.running[|old(host.running)|].listener, steps, 0)
        && RunPending(host.running, |old(host.running)|, steps, Deselect(old(host.views), old(animator.curView)))
        && host.views == StartHooks(CreateListeners(steps), Deselect(old(host.views), old(animator.curView))).1
    {
      var finished := animator.AnimateTo(state.TargetView(), newValue);
      ghost var rs1, views1 := host.running, host.views;
      NotifyFinished(if finished then 1 else 0);
      assert host.running == rs1;
      assert host.views == if finished then Relabel(views1, time.Value()) else views1;
    }

    /** The keypad click handler. While a run is in flight the click is
        ignored; otherwise the key's digit is written into the current slot,
        the slot advances, a run to the new slot's label starts (a value
        switch when the digit changed, a plain move otherwise) and the special
        case is corrected. A click on an enabled key keeps the time showable. */
    method OnKeyClick(k: nat)
      requires Valid() && k < |keypad.children|
      modifies this, time, keypad, host, animator, DigitsSetObjects()
      ensures Valid()
      ensures old(animator.isAnimating) ==>
        && state == old(state) && time.Value() == old(time.Value()) && keypad.children == old(keypad.children)
        && animator.State() == old(animator.State()) && host.running == old(host.running) && host.log == old(host.log)
      ensures !old(animator.isAnimating) && old(keypad.children[k].enabled) && ClockDigits(old(time.Value())) ==>
        ClockDigits(time.Value())
      ensures !old(animator.isAnimating) ==>
        var v := old(keypad.children[k].value);
        var written := old(state).WithField(old(time.Value()), v);
        var newValue := if old(state).Field(old(time.Value())) != v then Some(IntToString(v)) else None;
        && state == old(state).Next()
        && time.Value() == SpecialCase(written)
        && host.log == old(host.log)
                       + RunTrace(old(animator.curView), state.TargetView(), ANIMATED_VIEW, UTIL_VIEW, newValue)
                       + CorrectionLog(written)
        && animator.curView == old(animator.curView)
        && (animator.isAnimating <==> state.TargetView() != old(animator.curView))
        && SlotReached(old(host.running), old(host.views), old(animator.curView), state.TargetView(), newValue,
                       written, host.running, host.views)
    {
      if !animator.isAnimating {
        ghost var t0 := time.Value();
        ghost var s0 := state;
        var value := keypad.children[k].value;
        if keypad.children[k].enabled && ClockDigits(t0) {
          EnabledDigitKeepsClock(s0, t0, value);
        }
        var changed := SetTimeValue(state, time, value);
        state := state.Next();
        assert host.views == old(host.views) && host.running == old(host.running) && host.log == old(host.log);
        assert animator.curView == old(animator.curView) && !animator.isAnimating;
        var newValue := if changed then Some(IntToString(value)) else None;
        assert newValue == if s0.Field(t0) != value then Some(IntToString(value)) else None;
        MoveAndCorrect(newValue);
      }
    }

    /** The rest of a keypad click, once the digit is written and the slot
        advanced: the run to the new slot's label, then the special case. */
    method MoveAndCorrect(newValue: Option<string>)
      requires animator.host == host && animator.Valid() && HasLayout(host.ids) && !animator.isAnimating
      requires animator.animatedView == ANIMATED_VIEW && animator.digitAnimationUtil == UTIL_VIEW
      requires animator.digitAnimationUtilSpecialCase == UTIL_SPECIAL_VIEW
      requires KeypadKeys(keypad.children)
      modifies this, time, keypad, host, animator, DigitsSetObjects()
      ensures Valid()
      ensures state == old(state) && time.Value() == SpecialCase(old(time.Value()))
      ensures host.log == old(host.log)
                       + RunTrace(old(animator.curView), state.TargetView(), ANIMATED_VIEW, UTIL_VIEW, newValue)
                       + CorrectionLog(old(time.Value()))
      ensures animator.curView == old(animator.curView) && (animator.isAnimating <==> state.TargetView() != old(animator.curView))
      ensures SlotReached(old(host.running), old(host.views), old(animator.curView), state.TargetView(), newValue,
                          old(time.Value()), host.running, host.views)
    {
      ghost var n0, cur0, views0 := |host.running|, animator.curView, host.views;
      AnimateToSlot(newValue);
      ghost var rs1 := host.running;
      ghost var mid := host.views;
      ghost var steps := SelectionRun(cur0, state.TargetView(), ANIMATED_VIEW, UTIL_VIEW, newValue);
      ghost var pending := animator.isAnimating;
      assert pending ==> RunPending(rs1, n0, steps, Deselect(views0, cur0));
      assert mid == SlotRunViews(views0, cur0, state.TargetView(), newValue, time.Value());
      assert |rs1| == n0 + RunSize(cur0, state.TargetView(), newValue) && rs1[..n0] == old(host.running);
      AddressSpecialCases();
      assert host.running[..|rs1|] == rs1;
      SlotReachedInTwoSteps(old(host.running), views0, cur0, state.TargetView(), newValue, old(time.Value()),
                            rs1, mid, host.running, host.views);
    }

    /** The digit-label click listener of setHoursAnimatorListener: the slot
        becomes the label's bound slot, whatever it was, and a plain move run
        to the label is asked for (ignored while a run is in flight). */
    method OnLabelClick(v: ViewId)
      requires Valid() && LabelState(v).Some?
      modifies this, keypad, host, animator, DigitsSetObjects()
      ensures Valid()
      ensures state == LabelState(v).value && state.TargetView() == v && time.Value() == old(time.Value())
      ensures old(animator.isAnimating) ==>
        animator.State() == old(animator.State()) && host.running == old(host.running) && host.log == old(host.log)
      ensures !old(animator.isAnimating) ==> host.log == old(host.log) + RunTrace(old(animator.curView), v, ANIMATED_VIEW, UTIL_VIEW, None)
      ensures !old(animator.isAnimating) ==>
        animator.curView == old(animator.curView) && (animator.isAnimating <==> v != old(animator.curView))
      ensures !old(animator.isAnimating) && v != old(animator.curView) ==>
        var steps := SelectionRun(old(animator.curView), v, ANIMATED_VIEW, UTIL_VIEW, None);
        && |host.running| == |old(host.running)| + 1
        && host.running == old(host.running) + Launched(host.running[|old(host.running)|].listener, steps, 0)
        && RunPending(host.running, |old(host.running)|, steps, Deselect(old(host.views), old(animator.curView)))
        && host.views == StartHooks(CreateListeners(steps), Deselect(old(host.views), old(animator.curView))).1
      ensures !old(animator.isAnimating) && v == old(animator.curView) ==>
        host.running == old(host.running) && host.views == Relabel(Deselect(old(host.views), old(animator.curView)), time.Value())
    {
      state := LabelState(v).value;
      AnimateToSlot(None);
    }

    /** The host ends the k-th running animation; each finished notification
        of the animator runs the current slot's setUi. */
    method OnAnimationEnd(k: nat)
      requires Valid() && k < |host.running|
      modifies this, keypad, host, animator, host.running[k].listener, DigitsSetObjects()
      ensures Valid()
      ensures state == old(state) && time.Value() == old(time.Value())
      ensures host.running == old(host.running[..k] + host.running[k + 1..])
    {
      ghost var st0 := animator.State();
      ghost var c := host.running[k].listener;
      var fired, finished := DeliverAnimationEnd(animator, k);
      if fired && finished == 0 {
        EndHooksWithoutFinish(c.listeners, st0);
      }
      NotifyFinished(finished);
    }

    /** `count` finished notifications of the animator, each running the
        current slot's setUi. */
    method NotifyFinished(count: nat)
      requires host.views.Keys == host.ids && HasLayout(host.ids) && KeypadKeys(keypad.children)
      modifies this, host, keypad, DigitsSetObjects()
      ensures host.views.Keys == host.ids && KeypadKeys(keypad.children)
      ensures state == old(state) && newDialogInstance == old(newDialogInstance)
      ensures host.running == old(host.running) && host.log == old(host.log)
      ensures count == 0 ==> keypad.children == old(keypad.children) && host.views == old(host.views)
      ensures count > 0 ==>
        KeypadEnables(keypad.children, state.EnabledDigits(time.firstHour)) && host.views == Relabel(old(host.views), time.Value())
    {
      for i := 0 to count
        invariant host.views.Keys == host.ids && KeypadKeys(keypad.children)
        invariant state == old(state) && newDialogInstance == old(newDialogInstance)
        invariant host.running == old(host.running) && host.log == old(host.log)
        invariant i == 0 ==> keypad.children == old(keypad.children) && host.views == old(host.views)
        invariant 0 < i ==> KeypadEnables(keypad.children, state.EnabledDigits(time.firstHour))
        invariant 0 < i ==> host.views == Relabel(old(host.views), time.Value())
        invariant old(digitsSet).Some? ==> digitsSet == old(digitsSet)
        invariant old(digitsSet).None? && digitsSet.Some? ==> fresh(digitsSet.value)
      {
        SetUi();
        if 0 < i {
          RelabelIdempotent(old(host.views), time.Value());
        }
      }
    }
  }
}
