# material-time-picker in Dafny

A model of the logic inside the Android material time picker dialog. The dialog
lets a user enter HH:MM one digit at a time on a ten-key keypad, and an animator
moves a highlight between the four digit labels. The model has three modules,
one per core source file:

- `Util` (`util.dfy`). Pure helpers of `Util.java`. They cover:
  - the tens/units digit arithmetic of `timeToMillis` and `millisToTime`, with Java's truncating division;
  - the clamping of a circular-reveal start point to the dialog rectangle (`getNearestDialogCoord` and its predicates);
  - the `(-1, -1)` default-point sentinel and the centre of a view;
  - the keypad grid (`fillGridAndSetItemsListener` over a `Grid` class whose children it appends);
  - the `assertArgs` validation of the fragment's arguments.
- `Animation` (`digit_animator.dfy`). The run protocol of `DigitAnimator.java`.
  - The host toolkit is a `Host` object. It holds the properties of the views, the animations started and not yet ended, and a ghost log of the calls made into it.
  - `AnimatorSet` creates every step's listener first. Then, step by step, it runs the step's start hook and starts its animation.
  - All of a set's animations report to one `CountingAnimListener`. It is a countdown barrier that runs every end hook once, in list order, on the count-th end event.
  - Animations are opaque. The environment ends them one at a time, in any order, through `DeliverAnimationEnd`.
  - `Host.Valid` keeps, across every interleaving, this invariant: each counting listener with pending animations has seen exactly as many end events as it still misses.
  - `DigitAnimator` holds the `isAnimating`/`curView` protocol and builds its move, value-switch and special-case runs.
- `Picker` (`material_time_picker.dfy`). The digit-entry state machine of `MaterialTimePicker.java`:
  - the `State` slot datatype (successor, label, enabled digits, the field it writes, saved ordinal);
  - the `Time` class with its setters and its parcel form;
  - the `MaterialTimePicker` class with the keypad click, the label click, `addressSpecialCases`, `setEnabledKeyboardDigits` with its reused digit set, `setUi` and `initProvidedState`.

  Outside a run, `MaterialTimePicker.Valid` keeps the keypad enabling exactly the current slot's digits.

The animator's `Callback` (the picker's `SelectionAnimatorListener`) is modelled as the count of
finished notifications that a call returns. The picker then runs `setUi` once per
notification. In the source it runs inside the call. The order of effects is the same:
- the selection step is the last step of every run, so every other end hook has already run;
- `setUi` does not read the animator's state.

Three behaviours of the source that the model keeps as they are:
- The special case corrects only hours 25..29. "24:mm" can be entered (`Picker.TwentyFourIsNotCorrected`).
- A label tap while a run is in flight still changes the slot, although the animator ignores the move (`Picker.MaterialTimePicker.OnLabelClick`).
- When a key click's new slot label is already current (a label tap during a move can arrange it), `animateTo` finishes at once and `setUi` relabels before `addressSpecialCases` runs. On 25..29 the SEC_HOUR label keeps showing the uncorrected digit while the time holds 3, because the special-case switch shows "3" only on its overlay (`Picker.CurrentLabelKeepsUncorrectedDigit`).

Source paths below are relative to the repository root.

## Model

| member | source | states |
|---|---|---|
| Util.JavaDiv | library/src/main/java/com/github/mostroverkhov/materialtimepicker/Util.java:176-180 | Java `int` division truncates toward zero: it agrees with floor division on non-negative operands and negates the quotient for a negative dividend |
| Util.IntToString | library/src/main/java/com/github/mostroverkhov/materialtimepicker/Util.java:126 | `String.valueOf` of a digit 0..9 is that digit's single character; the text is never empty |
| Util.SplitDigits | library/src/main/java/com/github/mostroverkhov/materialtimepicker/Util.java:176-180 | the tens and units of any `n` recombine to `n`; for `n >= 0` the tens are `n / 10` and the units a digit 0..9; for a negative `n` both parts are at most 0, as Java division truncates toward zero |
| Util.MillisToTime | library/src/main/java/com/github/mostroverkhov/materialtimepicker/Util.java:169-183 | combining the four digits millisToTime produces (`timeToMillis`) gives back the hours and minutes, for every input |
| Util.TimeToMillis | library/src/main/java/com/github/mostroverkhov/materialtimepicker/Util.java:155-160 | digits in the keypad's domain give hours in 0..29 and minutes in 0..59 |
| Util.SplitIsDecimal | library/src/main/java/com/github/mostroverkhov/materialtimepicker/Util.java:176-180 | splitting `n` in `[0, 10*bound)` gives a tens digit in `[0, bound)` and a units digit in 0..9, and together they recombine to `n` |
| Util.MillisToTimeInDomain | library/src/main/java/com/github/mostroverkhov/materialtimepicker/Util.java:169-183 | a calendar time of day (hours 0..23, minutes 0..59) splits into digits in the keypad's domain, and combining them gives back the same hours and minutes |
| Util.SplitAfterCombine | library/src/main/java/com/github/mostroverkhov/materialtimepicker/Util.java:155-183 | splitting inverts combining for digits whose tens are non-negative and whose units lie in 0..9 |
| Util.DefaultRevealStartPoint | library/src/main/java/com/github/mostroverkhov/materialtimepicker/Util.java:106-108 | the default reveal point is recognised by `isDefault` |
| Util.IsDefaultExactly | library/src/main/java/com/github/mostroverkhov/materialtimepicker/Util.java:110-112 | `isDefault(p)` holds iff `p` is the default point `(-1, -1)` |
| Util.DefaultPointFromView | library/src/main/java/com/github/mostroverkhov/materialtimepicker/Util.java:114-120 | a view's default point lies inside the view, within half a pixel of its exact centre on each axis |
| Util.RevealRegions | library/src/main/java/com/github/mostroverkhov/materialtimepicker/Util.java:312-326 | `isInsideTri` holds iff both `isOnXpath` and `isOnYpath` do; a target on the x-path only lies left or right of the rectangle, on the y-path only above or below it, and on neither towards a corner |
| Util.GetNearestX | library/src/main/java/com/github/mostroverkhov/materialtimepicker/Util.java:328-334 | the result is one of the two vertical edges, is at least as close to the target as either edge, and is the left edge on a tie |
| Util.GetNearestY | library/src/main/java/com/github/mostroverkhov/materialtimepicker/Util.java:336-342 | the result is one of the two horizontal edges, is at least as close to the target as either edge, and is the top edge on a tie |
| Util.GetNearestDialogCoord | library/src/main/java/com/github/mostroverkhov/materialtimepicker/Util.java:287-309 | for a rectangle with non-negative size, the result lies in `[0,width]x[0,height]` and is the target clamped into the rectangle, relative to its corner; a target inside the rectangle maps to exactly `target - left` |
| Util.KeypadLayout | library/src/main/java/com/github/mostroverkhov/materialtimepicker/Util.java:122-153 | ten keys, each enabled and labelled with its own digit; 1..9 fill three columns row by row (row*3 + col is the key's position) and 0 sits at row 3, column 1 |
| Util.KeypadPlacesEachDigitOnce | library/src/main/java/com/github/mostroverkhov/materialtimepicker/Util.java:141-152 | digit d in 1..9 sits at row (d-1)/3 and column (d-1)%3, 0 sits at (3,1), no two keys share a value or a cell, and every key is an enabled digit 0..9 |
| Util.FillGridAndSetItemsListener | library/src/main/java/com/github/mostroverkhov/materialtimepicker/Util.java:138-153 | the nested loops append exactly the keypad layout, in order, to the grid's children |
| Util.AssertArgs | library/src/main/java/com/github/mostroverkhov/materialtimepicker/Util.java:185-197 | validation passes iff the arguments are present and name one of the two targets; a missing bundle or a missing target fails with its own message |
| Animation.CreateListener | library/src/main/java/com/github/mostroverkhov/materialtimepicker/DigitAnimator.java:175-218 | a step's listener names only views of its step, and it is a selection listener iff the step is the selection step |
| Animation.AnimatedView | library/src/main/java/com/github/mostroverkhov/materialtimepicker/DigitAnimator.java:184-228 | the view a step animates is one of the step's views |
| Animation.StartHook | library/src/main/java/com/github/mostroverkhov/materialtimepicker/DigitAnimator.java:375-405 | a start hook keeps the set of views and keeps the listener's kind and the views it names |
| Animation.EndHook | library/src/main/java/com/github/mostroverkhov/materialtimepicker/DigitAnimator.java:369-423 | an end hook keeps the set of views; only a selection listener changes the current view (to its target) or the busy flag |
| Animation.StartHooks | library/src/main/java/com/github/mostroverkhov/materialtimepicker/DigitAnimator.java:280-285 | the start hooks in order keep the number of listeners, their kinds and the set of views |
| Animation.EndHooks | library/src/main/java/com/github/mostroverkhov/materialtimepicker/DigitAnimator.java:317-319 | the end hooks in order keep the set of views, and the current view stays one of them |
| Animation.EndHooksWithoutFinish | library/src/main/java/com/github/mostroverkhov/materialtimepicker/DigitAnimator.java:317-319 | end hooks that notify no finish leave `isAnimating` and `curView` as they were |
| Animation.LaunchesAt | library/src/main/java/com/github/mostroverkhov/materialtimepicker/DigitAnimator.java:280-294 | in the launch phase, step i's start hook is entry 2i and its animation start is entry 2i+1 |
| Animation.StartOrder | library/src/main/java/com/github/mostroverkhov/materialtimepicker/DigitAnimator.java:267-295 | `start` creates all n listeners before any start hook runs; then, for each step in registration order, the step's start hook runs immediately before its animation starts |
| Animation.LaunchedAt | library/src/main/java/com/github/mostroverkhov/materialtimepicker/DigitAnimator.java:286-293 | every animation of a set reports to the set's counting listener and carries its step's index and animated view; a start delay is set only when the delay is positive |
| Animation.CountLaunched | library/src/main/java/com/github/mostroverkhov/materialtimepicker/DigitAnimator.java:276-293 | a set of n steps gives its counting listener exactly n pending animations and gives other listeners none |
| Animation.CountRemove | library/src/main/java/com/github/mostroverkhov/materialtimepicker/DigitAnimator.java:311-321 | one ended animation lowers the pending count of its own listener by one and leaves every other count alone |
| Animation.LaunchAccounted | library/src/main/java/com/github/mostroverkhov/materialtimepicker/DigitAnimator.java:276-293 | starting a set whose counting listener is new and at 0 keeps every listener's seen-plus-pending count equal to its count |
| Animation.RunPendingLaunched | library/src/main/java/com/github/mostroverkhov/materialtimepicker/DigitAnimator.java:267-295 | the first animation a new set appends points to a counting listener holding the hooked listeners of the set's steps, waiting for one end per step, with none seen |
| Animation.RunPendingKept | library/src/main/java/com/github/mostroverkhov/materialtimepicker/DigitAnimator.java:276-293 | animations started later, appended behind a pending run, leave it pending |
| Animation.CountingAnimListener.constructor | library/src/main/java/com/github/mostroverkhov/materialtimepicker/DigitAnimator.java:304-309 | the listener keeps the count and the shared listener list and starts at 0 |
| Animation.CountingAnimListener.OnAnimationEnd | library/src/main/java/com/github/mostroverkhov/materialtimepicker/DigitAnimator.java:311-321 | the first count-1 events only add to the counter; the count-th resets it to 0 and runs every end hook once, in list order, logging each; `0 <= curCount < count` holds between events (the order itself is Animation.EndOrder) |
| Animation.EndOrder | library/src/main/java/com/github/mostroverkhov/materialtimepicker/DigitAnimator.java:311-321 | the end trace of a barrier's listeners has one end-hook entry per listener, in list order (the i-th hook entry is step i), plus one finish per selection listener, and nothing else |
| Animation.ListenerOnAnimationEnd | library/src/main/java/com/github/mostroverkhov/materialtimepicker/DigitAnimator.java:369-423 | each listener's `onAnimationEnd`: the digit listener restores the captured Y and alpha, the overlay is hidden, and the selection listener selects its target, makes it current and notifies one finish |
| Animation.DeliverAnimationEnd | library/src/main/java/com/github/mostroverkhov/materialtimepicker/DigitAnimator.java:311-321 | ending any pending animation runs its set's end hooks iff it was the set's last pending animation, whatever the order of the others; the barrier invariant is kept |
| Animation.AnimatorSet.constructor | library/src/main/java/com/github/mostroverkhov/materialtimepicker/DigitAnimator.java:256-261 | a checked set keeps its delay and starts with no steps |
| Animation.AnimatorSet.Default | library/src/main/java/com/github/mostroverkhov/materialtimepicker/DigitAnimator.java:263-265 | the no-argument constructor uses delay 0 |
| Animation.AnimatorSet.Create | library/src/main/java/com/github/mostroverkhov/materialtimepicker/DigitAnimator.java:256-261 | construction fails with "Delay should not be negative" iff the delay is negative; otherwise the new set has that delay and no steps |
| Animation.AnimatorSet.Add | library/src/main/java/com/github/mostroverkhov/materialtimepicker/DigitAnimator.java:250-254 | a step is appended after the registered ones |
| Animation.AnimatorSet.Start | library/src/main/java/com/github/mostroverkhov/materialtimepicker/DigitAnimator.java:267-295 | the views end as the start hooks in order leave them; one animation per step is pending with a new counting listener at 0 that holds the hooked listeners (a pending run); the log is the set followed by the start order; the barrier invariant is kept |
| Animation.AnimatorSet.Prepare | library/src/main/java/com/github/mostroverkhov/materialtimepicker/DigitAnimator.java:269-278 | the listeners of the steps are created in order and handed to a new counting listener of the same size, before any view changes |
| Animation.AnimatorSet.CreateAll | library/src/main/java/com/github/mostroverkhov/materialtimepicker/DigitAnimator.java:269-273 | the loop builds one listener per step, in order, and logs each creation |
| Animation.AnimatorSet.LaunchAll | library/src/main/java/com/github/mostroverkhov/materialtimepicker/DigitAnimator.java:280-294 | the loop runs the start hooks in order and starts one animation per step, with the set's delay only when it is positive |
| Animation.AnimatorSet.StartStep | library/src/main/java/com/github/mostroverkhov/materialtimepicker/DigitAnimator.java:284-293 | one step: its start hook, then its animation, reporting to the counting listener |
| Animation.DigitAnimator.constructor | library/src/main/java/com/github/mostroverkhov/materialtimepicker/DigitAnimator.java:43-57 | the animator is idle with duration 200; `init` puts the highlight at the current view's x and selects the current view |
| Animation.DigitAnimator.OnAnimationStarted | library/src/main/java/com/github/mostroverkhov/materialtimepicker/DigitAnimator.java:230-234 | the start notification is sent, the current view is deselected and the animator becomes busy |
| Animation.DigitAnimator.OnAnimationFinished | library/src/main/java/com/github/mostroverkhov/materialtimepicker/DigitAnimator.java:236-239 | the finish notification is sent and the animator is idle; no view changes |
| Animation.DigitAnimator.StartSelectionAnimator | library/src/main/java/com/github/mostroverkhov/materialtimepicker/DigitAnimator.java:123-136 | a move run is one selection step on a new set with delay 0; its counting listener holds the hooked selection listener, waits for one end and has seen none |
| Animation.DigitAnimator.StartSelectionAndValueSwitchAnimators | library/src/main/java/com/github/mostroverkhov/materialtimepicker/DigitAnimator.java:139-173 | a value-switch run is exactly three steps (digit fade of the current view, overlay with the new value, selection) on a new set with delay 0; its counting listener holds the three hooked listeners, waits for three ends and has seen none |
| Animation.DigitAnimator.AnimateTo | library/src/main/java/com/github/mostroverkhov/materialtimepicker/DigitAnimator.java:67-90 | while busy nothing changes; a run to the current view starts and finishes at once, ending idle with the view deselected; any other target starts a move or value-switch run over the deselected views, leaves the animator busy on the old current view, and its counting listener holds that run's hooked listeners with none of its ends seen |
| Animation.DigitAnimator.AnimateValue | library/src/main/java/com/github/mostroverkhov/materialtimepicker/DigitAnimator.java:92-121 | a negative delay is rejected before anything happens; otherwise a two-step run (digit fade, special overlay) starts with that delay, its counting listener holding both hooked listeners with no end seen; `isAnimating` and `curView` are never touched |
| Animation.RunSteps | library/src/main/java/com/github/mostroverkhov/materialtimepicker/DigitAnimator.java:96-173 | a move or value-switch run has one or three steps and its selection step is the last and only one; the special-case switch has two steps and no selection step |
| Animation.RunTraceNotifies | library/src/main/java/com/github/mostroverkhov/materialtimepicker/DigitAnimator.java:72-90 | an idle animateTo sends the start notification first; its next call is the finish notification iff the target is already current, and otherwise the start of the run's set with delay 0 |
| Animation.SwitchRunStarts | library/src/main/java/com/github/mostroverkhov/materialtimepicker/DigitAnimator.java:139-173 | starting a value-switch run captures the label's Y and alpha and shows the overlay with the new text at (label x, label y + height) |
| Animation.SwitchRunEnds | library/src/main/java/com/github/mostroverkhov/materialtimepicker/DigitAnimator.java:358-423 | ending a value-switch run notifies one finish, selects the target and makes it current, clears the busy flag, hides the overlay and restores the label's Y and alpha |
| Animation.SelectionRunEnds | library/src/main/java/com/github/mostroverkhov/materialtimepicker/DigitAnimator.java:408-423 | a move run has one step and a value-switch run three; either notifies exactly one finish, after which the target is selected and current and the animator is idle, the label's Y and alpha restored and the overlay hidden |
| Animation.PendingRunEnds | library/src/main/java/com/github/mostroverkhov/materialtimepicker/DigitAnimator.java:304-423 | a pending move or value-switch run in a barrier-accounted host fires after exactly one more end per step; its end hooks then notify one finish and leave the animator idle on the target |
| Animation.ValueRunStarts | library/src/main/java/com/github/mostroverkhov/materialtimepicker/DigitAnimator.java:97-121 | starting the special-case switch captures the label's Y and alpha and shows the overlay with the new text below the label |
| Animation.ValueRunEnds | library/src/main/java/com/github/mostroverkhov/materialtimepicker/DigitAnimator.java:358-406 | the special-case switch notifies no finish and keeps the busy flag and the current view; the label's Y and alpha are restored and the overlay ends hidden |
| Animation.PendingValueRunEnds | library/src/main/java/com/github/mostroverkhov/materialtimepicker/DigitAnimator.java:304-406 | a pending special-case switch fires after exactly two more ends; its end hooks notify no finish and keep the busy flag and the current view |
| Picker.State.GetSaveState | library/src/main/java/com/github/mostroverkhov/materialtimepicker/MaterialTimePicker.java:486-488 | the saved slot is an ordinal in [0,3] |
| Picker.State.GetFromSaveState | library/src/main/java/com/github/mostroverkhov/materialtimepicker/MaterialTimePicker.java:490-492 | an ordinal restores a slot iff it lies in [0,3] (otherwise the array index fails), and that slot saves back to it |
| Picker.SaveStateRoundTrip | library/src/main/java/com/github/mostroverkhov/materialtimepicker/MaterialTimePicker.java:486-492 | `getFromSaveState(s.getSaveState()) == s` for every slot, and every valid ordinal round-trips |
| Picker.State.Next | library/src/main/java/com/github/mostroverkhov/materialtimepicker/MaterialTimePicker.java:364-454 | each slot's successor has the next ordinal, modulo 4 |
| Picker.State.TargetView | library/src/main/java/com/github/mostroverkhov/materialtimepicker/MaterialTimePicker.java:369-459 | a slot's target view is a label bound back to that same slot |
| Picker.State.EnabledDigits | library/src/main/java/com/github/mostroverkhov/materialtimepicker/MaterialTimePicker.java:357-449 | a digit is enabled iff it is 0..9 and keeps its field a clock digit: at most 2 for the first hour, at most 5 for the first minute, and at most 3 for the second hour after a 2 |
| Picker.State.Field | library/src/main/java/com/github/mostroverkhov/materialtimepicker/MaterialTimePicker.java:375-466 | the digit a slot reads of an in-domain time is a decimal digit |
| Picker.State.WithField | library/src/main/java/com/github/mostroverkhov/materialtimepicker/MaterialTimePicker.java:375-467 | after the write the slot reads the written value and every other slot reads what it read before |
| Picker.NextCycles | library/src/main/java/com/github/mostroverkhov/materialtimepicker/MaterialTimePicker.java:364-454 | the successor goes FIRST_HOUR, SEC_HOUR, FIRST_MIN, SEC_MIN and back, returning after four steps and not before |
| Picker.NextNPeriodic | library/src/main/java/com/github/mostroverkhov/materialtimepicker/MaterialTimePicker.java:364-454 | advancing n+4 slots is advancing n slots |
| Picker.LabelState | library/src/main/java/com/github/mostroverkhov/materialtimepicker/MaterialTimePicker.java:264-269 | exactly the four digit labels are bound to a slot |
| Picker.LabelsBindTheirSlot | library/src/main/java/com/github/mostroverkhov/materialtimepicker/MaterialTimePicker.java:264-269 | each slot's label is bound to that slot, and a bound label is its slot's target view |
| Picker.WriteOnlyTheSlot | library/src/main/java/com/github/mostroverkhov/materialtimepicker/MaterialTimePicker.java:374-469 | writing v into a slot makes that slot read v, leaves the other three slots as they were, and writing a slot's own value changes nothing |
| Picker.SetTimeValue | library/src/main/java/com/github/mostroverkhov/materialtimepicker/MaterialTimePicker.java:374-469 | `setTimeValue` returns true iff the slot's old digit differs from the value, and afterwards only that slot's field has changed, to the value |
| Picker.SpecialCase | library/src/main/java/com/github/mostroverkhov/materialtimepicker/MaterialTimePicker.java:248-249 | after the correction the hour never reads 25..29 |
| Picker.SpecialCaseChangesOnlySecHour | library/src/main/java/com/github/mostroverkhov/materialtimepicker/MaterialTimePicker.java:244-254 | the correction changes the time iff the first hour digit is 2 and the second above 4, then only the second hour digit becomes 3; it is idempotent and yields a showable time from in-domain digits |
| Picker.TwentyFourIsNotCorrected | library/src/main/java/com/github/mostroverkhov/materialtimepicker/MaterialTimePicker.java:248 | hour 24 passes the correction unchanged |
| Picker.EnabledDigitKeepsClock | library/src/main/java/com/github/mostroverkhov/materialtimepicker/MaterialTimePicker.java:355-470 | writing a digit the slot enables into a showable time, then correcting, gives a showable time |
| Picker.CalendarTimeIsClock | library/src/main/java/com/github/mostroverkhov/materialtimepicker/MaterialTimePicker.java:300 | a time read from the calendar is showable |
| Picker.ParcelRoundTrip | library/src/main/java/com/github/mostroverkhov/materialtimepicker/MaterialTimePicker.java:512-574 | reading a Time back from where `writeToParcel` wrote its four ints (`EncodeTime`) gives the same Time, whatever surrounds them |
| Picker.DecodeTime | library/src/main/java/com/github/mostroverkhov/materialtimepicker/MaterialTimePicker.java:512-517 | reading four ints from a position inside the data gives the Time that writes exactly those four ints back |
| Picker.Parcel.WriteInt | library/src/main/java/com/github/mostroverkhov/materialtimepicker/MaterialTimePicker.java:570-573 | the int replaces the entry at the data position, or is appended when the position is at the end; the other entries are kept and the position advances by one |
| Picker.Parcel.ReadInt | library/src/main/java/com/github/mostroverkhov/materialtimepicker/MaterialTimePicker.java:513-516 | the int at the data position is read and the position advances by one; past the end the read gives 0 and the position stays; the data is unchanged |
| Picker.Time.constructor | library/src/main/java/com/github/mostroverkhov/materialtimepicker/MaterialTimePicker.java:502-503 | the default Time is 00:00 |
| Picker.Time.Of | library/src/main/java/com/github/mostroverkhov/materialtimepicker/MaterialTimePicker.java:505-510 | the four-digit constructor stores the four digits |
| Picker.Time.FromParcel | library/src/main/java/com/github/mostroverkhov/materialtimepicker/MaterialTimePicker.java:512-517 | four `readInt` calls fill the fields in order from the parcel's position |
| Picker.Time.SetFirstHour | library/src/main/java/com/github/mostroverkhov/materialtimepicker/MaterialTimePicker.java:535-537 | only the first hour digit changes |
| Picker.Time.SetSecHour | library/src/main/java/com/github/mostroverkhov/materialtimepicker/MaterialTimePicker.java:543-545 | only the second hour digit changes |
| Picker.Time.SetFirstMin | library/src/main/java/com/github/mostroverkhov/materialtimepicker/MaterialTimePicker.java:551-553 | only the first minute digit changes |
| Picker.Time.SetSecMin | library/src/main/java/com/github/mostroverkhov/materialtimepicker/MaterialTimePicker.java:559-561 | only the second minute digit changes |
| Picker.Time.WriteToParcel | library/src/main/java/com/github/mostroverkhov/materialtimepicker/MaterialTimePicker.java:568-574 | at any data position, the four digits are written in the order firstHour, secHour, firstMin, secMin, overwriting the slots there or extending the data past its end, and the position advances by four |
| Picker.ParcelCopy | library/src/main/java/com/github/mostroverkhov/materialtimepicker/MaterialTimePicker.java:512-574 | writing a Time to a parcel and reading it back from the start gives a new Time with the same digits |
| Picker.ProvidedTime | library/src/main/java/com/github/mostroverkhov/materialtimepicker/MaterialTimePicker.java:298-300 | millis 0 gives 00:00; otherwise the time is the digits of the calendar's hours and minutes |
| Picker.EnabledKeysAreTheSlotDigits | library/src/main/java/com/github/mostroverkhov/materialtimepicker/MaterialTimePicker.java:320-331 | with the slot's keys enabled, every digit 0..9 has a key, that key accepts clicks iff the digit is one of the slot's, and the 0 key is always enabled |
| Picker.DigitSet.constructor | library/src/main/java/com/github/mostroverkhov/materialtimepicker/MaterialTimePicker.java:335-336 | a new digit set is empty |
| Picker.DigitSet.Clear | library/src/main/java/com/github/mostroverkhov/materialtimepicker/MaterialTimePicker.java:337-338 | clearing empties the set |
| Picker.DigitSet.Add | library/src/main/java/com/github/mostroverkhov/materialtimepicker/MaterialTimePicker.java:323-325 | adding puts the digit into the set and keeps the others |
| Picker.MaterialTimePicker.Provided | library/src/main/java/com/github/mostroverkhov/materialtimepicker/MaterialTimePicker.java:294-302 | a fresh dialog starts in slot FIRST_HOUR, 00:00 for millis 0 (else the calendar's digits), a new instance, the animator idle on the FIRST_HOUR label, every slot's label showing that slot's digit of the time, and the keypad enabling 0, 1, 2 |
| Picker.MaterialTimePicker.SetUpKeypad | library/src/main/java/com/github/mostroverkhov/materialtimepicker/MaterialTimePicker.java:147-149 | the ten keys are added, then the first setUi runs: the four labels show the time's digits, nothing else in the views changes, and the slot's digits are enabled |
| Picker.MaterialTimePicker.GetDigitsSet | library/src/main/java/com/github/mostroverkhov/materialtimepicker/MaterialTimePicker.java:333-341 | the first call makes a new empty set; later calls return the same set, cleared |
| Picker.MaterialTimePicker.SetEnabledKeyboardDigits | library/src/main/java/com/github/mostroverkhov/materialtimepicker/MaterialTimePicker.java:320-331 | each key becomes enabled iff its value is one of the digits; nothing else about the keys changes; the reused set is kept |
| Picker.MaterialTimePicker.SetUi | library/src/main/java/com/github/mostroverkhov/materialtimepicker/MaterialTimePicker.java:355-478 | the four labels show the time's digits, then the keypad enables exactly the slot's digits (0..3 for the second hour after a 2, else the slot's fixed set) |
| Picker.RelabelShowsTime | library/src/main/java/com/github/mostroverkhov/materialtimepicker/MaterialTimePicker.java:472-477 | after setUi's relabelling every slot's label shows that slot's digit of the time as text, and no other view and no other property changes |
| Picker.RelabelIdempotent | library/src/main/java/com/github/mostroverkhov/materialtimepicker/MaterialTimePicker.java:472-477 | relabelling twice with the same time is relabelling once, so repeated finish notifications leave the same labels |
| Picker.MaterialTimePicker.AddressSpecialCases | library/src/main/java/com/github/mostroverkhov/materialtimepicker/MaterialTimePicker.java:244-254 | the time becomes its correction. Only when the correction fires is the special-case switch launched: two animations of the SEC_HOUR label to "3" with delay 70 are appended behind the pending ones, their barrier waits for both, and the views are the ones its start hooks leave. Otherwise no view or animation changes. Animations already pending stay where they were |
| Picker.MaterialTimePicker.CorrectSecHour | library/src/main/java/com/github/mostroverkhov/materialtimepicker/MaterialTimePicker.java:248-253 | the corrective branch: the second hour digit becomes 3, and the switch of its label to "3" is launched with delay 70 behind the animations already pending (two appended animations, a barrier of two, its start hooks applied to the views) |
| Picker.MaterialTimePicker.AnimateToSlot | library/src/main/java/com/github/mostroverkhov/materialtimepicker/MaterialTimePicker.java:215-219 | asks for a run to the slot's label. While busy nothing changes. The keypad enables the slot's digits whenever the animator ends idle. An idle request leaves the animator busy iff the label is not current. When the label is current the run finishes at once: the current view is deselected and the four labels show the time's digits. Otherwise the run's animations are appended and pending over the deselected views, with its start hooks applied |
| Picker.MaterialTimePicker.OnKeyClick | library/src/main/java/com/github/mostroverkhov/materialtimepicker/MaterialTimePicker.java:208-221 | a click while busy changes nothing. Otherwise the digit is written and the slot advances. A value-switch (digit changed) or move run to the new slot's label starts and stays pending, leaving the animator busy unless the label was current. Then the correction runs: on 25..29 the special-case switch is launched behind that run, and otherwise nothing more is appended and the views are those the run left. An enabled key keeps the time showable |
| Picker.MaterialTimePicker.MoveAndCorrect | library/src/main/java/com/github/mostroverkhov/materialtimepicker/MaterialTimePicker.java:214-221 | the run to the slot's label, then the correction. The log is the run's, then the correction's. The animator is busy iff the label was not current, and then the run is pending. When the correction fires, the special-case switch is launched behind the run over the views the run left; otherwise nothing more is appended |
| Picker.CurrentLabelKeepsUncorrectedDigit | library/src/main/java/com/github/mostroverkhov/materialtimepicker/MaterialTimePicker.java:214-253 | when a click's new slot label is already current and the written time is 25..29, setUi relabels before the correction: the SEC_HOUR label ends showing the uncorrected digit, which differs from the corrected time's "3" |
| Picker.SlotRunEndsOnLabel | library/src/main/java/com/github/mostroverkhov/materialtimepicker/MaterialTimePicker.java:214-219 | the run a click leaves pending ends after one end per step (one for a move, three for a value switch) with a single finished notification, leaving the animator idle on the label of the slot the click advanced to |
| Picker.CorrectionEnds | library/src/main/java/com/github/mostroverkhov/materialtimepicker/MaterialTimePicker.java:248-253 | the special-case switch a correction launched ends after exactly two more ends with no finished notification: the busy flag and the current view are kept, the SEC_HOUR label's Y and alpha are restored and the overlay is hidden |
| Picker.MaterialTimePicker.OnLabelClick | library/src/main/java/com/github/mostroverkhov/materialtimepicker/MaterialTimePicker.java:304-318 | a label tap makes the label's bound slot current, whatever it was, and asks for a move run to it. While busy the animator and the pending animations are unchanged. When idle and the label is current, the run finishes at once: the current view is deselected and the four labels show the time's digits. When idle and the label is not current, the animator becomes busy with that move run pending over the deselected views, its start hooks applied |
| Picker.MaterialTimePicker.OnAnimationEnd | library/src/main/java/com/github/mostroverkhov/materialtimepicker/MaterialTimePicker.java:343-353 | ending any pending animation keeps the dialog's invariant, including the keypad matching the slot once the animator is idle; slot and time are unchanged |
| Picker.MaterialTimePicker.NotifyFinished | library/src/main/java/com/github/mostroverkhov/materialtimepicker/MaterialTimePicker.java:349-352 | each finished notification runs the slot's setUi: after one or more, the four labels show the time's digits and the keypad enables exactly the slot's digits; with none nothing changes |

## Left out

- Android lifecycle, layout inflation, theming, window sizing and dialog creation (`onCreateDialog`, `newDialog`, `onStart`, `setDialogSize`, `getWindowSize`, `getStyleReference`) are Android framework glue. `Picker.MaterialTimePicker.Provided` takes their place with a layout of seven views.
- `initSavedState`, `onSaveInstanceState` and the Bundle plumbing are left out. The saved ordinal (`State.GetSaveState`/`GetFromSaveState`) and the `Time` parcel are modelled; the Bundle itself is not.
- `Calendar` is background library state: time zones and the date of today. The hours and minutes it reads from millis are parameters of `ProvidedTime`. `timeToMillis` is modelled only as the hours and minutes it hands to the calendar.
- The circular reveal (`circularReveal`, `reverseCircularReveal`, `getAbsCoordsFor`) is left out. It uses a float radius and a third-party animator. Only the clamping of its start point is modelled.
- Animation interpolation, durations, float translations and alpha fading are left out. An animation is an opaque pending entry, and its end is an input from the host. View coordinates are whole numbers.
- The selection highlight's translation to the target is one of those opaque effects, so no member states where the highlight ends.
- Result routing (`ActivityCallbacks`, `FragmentCallbacks`, `newCallbacks`, `newResultTimeIntent`), the OK and cancel buttons, and `MaterialTimePickerBuilder`, `MaterialPickerDialog`, `SelectionAnimator` and `MainActivity` are thin delegation to platform objects.
- Picker.Time.WriteToParcel and Picker.Time.FromParcel do not model Java's 32-bit `int` width. Digits are unbounded integers; a keypad click only ever writes a key's digit 0..9.
- Util.JavaDiv and Util.Abs do not model 32-bit overflow at `Integer.MIN_VALUE`, which no time digit reaches.
- Util.GetNearestDialogCoord does not model 32-bit overflow of `loc.x + width` and `loc.y + height`. Screen coordinates and view sizes are unbounded integers here; on a device they are far below 2^31.
- Animation.DigitAnimator.constructor runs `init`'s `post()` at once instead of on the next frame.
- Picker.MaterialTimePicker.AnimateToSlot and Picker.MaterialTimePicker.NotifyFinished run `setUi` after the animator call returns instead of from inside its callback. The order of effects is the same (see above).
- Picker.MaterialTimePicker.OnAnimationEnd does not restate the end-hook effects that `Animation.DeliverAnimationEnd` already states. Its contract keeps only the dialog's invariant, slot and time.
- The `Callback.onAnimationStarted` of the picker is empty; only its call is logged.
- The click listeners of the keys are not modelled as objects. A click is `OnKeyClick` on a key index, and a label tap is `OnLabelClick` on a view.
- Android's `Parcel` is modelled only as far as `Time` uses it: a sequence of ints with a data position, plus `SetDataPosition`, which `Picker.ParcelCopy` uses to rewind before reading back.
- `Animation.Host` stands for the Android view system and has no counterpart in the repository; its constructor only sets up the layout, with no animation pending and an empty log.
