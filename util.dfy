/** Pure helpers of the time picker: digit arithmetic of the time conversions,
    the clamping of a circular-reveal start point to the dialog rectangle, the
    default-point sentinel, the keypad grid layout and argument validation. */
module Util {

  datatype Option<T> = None | Some(value: T)

  /** Java's `/` on `int`: the quotient is truncated toward zero. */
  function JavaDiv(a: int, b: int): (q: int)
    requires b != 0
    ensures 0 <= a && 0 < b ==> q == a / b
    ensures a < 0 && 0 < b ==> q == -((-a) / b)
  {
    if (a < 0) == (b < 0) then Abs(a) / Abs(b) else -(Abs(a) / Abs(b))
  }

  /** Java's `Math.abs` on unbounded integers (the wrap-around at
      `Integer.MIN_VALUE` is not modelled). */
  function Abs(a: int): (r: int)
    ensures 0 <= r && (r == a || r == -a)
  {
    if a < 0 then -a else a
  }

  /** Java's `String.valueOf(int)`: the decimal representation. */
  function IntToString(n: int): (s: string)
    ensures 0 <= n <= 9 ==> s == [('0' as int + n) as char]
    ensures |s| >= 1
  {
    if n < 0 then "-" + NatToString(-n) else NatToString(n)
  }

  function NatToString(n: nat): (s: string)
    ensures n <= 9 ==> s == [('0' as int + n) as char]
    ensures |s| >= 1
  {
    if n < 10 then [('0' as int + n) as char]
    else NatToString(n / 10) + [('0' as int + n % 10) as char]
  }

  // ---------------------------------------------------------------------------
  // Digit arithmetic of timeToMillis / millisToTime

  /** The four decimal digits of an HH:MM time, as the picker's `Time` holds them. */
  datatype TimeValue = TimeValue(firstHour: int, secHour: int, firstMin: int, secMin: int)

  /** The digits lie in the domain the keypad offers: HH in 00..29 with a
      first digit 0..2, MM in 00..59. */
  predicate DigitsInDomain(t: TimeValue) {
    0 <= t.firstHour <= 2 && 0 <= t.secHour <= 9 && 0 <= t.firstMin <= 5 && 0 <= t.secMin <= 9
  }

  /** Tens and units of `n` as millisToTime computes them:
      `first = n / 10; sec = n - first * 10`. */
  function SplitDigits(n: int): (r: (int, int))
    ensures r.0 * 10 + r.1 == n
    ensures 0 <= n ==> r.0 == n / 10 && 0 <= r.1 <= 9
    ensures n < 0 ==> r.0 <= 0 && -9 <= r.1 <= 0
  {
    var first := JavaDiv(n, 10);
    (first, n - first * 10)
  }

  /** The digit part of millisToTime: the hours of the day and the minutes
      (which the host calendar supplies) split into four digits. */
  function MillisToTime(hours: int, mins: int): (t: TimeValue)
    ensures TimeToMillis(t) == (hours, mins)
  {
    var (fh, sh) := SplitDigits(hours);
    var (fm, sm) := SplitDigits(mins);
    TimeValue(fh, sh, fm, sm)
  }

  /** The digit part of timeToMillis: the hours and minutes handed to the
      host calendar. */
  function TimeToMillis(t: TimeValue): (hm: (int, int))
    ensures DigitsInDomain(t) ==> 0 <= hm.0 <= 29 && 0 <= hm.1 <= 59
  {
    (t.firstHour * 10 + t.secHour, t.firstMin * 10 + t.secMin)
  }

  /** Splitting a value of a clock field gives its tens and units digits. */
  lemma SplitIsDecimal(n: int, bound: int)
    requires 0 <= n < bound * 10 && 0 < bound
    ensures 0 <= SplitDigits(n).0 < bound
    ensures 0 <= SplitDigits(n).1 <= 9
    ensures SplitDigits(n).0 * 10 + SplitDigits(n).1 == n
  {
  }

  /** A time of day read from the calendar splits into in-domain digits that
      combine back to the same hours and minutes. */
  lemma MillisToTimeInDomain(hours: int, mins: int)
    requires 0 <= hours <= 23 && 0 <= mins <= 59
    ensures DigitsInDomain(MillisToTime(hours, mins))
    ensures TimeToMillis(MillisToTime(hours, mins)) == (hours, mins)
  {
    SplitIsDecimal(hours, 3);
    SplitIsDecimal(mins, 6);
  }

  lemma DivTen(a: int, b: int)
    requires 0 <= a && 0 <= b <= 9
    ensures (a * 10 + b) / 10 == a
  {
    var n := a * 10 + b;
    var q, r := n / 10, n % 10;
    assert n == q * 10 + r && 0 <= r < 10;
    assert (q - a) * 10 == b - r;
  }

  /** Digits with non-negative tens and units in 0..9 survive a combine
      followed by a split unchanged. */
  lemma SplitAfterCombine(t: TimeValue)
    requires 0 <= t.firstHour && 0 <= t.secHour <= 9 && 0 <= t.firstMin && 0 <= t.secMin <= 9
    ensures MillisToTime(TimeToMillis(t).0, TimeToMillis(t).1) == t
  {
    DivTen(t.firstHour, t.secHour);
    DivTen(t.firstMin, t.secMin);
  }

  // ---------------------------------------------------------------------------
  // Reveal start point

  datatype Point = Point(x: int, y: int) {
    /** android.graphics.Point.offset */
    function Offset(dx: int, dy: int): (p: Point)
      ensures p.x - x == dx && p.y - y == dy
    {
      Point(x + dx, y + dy)
    }
  }

  /** The sentinel meaning "no touch point was supplied". */
  function DefaultRevealStartPoint(): (p: Point)
    ensures IsDefault(p)
  {
    Point(-1, -1)
  }

  predicate IsDefault(p: Point) {
    p.x == -1 && p.y == -1
  }

  lemma IsDefaultExactly(p: Point)
    ensures IsDefault(p) <==> p == DefaultRevealStartPoint()
  {
  }

  /** The centre of a view: its left/top corner plus half of its (truncated)
      width and height. */
  function DefaultPointFromView(left: int, top: int, width: int, height: int): (p: Point)
    ensures 0 <= width ==> left <= p.x <= left + width && width - 1 <= 2 * (p.x - left) <= width
    ensures 0 <= height ==> top <= p.y <= top + height && height - 1 <= 2 * (p.y - top) <= height
  {
    Point(left + JavaDiv(width, 2), top + JavaDiv(height, 2))
  }

  /** Target can be reached from the rectangle by moving along x only. */
  predicate IsOnXpath(left: Point, bot: Point, target: Point) {
    target.y >= left.y && target.y <= bot.y
  }

  /** Target can be reached from the rectangle by moving along y only. */
  predicate IsOnYpath(left: Point, bot: Point, target: Point) {
    target.x >= left.x && target.x <= bot.x
  }

  predicate IsInsideTri(left: Point, bot: Point, target: Point) {
    (target.x >= left.x) && (target.y >= left.y) && (target.x <= bot.x) && (target.y <= bot.y)
  }

  /** The three tests split the plane around the rectangle: inside is on
      both paths; on the x-path only is beside it, on the y-path only is
      above or below it, and on neither is towards a corner. */
  lemma RevealRegions(left: Point, bot: Point, target: Point)
    ensures IsInsideTri(left, bot, target) <==> IsOnXpath(left, bot, target) && IsOnYpath(left, bot, target)
    ensures IsOnXpath(left, bot, target) && !IsInsideTri(left, bot, target) ==> target.x < left.x || target.x > bot.x
    ensures IsOnYpath(left, bot, target) && !IsInsideTri(left, bot, target) ==> target.y < left.y || target.y > bot.y
    ensures !IsOnXpath(left, bot, target) && !IsOnYpath(left, bot, target) ==>
      (target.x < left.x || target.x > bot.x) && (target.y < left.y || target.y > bot.y)
  {
  }

  /** The x of whichever vertical edge is closer to the target; the left edge
      when both are as close. */
  function GetNearestX(left: Point, bot: Point, target: Point): (r: int)
    ensures r == left.x || r == bot.x
    ensures Abs(target.x - r) <= Abs(target.x - left.x) && Abs(target.x - r) <= Abs(target.x - bot.x)
    ensures Abs(target.x - left.x) == Abs(target.x - bot.x) ==> r == left.x
  {
    var toLeft := Abs(target.x - left.x);
    var toBot := Abs(target.x - bot.x);
    var lower := if toLeft <= toBot then toLeft else toBot;
    if lower == toLeft then left.x else bot.x
  }

  /** The y of whichever horizontal edge is closer to the target; the top edge
      when both are as close. */
  function GetNearestY(left: Point, bot: Point, target: Point): (r: int)
    ensures r == left.y || r == bot.y
    ensures Abs(target.y - r) <= Abs(target.y - left.y) && Abs(target.y - r) <= Abs(target.y - bot.y)
    ensures Abs(target.y - left.y) == Abs(target.y - bot.y) ==> r == left.y
  {
    var toLeft := Abs(target.y - left.y);
    var toBot := Abs(target.y - bot.y);
    var lower := if toLeft <= toBot then toLeft else toBot;
    if lower == toLeft then left.y else bot.y
  }

  /** Reference definition: clamp `v` into `[lo, hi]`. */
  function Clamp(v: int, lo: int, hi: int): int {
    if v < lo then lo else if v > hi then hi else v
  }

  /** The point of the dialog rectangle nearest to `target`, relative to the
      dialog's top-left corner `loc`. The rectangle is `[loc, loc + (width, height)]`. */
  method GetNearestDialogCoord(loc: Point, width: int, height: int, target: Point) returns (point: Point)
    ensures 0 <= width && 0 <= height ==> 0 <= point.x <= width && 0 <= point.y <= height
    ensures 0 <= width && 0 <= height ==>
      point == Point(Clamp(target.x, loc.x, loc.x + width) - loc.x, Clamp(target.y, loc.y, loc.y + height) - loc.y)
    ensures IsInsideTri(loc, Point(loc.x + width, loc.y + height), target) ==>
      point == Point(target.x - loc.x, target.y - loc.y)
  {
    var left := Point(loc.x, loc.y);
    var bot := Point(loc.x + width, loc.y + height);
    if IsInsideTri(left, bot, target) {
      point := Point(target.x, target.y);
    } else if IsOnXpath(left, bot, target) {
      point := Point(GetNearestX(left, bot, target), target.y);
    } else if IsOnYpath(left, bot, target) {
      point := Point(target.x, GetNearestY(left, bot, target));
    } else {
      point := Point(GetNearestX(left, bot, target), GetNearestY(left, bot, target));
    }
    point := point.Offset(-left.x, -left.y);
  }

  // ---------------------------------------------------------------------------
  // Keypad grid

  /** One keypad key: its value tag, its label, its grid cell and whether it
      accepts clicks. */
  datatype GridItem = GridItem(value: int, text: string, row: int, col: int, enabled: bool)

  /** The keypad GridLayout: its children in the order they were added. */
  class Grid {
    var children: seq<GridItem>

    constructor ()
      ensures children == []
    {
      children := [];
    }
  }

  /** newGridItem: a fresh (enabled) key showing `val` in the given cell. */
  function NewGridItem(val: int, row: int, col: int): (g: GridItem)
    ensures g.value == val && g.row == row && g.col == col && g.enabled
  {
    GridItem(val, IntToString(val), row, col, true)
  }

  /** The ten keys in the order fillGridAndSetItemsListener adds them. */
  function KeypadLayout(): (ks: seq<GridItem>)
    ensures |ks| == 10
    ensures forall k :: 0 <= k < 10 ==>
      0 <= ks[k].value <= 9 && ks[k].enabled && ks[k].text == [('0' as int + ks[k].value) as char]
    ensures forall k :: 0 <= k < 9 ==> ks[k].value == k + 1 && 0 <= ks[k].col < 3 && ks[k].row * 3 + ks[k].col == k
    ensures ks[9].value == 0 && ks[9].row == 3 && ks[9].col == 1
  {
    seq(9, k requires 0 <= k < 9 => NewGridItem(k + 1, k / 3, k % 3)) + [NewGridItem(0, 3, 1)]
  }

  /** Every digit 0..9 is on the keypad exactly once; 1..9 fill a 3x3 block
      row by row and 0 sits alone in the middle of the fourth row. */
  lemma KeypadPlacesEachDigitOnce()
    ensures forall k :: 0 <= k < 9 ==>
      KeypadLayout()[k].value == k + 1 && KeypadLayout()[k].row == k / 3 && KeypadLayout()[k].col == k % 3
    ensures KeypadLayout()[9].value == 0 && KeypadLayout()[9].row == 3 && KeypadLayout()[9].col == 1
    ensures forall i, j :: 0 <= i < j < 10 ==> KeypadLayout()[i].value != KeypadLayout()[j].value
    ensures forall i, j :: 0 <= i < j < 10 ==>
      (KeypadLayout()[i].row, KeypadLayout()[i].col) != (KeypadLayout()[j].row, KeypadLayout()[j].col)
    ensures forall i :: 0 <= i < 10 ==> 0 <= KeypadLayout()[i].value <= 9 && KeypadLayout()[i].enabled
  {
    var ks := KeypadLayout();
    assert ks[9] == NewGridItem(0, 3, 1);
    forall i, j | 0 <= i < j < 10
      ensures (ks[i].row, ks[i].col) != (ks[j].row, ks[j].col)
    {
      assert i == ks[i].row * 3 + ks[i].col || i == 9;
      assert j == ks[j].row * 3 + ks[j].col || j == 9;
    }
  }

  /** fillGridAndSetItemsListener: adds the keys 1..9 row by row, then 0.
      (Every key gets the same click listener; listeners are not modelled.) */
  method FillGridAndSetItemsListener(parent: Grid)
    modifies parent
    ensures parent.children == old(parent.children) + KeypadLayout()
  {
    ghost var before := parent.children;
    var pos := 1;
    for i := 0 to 3
      invariant pos == 3 * i + 1
      invariant parent.children == before + KeypadLayout()[..3 * i]
    {
      for j := 0 to 3
        invariant pos == 3 * i + j + 1
        invariant parent.children == before + KeypadLayout()[..3 * i + j]
      {
        var view := NewGridItem(pos, i, j);
        assert KeypadLayout()[3 * i + j] == view;
        assert KeypadLayout()[..3 * i + j + 1] == KeypadLayout()[..3 * i + j] + [view];
        parent.children := parent.children + [view];
        pos := pos + 1;
      }
    }
    var child := NewGridItem(0, 3, 1);
    assert KeypadLayout() == KeypadLayout()[..9] + [child];
    parent.children := parent.children + [child];
  }

  // ---------------------------------------------------------------------------
  // Argument validation

  /** The two values MaterialTimePickerBuilder stores under the target key. */
  const TARGET_ACTIVITY: string := "args:target_activity"
  const TARGET_FRAGMENT: string := "args:target_fragment"

  /** The part of the fragment's argument bundle that assertArgs reads: the
      string stored under the target key, if any. */
  datatype Args = Args(target: Option<string>)

  datatype ArgsCheck = ArgsOk | IllegalArgument(message: string)

  /** assertArgs: the arguments must be set and name one of the two targets. */
  function AssertArgs(args: Option<Args>): (r: ArgsCheck)
    ensures r.ArgsOk? <==>
      args.Some? && args.value.target.Some? &&
      (args.value.target.value == TARGET_ACTIVITY || args.value.target.value == TARGET_FRAGMENT)
    ensures args.None? ==> r == IllegalArgument("fragment arguments should be set")
    ensures args.Some? && args.value.target.None? ==>
      r == IllegalArgument("fragment argument: target should be present")
  {
    if args.None? then IllegalArgument("fragment arguments should be set")
    else if args.value.target.None? then IllegalArgument("fragment argument: target should be present")
    else if args.value.target.value != TARGET_ACTIVITY && args.value.target.value != TARGET_FRAGMENT then
      IllegalArgument("Target should be Builder.TARGET_ACTIVITY or Builder.TARGET_FRAGMENT")
    else ArgsOk
  }
}
