/** The weekly heating schedule parser (`parseSchedule`): set-point records
    `{ dayIndex, time, actions: [{ attribute, value }, ...] }` become seven weekday lists of
    `[time, value]` pairs, in input order. */
module Schedule {
  import opened Js

  /** One `[time, value]` pair of a weekday list; `value` is `Null` when the action's
      value was null or undefined. */
  datatype Slot = Slot(time: Json, value: Json)

  /** The keys of the schedule object. */
  datatype Weekday = Mon | Tue | Wed | Thu | Fri | Sat | Sun {
    /** The key's text in the schedule object. */
    function Name(): string {
      match this
      case Mon => "Mon" case Tue => "Tue" case Wed => "Wed" case Thu => "Thu"
      case Fri => "Fri" case Sat => "Sat" case Sun => "Sun"
    }
  }

  /** The `days` table: day index 1..7 names a weekday. */
  function DayOf(index: nat): Weekday
    requires 1 <= index <= 7
  {
    match index
    case 1 => Mon case 2 => Tue case 3 => Wed case 4 => Thu
    case 5 => Fri case 6 => Sat case _ => Sun
  }

  const WeekDays: set<Weekday> := {Mon, Tue, Wed, Thu, Fri, Sat, Sun}

  /** The schedule object before any set point is added. */
  const EmptyWeek: map<Weekday, seq<Slot>> :=
    map[Mon := [], Tue := [], Wed := [], Thu := [], Fri := [], Sat := [], Sun := []]

  lemma DayOfInjective(d: nat, e: nat)
    requires 1 <= d <= 7 && 1 <= e <= 7
    ensures DayOf(d) == DayOf(e) <==> d == e
  {
  }

  lemma DayNamesAreWeekDays(d: nat)
    requires 1 <= d <= 7
    ensures DayOf(d) in WeekDays
  {
  }

  /** The day index `days[dayIndex]` resolves: the property key of `dayIndex` must be one
      of "1".."7". Numbers and strings convert to their text, and a one-element array
      to the text of its element. */
  function DayNumber(dayIndex: Json): (r: Option<nat>)
    ensures r.Some? ==> 1 <= r.value <= 7
    ensures dayIndex.Num? ==> (r.Some? <==> dayIndex.n in {1.0, 2.0, 3.0, 4.0, 5.0, 6.0, 7.0})
    ensures dayIndex.Num? && r.Some? ==> r.value as real == dayIndex.n
  {
    match dayIndex
    case Num(n) => if n == n.Floor as real && 1 <= n.Floor <= 7 then Some(n.Floor as nat) else None
    case Str(s) => if |s| == 1 && '1' <= s[0] <= '7' then Some(s[0] as int - '0' as int) else None
    case Arr(a) => if |a| == 1 && !Nullish(a[0]) then DayNumber(a[0]) else None
    case _ => None
  }

  /** What one loop iteration does with `point`: the day it is filed under and the pair
      pushed, or the TypeError it raises (a missing `actions[0]`, or a day index that
      names no weekday). */
  function SlotOf(point: Json): (r: Result<(nat, Slot), Thrown>)
    ensures r.Ok? ==> 1 <= r.value.0 <= 7
    ensures r.Ok? <==>
              && !Nullish(point)
              && !Nullish(Field(point, "actions"))
              && !Nullish(Elem(Field(point, "actions"), 0))
              && DayNumber(Field(point, "dayIndex")).Some?
    ensures r.Ok? ==> r.value.0 == DayNumber(Field(point, "dayIndex")).value
    ensures r.Ok? ==> r.value.1.time == Field(point, "time")
    ensures r.Ok? ==>
              var v := Field(Elem(Field(point, "actions"), 0), "value");
              r.value.1.value == if Nullish(v) then Null else v
  {
    var actions :- Read(point, "actions");
    var first :- ReadAt(actions, 0);
    var value :- Read(first, "value");
    var day := DayNumber(Field(point, "dayIndex"));
    if day.None? then Err(TypeError)
    else Ok((day.value, Slot(Field(point, "time"), if !Nullish(value) then value else Null)))
  }

  /** The result of `parseSchedule(setpoints)`, defined one set point at a time. */
  function ScheduleOf(setpoints: seq<Json>): (r: Result<map<Weekday, seq<Slot>>, Thrown>)
    ensures r.Ok? ==> r.value.Keys == WeekDays
    decreases |setpoints|
  {
    if setpoints == [] then Ok(EmptyWeek)
    else
      var week :- ScheduleOf(setpoints[..|setpoints| - 1]);
      var entry :- SlotOf(setpoints[|setpoints| - 1]);
      var day := DayOf(entry.0);
      DayNamesAreWeekDays(entry.0);
      Ok(week[day := week[day] + [entry.1]])
  }

  /** `parseSchedule(setpoints)`: the source loop, pushing each pair onto its day's list. */
  method ParseSchedule(setpoints: seq<Json>) returns (r: Result<map<Weekday, seq<Slot>>, Thrown>)
    ensures r == ScheduleOf(setpoints)
  {
    var schedule := EmptyWeek;
    var i := 0;
    while i < |setpoints|
      invariant 0 <= i <= |setpoints|
      invariant ScheduleOf(setpoints[..i]) == Ok(schedule)
    {
      var point := setpoints[i];
      assert setpoints[..i + 1][..i] == setpoints[..i];
      var entry := SlotOf(point);
      if entry.Err? {
        assert ScheduleOf(setpoints[..i + 1]).Err?;
        ScheduleFailsFrom(setpoints, i + 1);
        var failure := ScheduleOf(setpoints);
        assert failure.Err? && failure.error == TypeError;
        return Err(TypeError);
      }
      var day := DayOf(entry.value.0);
      DayNamesAreWeekDays(entry.value.0);
      schedule := schedule[day := schedule[day] + [entry.value.1]];
      i := i + 1;
    }
    assert setpoints[..i] == setpoints;
    r := Ok(schedule);
  }

  /** Once a prefix throws, the whole list throws. */
  lemma {:induction false} ScheduleFailsFrom(setpoints: seq<Json>, k: nat)
    requires k <= |setpoints|
    requires ScheduleOf(setpoints[..k]).Err?
    ensures ScheduleOf(setpoints).Err?
    decreases |setpoints| - k
  {
    if k < |setpoints| {
      assert setpoints[..k + 1][..k] == setpoints[..k];
      ScheduleFailsFrom(setpoints, k + 1);
    } else {
      assert setpoints[..k] == setpoints;
    }
  }

  /** Parsing succeeds exactly when every set point has a first action and a day index
      in 1..7. */
  lemma {:induction false} ScheduleOkIff(setpoints: seq<Json>)
    ensures ScheduleOf(setpoints).Ok? <==> forall i :: 0 <= i < |setpoints| ==> SlotOf(setpoints[i]).Ok?
    decreases |setpoints|
  {
    if setpoints != [] {
      var n := |setpoints|;
      var init := setpoints[..n - 1];
      ScheduleOkIff(init);
      assert ScheduleOf(setpoints).Ok? <==> ScheduleOf(init).Ok? && SlotOf(setpoints[n - 1]).Ok?;
      assert forall i :: 0 <= i < n - 1 ==> init[i] == setpoints[i];
    }
  }

  /** Reference definition: the pairs of the set points filed under day `d`, in input order. */
  function DaySlots(setpoints: seq<Json>, d: nat): seq<Slot>
    decreases |setpoints|
  {
    if setpoints == [] then []
    else
      var rest := DaySlots(setpoints[..|setpoints| - 1], d);
      var entry := SlotOf(setpoints[|setpoints| - 1]);
      if entry.Ok? && entry.value.0 == d then rest + [entry.value.1] else rest
  }

  /** Each weekday list holds exactly that day's pairs, in input order: nothing is
      sorted, merged or dropped. */
  lemma {:induction false} ScheduleByDay(setpoints: seq<Json>, d: nat)
    requires 1 <= d <= 7
    requires ScheduleOf(setpoints).Ok?
    ensures ScheduleOf(setpoints).value[DayOf(d)] == DaySlots(setpoints, d)
    decreases |setpoints|
  {
    if setpoints != [] {
      var n := |setpoints|;
      ScheduleStepOk(setpoints);
      ScheduleStepValue(setpoints);
      ScheduleByDay(setpoints[..n - 1], d);
      var entry := SlotOf(setpoints[n - 1]).value;
      DayOfInjective(entry.0, d);
    }
  }

  /** Total number of pairs in a schedule. */
  function SlotCount(week: map<Weekday, seq<Slot>>): nat
    requires week.Keys == WeekDays
  {
    |week[Mon]| + |week[Tue]| + |week[Wed]| + |week[Thu]| + |week[Fri]| + |week[Sat]| + |week[Sun]|
  }

  /** Every set point adds exactly one pair: the list lengths sum to the input length. */
  lemma {:induction false} ScheduleCount(setpoints: seq<Json>)
    requires ScheduleOf(setpoints).Ok?
    ensures SlotCount(ScheduleOf(setpoints).value) == |setpoints|
    decreases |setpoints|
  {
    if setpoints != [] {
      var n := |setpoints|;
      ScheduleStepOk(setpoints);
      ScheduleStepValue(setpoints);
      ScheduleCount(setpoints[..n - 1]);
      var week := ScheduleOf(setpoints[..n - 1]).value;
      var entry := SlotOf(setpoints[n - 1]).value;
      DayNamesAreWeekDays(entry.0);
      SlotCountPush(week, DayOf(entry.0), entry.1);
    }
  }

  /** A list that parses has a prefix that parses and a last point that parses. */
  lemma ScheduleStepOk(setpoints: seq<Json>)
    requires setpoints != [] && ScheduleOf(setpoints).Ok?
    ensures ScheduleOf(setpoints[..|setpoints| - 1]).Ok?
    ensures SlotOf(setpoints[|setpoints| - 1]).Ok?
  {
  }

  /** The last point of a list that parses is pushed onto its day's list. */
  lemma ScheduleStepValue(setpoints: seq<Json>)
    requires setpoints != [] && ScheduleOf(setpoints).Ok?
    requires ScheduleOf(setpoints[..|setpoints| - 1]).Ok?
    requires SlotOf(setpoints[|setpoints| - 1]).Ok?
    ensures var week := ScheduleOf(setpoints[..|setpoints| - 1]).value;
            var entry := SlotOf(setpoints[|setpoints| - 1]).value;
            var day := DayOf(entry.0);
            ScheduleOf(setpoints).value == week[day := week[day] + [entry.1]]
  {
    var n := |setpoints|;
    var prefix := ScheduleOf(setpoints[..n - 1]);
    var entry := SlotOf(setpoints[n - 1]);
    assert ScheduleOf(setpoints) == Ok(prefix.value[DayOf(entry.value.0) := prefix.value[DayOf(entry.value.0)] + [entry.value.1]]);
  }

  lemma SlotCountPush(week: map<Weekday, seq<Slot>>, day: Weekday, slot: Slot)
    requires week.Keys == WeekDays && day in WeekDays
    ensures week[day := week[day] + [slot]].Keys == WeekDays
    ensures SlotCount(week[day := week[day] + [slot]]) == SlotCount(week) + 1
  {
  }

  /** An empty set-point list gives seven empty weekday lists. */
  lemma EmptySchedule()
    ensures ScheduleOf([]) == Ok(EmptyWeek)
    ensures forall day :: day in EmptyWeek ==> EmptyWeek[day] == []
  {
  }
}
