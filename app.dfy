/** The game rules of app.js on top of the store: pet care, reward handlers, the missing
    weigh-in finder and the values the task list, the workout chart and the selector mask
    are drawn from. DOM inputs, the clock and `Date` arithmetic arrive as parameters. */
module App {
  import opened Options
  import opened Seqs
  import opened Calendar
  import opened Db

  /** What a handler did: acted, declined (guard failed), or aborted midway with a TypeError. */
  datatype Outcome = Applied | Declined | Aborted

  const MaxHappiness: int := 100
  const FeedCost: int := 50
  const FeedBoost: int := 20
  const PlayCost: int := 20
  const PlayBoost: int := 10
  const LevelUpXp: real := 100.0
  const WeighInReward: int := 100
  const MissedWeighInReward: int := 50
  const DefaultGoal: int := 50

  // ---------------------------------------------------------------- pet rules

  /** `pet.happiness = Math.min(100, pet.happiness + boost)`. */
  function Cheered(p: PetState, boost: int): (q: PetState)
    ensures q.happiness == if p.happiness + boost < MaxHappiness then p.happiness + boost else MaxHappiness
    ensures q.happiness <= MaxHappiness
    ensures boost >= 0 && p.happiness <= MaxHappiness ==> p.happiness <= q.happiness
    ensures q.level == p.level && q.xp == p.xp
  {
    var h := p.happiness + boost;
    p.(happiness := if h < MaxHappiness then h else MaxHappiness)
  }

  /** `pet.xp += amt / 10`, then one level-up that resets xp to 0 once it reaches 100. */
  function GainXp(p: PetState, amt: int): (q: PetState)
    ensures p.xp + amt as real / 10.0 >= LevelUpXp ==> q.level == p.level + 1 && q.xp == 0.0
    ensures p.xp + amt as real / 10.0 < LevelUpXp ==> q.level == p.level && q.xp == p.xp + amt as real / 10.0
    ensures p.level <= q.level <= p.level + 1
    ensures q.xp < LevelUpXp
    ensures q.happiness == p.happiness
  {
    var xp := p.xp + amt as real / 10.0;
    if xp >= LevelUpXp then p.(level := p.level + 1, xp := 0.0) else p.(xp := xp)
  }

  /** The stored pet, when the `pet` setting holds a pet record, lies in its documented ranges. */
  predicate PetInRange(settings: map<string, Value>) {
    "pet" in settings && settings["pet"].PetRecord? ==>
      var p := settings["pet"].pet;
      0 <= p.happiness <= MaxHappiness && 0.0 <= p.xp < LevelUpXp && 1 <= p.level
  }

  /** `credits >= cost` on `getSetting('credits')`; null and records compare false. */
  predicate CanAfford(settings: map<string, Value>, cost: int) {
    match GetSetting(settings, "credits")
    case Some(Num(c)) => c >= cost
    case _ => false
  }

  /** `feedPet` / `playPet`: spend `cost` credits, then raise the pet's happiness by `boost`
      and record `title` as the last activity at `time`. A missing pet throws after the
      credits are spent; a non-record pet value is written back unchanged. */
  function TreatStep(st: AppState, cost: int, boost: int, title: string, time: string): (r: (AppState, Outcome))
    requires cost > 0 && boost >= 0
    ensures r.1 == Declined <==> !CanAfford(st.settings, cost)
    ensures r.1 == Declined ==> r.0 == st
    ensures r.1 != Declined ==> CreditsOrZero(r.0.settings) == CreditsOrZero(st.settings) - cost
    ensures r.1 == Aborted <==> CanAfford(st.settings, cost) && GetSetting(st.settings, "pet").None?
    ensures r.1 == Aborted ==> AgreeExcept(r.0.settings, st.settings, {"credits"})
    ensures r.1 == Applied ==>
      AgreeExcept(r.0.settings, st.settings, {"credits", "pet", "last_activity"}) &&
      "last_activity" in r.0.settings && "pet" in r.0.settings && "pet" in st.settings &&
      r.0.settings["last_activity"] == ActivityNote(title, time) &&
      r.0.settings["pet"] == (if st.settings["pet"].PetRecord?
                              then PetRecord(Cheered(st.settings["pet"].pet, boost))
                              else st.settings["pet"])
    ensures PetInRange(st.settings) ==> PetInRange(r.0.settings)
    ensures SameLists(r.0, st)
  {
    match GetSetting(st.settings, "credits")
    case Some(Num(credits)) =>
      if credits >= cost then
        var st1 := SetSetting(st, "credits", Num(credits - cost));
        match GetSetting(st1.settings, "pet")
        case None => (st1, Aborted)
        case Some(pet) =>
          var st2 := SetSetting(st1, "pet", if pet.PetRecord? then PetRecord(Cheered(pet.pet, boost)) else pet);
          (SetSetting(st2, "last_activity", ActivityNote(title, time)), Applied)
      else (st, Declined)
    case _ => (st, Declined)
  }

  /** Feeding costs exactly 50 and caps happiness at 100; playing costs exactly 20. Neither
      lowers a happiness that is in range. */
  lemma TreatsRaiseHappinessWithinCap(st: AppState, time: string)
    requires "pet" in st.settings && st.settings["pet"].PetRecord?
    requires st.settings["pet"].pet.happiness <= MaxHappiness
    ensures var (fed, o) := TreatStep(st, FeedCost, FeedBoost, "Fed Pixel", time);
      o == Applied ==>
        ("pet" in fed.settings && fed.settings["pet"].PetRecord? &&
         st.settings["pet"].pet.happiness <= fed.settings["pet"].pet.happiness <= MaxHappiness &&
         CreditsOrZero(fed.settings) == CreditsOrZero(st.settings) - 50)
    ensures var (played, o) := TreatStep(st, PlayCost, PlayBoost, "Played with Pixel", time);
      o == Applied ==>
        ("pet" in played.settings && played.settings["pet"].PetRecord? &&
         st.settings["pet"].pet.happiness <= played.settings["pet"].pet.happiness <= MaxHappiness &&
         CreditsOrZero(played.settings) == CreditsOrZero(st.settings) - 20)
  {
  }

  /** `submitLogProgress` with the active task `activeTaskId` and the parsed amount `amt`
      (`None` for NaN), at time `now` on local date `today`. */
  function LogProgressStep(st: AppState, activeTaskId: Option<TaskId>, amt: Option<int>, now: int, today: CalendarDate): (r: (AppState, Outcome))
    ensures var acts := activeTaskId.Some? && activeTaskId.value != 0 && amt.Some? && amt.value > 0;
      (r.1 == Applied <==> acts) && (!acts ==> r == (st, Declined))
    ensures r.1 == Applied ==>
      r.0.activityLogs == st.activityLogs + [NewActivityLog(amt.value, activeTaskId.value, now, today)]
    ensures r.1 == Applied ==> CreditsOrZero(r.0.settings) == CreditsOrZero(st.settings) + amt.value
    ensures r.1 == Applied ==>
      AgreeExcept(r.0.settings, st.settings, {"credits", "pet"}) &&
      (if "pet" in st.settings && st.settings["pet"].PetRecord?
       then "pet" in r.0.settings && r.0.settings["pet"] == PetRecord(GainXp(st.settings["pet"].pet, amt.value))
       else AgreeExcept(r.0.settings, st.settings, {"credits"}))
    ensures r.0.weightLogs == st.weightLogs && r.0.challenges == st.challenges
    ensures PetInRange(st.settings) ==> PetInRange(r.0.settings)
  {
    if activeTaskId.Some? && activeTaskId.value != 0 && amt.Some? && amt.value > 0 then
      var st1 := ActivityLogAdded(st, amt.value, activeTaskId.value, now, today);
      var st2 := CreditsAdded(st1, amt.value);
      match GetSetting(st2.settings, "pet")
      case Some(PetRecord(pet)) => (SetSetting(st2, "pet", PetRecord(GainXp(pet, amt.value))), Applied)
      case _ => (st2, Applied)
    else (st, Declined)
  }

  /** The amount logged today for task `id`, as the task list sums it. */
  function DoneOn(st: AppState, dateKey: string, id: TaskId): int {
    SumVals(GetActivityLogs(st, Some(dateKey), Some(id)))
  }

  /** `logs.reduce((acc, log) => acc + log.val, 0)`. */
  function SumVals(logs: seq<ActivityLog>): int {
    if logs == [] then 0 else SumVals(logs[..|logs| - 1]) + logs[|logs| - 1].val
  }

  /** `credits >= cost` for a positive cost holds exactly when the stored credits are a number
      of at least `cost`; null and records compare false. */
  lemma CanAffordExactly(settings: map<string, Value>, cost: int)
    requires cost > 0
    ensures CanAfford(settings, cost) <==> "credits" in settings && settings["credits"].Num? && settings["credits"].n >= cost
  {
  }

  /** The `reduce` total of two runs of logs is the sum of their totals. */
  lemma {:induction false} SumValsConcat(a: seq<ActivityLog>, b: seq<ActivityLog>)
    ensures SumVals(a + b) == SumVals(a) + SumVals(b)
    decreases |b|
  {
    if b != [] {
      var b' := b[..|b| - 1];
      SumValsConcat(a, b');
      assert (a + b)[..|a + b| - 1] == a + b';
    } else {
      assert a + b == a;
    }
  }

  /** Logs of non-negative value have a non-negative total. */
  lemma {:induction false} SumValsNonNegative(logs: seq<ActivityLog>)
    requires forall i :: 0 <= i < |logs| ==> logs[i].val >= 0
    ensures SumVals(logs) >= 0
  {
    if logs != [] {
      SumValsNonNegative(logs[..|logs| - 1]);
    }
  }

  /** Appending a log for one task leaves every other task's total, on every day, unchanged. */
  lemma DoneOnUnaffected(st: AppState, log: ActivityLog, dateKey: string, id: TaskId)
    requires id != 0 && log.taskId != id
    ensures DoneOn(st.(activityLogs := st.activityLogs + [log]), dateKey, id) == DoneOn(st, dateKey, id)
  {
    var r := st.(activityLogs := st.activityLogs + [log]);
    var forTask := ForTask(Some(id));
    var byDate, byDate';
    FilterConcat(forTask, st.activityLogs, [log]);
    assert Filter(forTask, [log]) == [];
    if dateKey != "" {
      var onDate := OnDate(Some(dateKey));
      byDate, byDate' := Filter(onDate, st.activityLogs), Filter(onDate, r.activityLogs);
      FilterConcat(onDate, st.activityLogs, [log]);
      FilterConcat(forTask, byDate, Filter(onDate, [log]));
      assert Filter(forTask, Filter(onDate, [log])) == [];
    } else {
      byDate, byDate' := st.activityLogs, r.activityLogs;
    }
    assert Filter(forTask, byDate) + [] == Filter(forTask, byDate);
    assert Filter(forTask, byDate') == Filter(forTask, byDate);
    assert GetActivityLogs(r, Some(dateKey), Some(id)) == Filter(forTask, byDate');
    assert GetActivityLogs(st, Some(dateKey), Some(id)) == Filter(forTask, byDate);
  }

  /** Logging progress on the active task raises that task's total for today by exactly the amount. */
  lemma LogProgressCountsToday(st: AppState, activeTaskId: Option<TaskId>, amt: Option<int>, now: int, today: CalendarDate)
    requires LogProgressStep(st, activeTaskId, amt, now, today).1 == Applied
    ensures var r := LogProgressStep(st, activeTaskId, amt, now, today).0;
      DoneOn(r, DateKey(today), activeTaskId.value) == DoneOn(st, DateKey(today), activeTaskId.value) + amt.value
  {
    var r := LogProgressStep(st, activeTaskId, amt, now, today).0;
    var key, id := DateKey(today), activeTaskId.value;
    var log := NewActivityLog(amt.value, id, now, today);
    var onDate, forTask := OnDate(Some(key)), ForTask(Some(id));
    assert r.activityLogs == st.activityLogs + [log];
    FilterConcat(onDate, st.activityLogs, [log]);
    assert Filter(onDate, [log]) == [log];
    var before := Filter(onDate, st.activityLogs);
    FilterConcat(forTask, before, [log]);
    assert Filter(forTask, [log]) == [log];
    var counted := Filter(forTask, before);
    assert GetActivityLogs(r, Some(key), Some(id)) == counted + [log];
    assert GetActivityLogs(st, Some(key), Some(id)) == counted;
    assert (counted + [log])[..|counted + [log]| - 1] == counted;
  }

  /** `submitWeight` with the parsed value `val` (`None` for NaN), stamped `isoNow` at time `now`. */
  function WeightStep(st: AppState, val: Option<real>, isoNow: string, now: int): (r: (AppState, Outcome))
    ensures var acts := val.Some? && val.value != 0.0;
      (r.1 == Applied <==> acts) && (!acts ==> r == (st, Declined))
    ensures r.1 == Applied ==> r.0.weightLogs == st.weightLogs + [WeightLog(now, isoNow, val.value, now)]
    ensures r.1 == Applied ==> CreditsOrZero(r.0.settings) == CreditsOrZero(st.settings) + WeighInReward
    ensures AgreeExcept(r.0.settings, st.settings, {"credits"})
    ensures r.0.challenges == st.challenges && r.0.activityLogs == st.activityLogs
  {
    if val.Some? && val.value != 0.0 then
      (CreditsAdded(WeightLogAdded(st, val.value, isoNow, now), WeighInReward), Applied)
    else (st, Declined)
  }

  /** The timestamp `submitMissingWeight` gives a back-filled weigh-in: noon UTC of that day. */
  function MissedDayStamp(dateStr: string): string {
    dateStr + "T12:00:00.000Z"
  }

  /** `submitMissingWeight` for the day `dateStr` (`YYYY-MM-DD`) with the parsed value `val`. */
  function MissingWeightStep(st: AppState, dateStr: string, val: Option<real>, now: int): (r: (AppState, Outcome))
    ensures var acts := dateStr != "" && val.Some? && val.value != 0.0;
      (r.1 == Applied <==> acts) && (!acts ==> r == (st, Declined))
    ensures r.1 == Applied ==> r.0.weightLogs == st.weightLogs + [WeightLog(now, MissedDayStamp(dateStr), val.value, now)]
    ensures r.1 == Applied ==> CreditsOrZero(r.0.settings) == CreditsOrZero(st.settings) + MissedWeighInReward
    ensures AgreeExcept(r.0.settings, st.settings, {"credits"})
    ensures r.0.challenges == st.challenges && r.0.activityLogs == st.activityLogs
  {
    if dateStr != "" && val.Some? && val.value != 0.0 then
      (CreditsAdded(WeightLogAdded(st, val.value, MissedDayStamp(dateStr), now), MissedWeighInReward), Applied)
    else (st, Declined)
  }

  /** `parseInt(goal) || 50`: an unparsable or zero goal falls back to 50. */
  function TaskGoal(goalInput: Option<int>): (g: int)
    ensures g != 0
    ensures (goalInput.None? || goalInput.value == 0) <==> g == DefaultGoal && goalInput != Some(DefaultGoal)
    ensures goalInput.Some? && goalInput.value != 0 ==> g == goalInput.value
  {
    if goalInput.Some? && goalInput.value != 0 then goalInput.value else DefaultGoal
  }

  /** `submitNewTask` with the entered name and parsed goal, at time `now`. */
  function NewTaskStep(st: AppState, name: string, goalInput: Option<int>, now: int): (r: (AppState, Outcome))
    ensures (r.1 == Applied <==> name != "") && (name == "" ==> r == (st, Declined))
    ensures r.1 == Applied ==> r.0.challenges == st.challenges + [Challenge(now, name, TaskGoal(goalInput), DefaultBoss)]
    ensures r.0.settings == st.settings && r.0.weightLogs == st.weightLogs && r.0.activityLogs == st.activityLogs
  {
    if name != "" then (ChallengeAdded(st, name, TaskGoal(goalInput), now), Applied) else (st, Declined)
  }

  // ---------------------------------------------------------------- handlers on the store

  /** `feedPet`, with the clock's `toLocaleTimeString` as `time`. */
  method FeedPet(store: Store, time: string) returns (outcome: Outcome)
    modifies store
    ensures (store.State(), outcome) == TreatStep(old(store.State()), FeedCost, FeedBoost, "Fed Pixel", time)
  {
    outcome := Treat(store, FeedCost, FeedBoost, "Fed Pixel", time);
  }

  /** `playPet`, with the clock's `toLocaleTimeString` as `time`. */
  method PlayPet(store: Store, time: string) returns (outcome: Outcome)
    modifies store
    ensures (store.State(), outcome) == TreatStep(old(store.State()), PlayCost, PlayBoost, "Played with Pixel", time)
  {
    outcome := Treat(store, PlayCost, PlayBoost, "Played with Pixel", time);
  }

  /** The shared body of `feedPet` and `playPet`. */
  method Treat(store: Store, cost: int, boost: int, title: string, time: string) returns (outcome: Outcome)
    requires cost > 0 && boost >= 0
    modifies store
    ensures (store.State(), outcome) == TreatStep(old(store.State()), cost, boost, title, time)
  {
    var credits := GetSetting(store.settings, "credits");
    if credits.Some? && credits.value.Num? && credits.value.n >= cost {
      store.UpdateSetting("credits", Num(credits.value.n - cost));
      var pet := GetSetting(store.settings, "pet");
      if pet.None? {
        return Aborted;
      }
      var cheered := if pet.value.PetRecord? then PetRecord(Cheered(pet.value.pet, boost)) else pet.value;
      store.UpdateSetting("pet", cheered);
      store.UpdateSetting("last_activity", ActivityNote(title, time));
      outcome := Applied;
    } else {
      outcome := Declined;
    }
  }

  /** `submitLogProgress`. */
  method SubmitLogProgress(store: Store, activeTaskId: Option<TaskId>, amt: Option<int>, now: int, today: CalendarDate)
    returns (outcome: Outcome)
    modifies store
    ensures (store.State(), outcome) == LogProgressStep(old(store.State()), activeTaskId, amt, now, today)
  {
    if activeTaskId.Some? && activeTaskId.value != 0 && amt.Some? && amt.value > 0 {
      store.AddActivityLog(amt.value, activeTaskId.value, now, today);
      store.AddCredits(amt.value);
      var pet := GetSetting(store.settings, "pet");
      if pet.Some? && pet.value.PetRecord? {
        var p := pet.value.pet;
        p := p.(xp := p.xp + amt.value as real / 10.0);
        if p.xp >= LevelUpXp {
          p := p.(level := p.level + 1, xp := 0.0);
        }
        store.UpdateSetting("pet", PetRecord(p));
      }
      outcome := Applied;
    } else {
      outcome := Declined;
    }
  }

  /** `submitWeight`. */
  method SubmitWeight(store: Store, val: Option<real>, isoNow: string, now: int) returns (outcome: Outcome)
    modifies store
    ensures (store.State(), outcome) == WeightStep(old(store.State()), val, isoNow, now)
  {
    if val.Some? && val.value != 0.0 {
      store.AddWeightLog(val.value, isoNow, now);
      store.AddCredits(WeighInReward);
      outcome := Applied;
    } else {
      outcome := Declined;
    }
  }

  /** `submitMissingWeight`. */
  method SubmitMissingWeight(store: Store, dateStr: string, val: Option<real>, now: int) returns (outcome: Outcome)
    modifies store
    ensures (store.State(), outcome) == MissingWeightStep(old(store.State()), dateStr, val, now)
  {
    if dateStr != "" && val.Some? && val.value != 0.0 {
      var isoDate := MissedDayStamp(dateStr);
      store.AddWeightLog(val.value, isoDate, now);
      store.AddCredits(MissedWeighInReward);
      outcome := Applied;
    } else {
      outcome := Declined;
    }
  }

  /** `submitNewTask`. */
  method SubmitNewTask(store: Store, name: string, goalInput: Option<int>, now: int) returns (outcome: Outcome)
    modifies store
    ensures (store.State(), outcome) == NewTaskStep(old(store.State()), name, goalInput, now)
  {
    var goal := TaskGoal(goalInput);
    if name != "" {
      store.AddChallenge(name, goal, now);
      outcome := Applied;
    } else {
      outcome := Declined;
    }
  }

  // ---------------------------------------------------------------- missing weigh-ins

  /** The earliest of a non-empty sequence of days. */
  function Oldest(days: seq<int>): (d: int)
    requires days != []
    ensures d in days
    ensures forall i :: 0 <= i < |days| ==> d <= days[i]
  {
    if |days| == 1 then days[0]
    else var rest := Oldest(days[1..]); if days[0] <= rest then days[0] else rest
  }

  /** `findMissingWeighIns`, with each weight log's date as a day number and `today` the
      current day: every day after the oldest log and before today that has no log. */
  method FindMissingWeighIns(logDays: seq<int>, today: int) returns (missing: seq<int>)
    ensures logDays == [] ==> missing == []
    ensures forall i, j :: 0 <= i < j < |missing| ==> missing[i] < missing[j]
    ensures logDays != [] ==> forall i :: 0 <= i < |missing| ==> Oldest(logDays) < missing[i] < today
    ensures forall i :: 0 <= i < |missing| ==> missing[i] !in logDays
    ensures logDays != [] ==> forall d :: Oldest(logDays) < d < today && d !in logDays ==> d in missing
  {
    if |logDays| == 0 {
      return [];
    }
    var first := Oldest(logDays);
    var existing := set d | d in logDays;
    missing := [];
    var current := first + 1;
    while current < today
      invariant first < current
      invariant forall i, j :: 0 <= i < j < |missing| ==> missing[i] < missing[j]
      invariant forall i :: 0 <= i < |missing| ==> first < missing[i] < current && missing[i] < today
      invariant forall i :: 0 <= i < |missing| ==> missing[i] !in logDays
      invariant forall d :: first < d < current && d !in logDays ==> d in missing
    {
      if current !in existing {
        missing := missing + [current];
      }
      current := current + 1;
    }
  }

  // ---------------------------------------------------------------- derived display values

  /** `Math.min((done / goal) * 100, 100)`; `None` stands for the non-finite results of a zero
      goal (NaN for nothing done, -Infinity below zero). */
  function TaskPercent(done: int, goal: int): (p: Option<real>)
    ensures p.Some? ==> p.value <= 100.0
    ensures goal != 0 ==> p.Some?
    ensures goal == 0 ==> (p.Some? <==> done > 0)
    ensures goal > 0 && done >= 0 ==> p.Some? && 0.0 <= p.value
    ensures goal > 0 ==> (p == Some(100.0) <==> done >= goal)
  {
    if goal == 0 then (if done > 0 then Some(100.0) else None)
    else
      var ratio := done as real / goal as real;
      var x := ratio * 100.0;
      assert goal > 0 ==> (ratio >= 1.0 <==> done >= goal) && (done >= 0 ==> ratio >= 0.0) by {
        if goal > 0 {
          QuotientBounds(done as real, goal as real);
        }
      }
      Some(if x < 100.0 then x else 100.0)
  }

  /** Dividing by a positive number keeps the sign and compares with one as the numerator compares with the divisor. */
  lemma QuotientBounds(a: real, b: real)
    requires b > 0.0
    ensures a / b >= 1.0 <==> a >= b
    ensures a >= 0.0 ==> a / b >= 0.0
  {
    var q := a / b;
    assert a == q * b;
    if q > 1.0 {
      assert (q - 1.0) * b > 0.0;
      assert q * b - b == (q - 1.0) * b;
    } else if q < 1.0 {
      assert (1.0 - q) * b > 0.0;
      assert b - q * b == (1.0 - q) * b;
    }
    if q < 0.0 {
      assert (-q) * b > 0.0;
      assert (-q) * b == -(q * b);
    }
  }

  /** What `renderTasks` shows for a task: today's total, whether the goal is reached, the bar width. */
  datatype TaskCard = TaskCard(done: int, isComplete: bool, percent: Option<real>)

  function RenderTask(st: AppState, today: CalendarDate, task: Challenge): (c: TaskCard)
    ensures c.done == DoneOn(st, DateKey(today), task.id)
    ensures c.isComplete <==> c.done >= task.goal
    ensures c.percent.Some? ==> c.percent.value <= 100.0
    ensures task.goal > 0 ==> (c.percent == Some(100.0) <==> c.isComplete)
  {
    var done := DoneOn(st, DateKey(today), task.id);
    TaskCard(done, done >= task.goal, TaskPercent(done, task.goal))
  }

  /** `Math.max(0, goal - done)`: the part of the goal still open on a day. */
  function Remaining(goal: int, done: int): (r: int)
    ensures r >= 0
    ensures r == 0 <==> done >= goal
    ensures done + r >= goal
    ensures done < goal ==> done + r == goal
  {
    if goal - done > 0 then goal - done else 0
  }

  /** The total logged for task `id` under a given day key. */
  function DoneUnder(st: AppState, id: TaskId): string -> int {
    (key: string) => DoneOn(st, key, id)
  }

  /** What a day's total leaves of `goal`. */
  function LeftOf(goal: int): int -> int {
    (done: int) => Remaining(goal, done)
  }

  /** Day i of the chart shows the total logged under day i's key and what it left of the goal. */
  lemma ChartSeriesAt(st: AppState, task: Challenge, days: seq<CalendarDate>, i: nat)
    requires i < |days|
    ensures var completed := Map(DoneUnder(st, task.id), Map(DateKey, days));
      completed[i] == DoneOn(st, DateKey(days[i]), task.id) &&
      Map(LeftOf(task.goal), completed)[i] == Remaining(task.goal, completed[i])
  {
    var keys := Map(DateKey, days);
    MapAt(DateKey, days, i);
    MapAt(DoneUnder(st, task.id), keys, i);
    MapAt(LeftOf(task.goal), Map(DoneUnder(st, task.id), keys), i);
  }

  /** The two bar series of `updateWorkoutChart` for `task` over `days` (the last seven local
      dates): the amount done under each day's key and what was left of the goal. */
  method WorkoutChartSeries(st: AppState, task: Challenge, days: seq<CalendarDate>)
    returns (completed: seq<int>, remaining: seq<int>)
    ensures completed == Map(DoneUnder(st, task.id), Map(DateKey, days))
    ensures remaining == Map(LeftOf(task.goal), completed)
  {
    completed, remaining := SeriesOverKeys(st, task, Map(DateKey, days));
  }

  /** The loop of `updateWorkoutChart` once each day's key is formatted. */
  method SeriesOverKeys(st: AppState, task: Challenge, keys: seq<string>)
    returns (completed: seq<int>, remaining: seq<int>)
    ensures completed == Map(DoneUnder(st, task.id), keys)
    ensures remaining == Map(LeftOf(task.goal), completed)
  {
    completed, remaining := [], [];
    for i := 0 to |keys|
      invariant completed == Map(DoneUnder(st, task.id), keys[..i])
      invariant remaining == Map(LeftOf(task.goal), completed)
    {
      var totalDone := DoneOn(st, keys[i], task.id);
      var left := Remaining(task.goal, totalDone);
      assert keys[..i + 1] == keys[..i] + [keys[i]];
      MapSnoc(DoneUnder(st, task.id), keys[..i], keys[i]);
      MapSnoc(LeftOf(task.goal), completed, totalDone);
      completed := completed + [totalDone];
      remaining := remaining + [left];
    }
    assert keys[..|keys|] == keys;
  }

  const MaskLeft: string := "mask-left"
  const MaskRight: string := "mask-right"
  const MaskBoth: string := "mask-both"
  const MaskClasses: set<string> := {MaskLeft, MaskRight, MaskBoth}

  predicate AtStart(scrollLeft: real) {
    scrollLeft <= 2.0
  }

  predicate AtEnd(scrollLeft: real, scrollWidth: real, clientWidth: real) {
    var gap := scrollWidth - clientWidth - scrollLeft;
    (if gap < 0.0 then -gap else gap) <= 2.0
  }

  /** `updateScrollMask`: the selector's class list after the mask classes are recomputed. */
  function ScrollMask(classes: set<string>, scrollLeft: real, scrollWidth: real, clientWidth: real): (r: set<string>)
    ensures r - MaskClasses == classes - MaskClasses
    ensures scrollWidth <= clientWidth ==> r * MaskClasses == {}
    ensures AtStart(scrollLeft) && AtEnd(scrollLeft, scrollWidth, clientWidth) ==> r * MaskClasses == {}
    ensures MaskRight in r <==> scrollWidth > clientWidth && AtStart(scrollLeft) && !AtEnd(scrollLeft, scrollWidth, clientWidth)
    ensures MaskLeft in r <==> scrollWidth > clientWidth && !AtStart(scrollLeft) && AtEnd(scrollLeft, scrollWidth, clientWidth)
    ensures MaskBoth in r <==> scrollWidth > clientWidth && !AtStart(scrollLeft) && !AtEnd(scrollLeft, scrollWidth, clientWidth)
  {
    var atStart := AtStart(scrollLeft);
    var atEnd := AtEnd(scrollLeft, scrollWidth, clientWidth);
    var cleared := classes - MaskClasses;
    if scrollWidth <= clientWidth then cleared
    else if atStart && !atEnd then cleared + {MaskRight}
    else if !atStart && atEnd then cleared + {MaskLeft}
    else if !atStart && !atEnd then cleared + {MaskBoth}
    else cleared
  }

  /** `updateScrollMask` leaves at most one of the three mask classes on the selector. */
  lemma ScrollMaskAtMostOne(classes: set<string>, scrollLeft: real, scrollWidth: real, clientWidth: real)
    ensures |ScrollMask(classes, scrollLeft, scrollWidth, clientWidth) * MaskClasses| <= 1
  {
  }
}
