/** The client-side store of db.js: the in-memory `appState` record and its sync reads and
    in-place writes. Network and local-storage synchronisation is not modelled; every write is
    an immediate update of the state. */
module Db {
  import opened Options
  import opened Seqs
  import opened Calendar

  /** Challenge ids are the `Date.now()` timestamps they were created at. */
  type TaskId = int

  /** The pet record kept under the `pet` setting. */
  datatype PetState = PetState(level: int, happiness: int, xp: real)

  const DefaultPet: PetState := PetState(1, 50, 0.0)

  /** The boss record a challenge is created with. */
  datatype Boss = Boss(hp: int, maxHp: int, level: int, image: string)

  const DefaultBoss: Boss := Boss(100, 100, 1, "1767253406")

  /** The shapes of value the application stores in `settings`. */
  datatype Value =
    | Null
    | Num(n: int)
    | PetRecord(pet: PetState)
    | BossMap(states: map<TaskId, Boss>)
    | ActivityNote(title: string, time: string)

  /** JavaScript falsiness of a stored value: `null` and `0`; records are objects and truthy. */
  predicate Falsy(v: Value) {
    v == Null || v == Num(0)
  }

  datatype Challenge = Challenge(id: TaskId, name: string, goal: int, boss: Boss)

  /** The `updates` object of `updateChallenge`: a present field overrides the task's. */
  datatype ChallengePatch = ChallengePatch(id: Option<TaskId>, name: Option<string>, goal: Option<int>, boss: Option<Boss>)

  datatype WeightLog = WeightLog(id: int, date: string, weight: real, timestamp: int)

  datatype ActivityLog = ActivityLog(id: int, date: string, kind: string, val: int, taskId: TaskId, timestamp: int)

  /** `appState`. */
  datatype AppState = AppState(
    settings: map<string, Value>,
    weightLogs: seq<WeightLog>,
    challenges: seq<Challenge>,
    activityLogs: seq<ActivityLog>)

  /** The state as received from the backend or local storage: any part may be missing. */
  datatype Loaded = Loaded(
    settings: Option<map<string, Value>>,
    weightLogs: Option<seq<WeightLog>>,
    challenges: Option<seq<Challenge>>,
    activityLogs: Option<seq<ActivityLog>>)

  function Snapshot(st: AppState): Loaded {
    Loaded(Some(st.settings), Some(st.weightLogs), Some(st.challenges), Some(st.activityLogs))
  }

  /** `a` and `b` hold the same keys with the same values, except possibly for `keys`. */
  ghost predicate AgreeExcept(a: map<string, Value>, b: map<string, Value>, keys: set<string>) {
    forall k :: k !in keys ==> (k in a <==> k in b) && (k in a ==> a[k] == b[k])
  }

  /** The three sequences of the state are the same in `a` and `b`. */
  predicate SameLists(a: AppState, b: AppState) {
    a.weightLogs == b.weightLogs && a.challenges == b.challenges && a.activityLogs == b.activityLogs
  }

  // ---------------------------------------------------------------- settings

  /** `getSetting(key)`: the stored value, or null when it is missing or falsy. */
  function GetSetting(settings: map<string, Value>, key: string): (r: Option<Value>)
    ensures r.None? <==> key !in settings || Falsy(settings[key])
    ensures r.Some? ==> key in settings && r.value == settings[key]
    ensures key in settings && settings[key] == Num(0) ==> r == None
  {
    if key in settings && !Falsy(settings[key]) then Some(settings[key]) else None
  }

  /** `updateSetting(key, value)`. */
  function SetSetting(st: AppState, key: string, value: Value): (r: AppState)
    ensures key in r.settings && r.settings[key] == value
    ensures GetSetting(r.settings, key) == if Falsy(value) then None else Some(value)
    ensures AgreeExcept(r.settings, st.settings, {key})
    ensures SameLists(r, st)
  {
    st.(settings := st.settings[key := value])
  }

  /** `getSetting('credits') || 0`; a non-numeric value counts as 0 here. */
  function CreditsOrZero(settings: map<string, Value>): (c: int)
    ensures "credits" in settings && settings["credits"].Num? ==> c == settings["credits"].n
    ensures "credits" !in settings || !settings["credits"].Num? ==> c == 0
    ensures GetSetting(settings, "credits").None? ==> c == 0
  {
    match GetSetting(settings, "credits")
    case Some(Num(c)) => c
    case _ => 0
  }

  /** `addCredits(amount)`: the balance, a missing or zero one read as 0, grows by `amount`. */
  function CreditsAdded(st: AppState, amount: int): (r: AppState)
    ensures "credits" in r.settings && r.settings["credits"] == Num(CreditsOrZero(st.settings) + amount)
    ensures CreditsOrZero(r.settings) == CreditsOrZero(st.settings) + amount
    ensures AgreeExcept(r.settings, st.settings, {"credits"})
    ensures SameLists(r, st)
  {
    SetSetting(st, "credits", Num(CreditsOrZero(st.settings) + amount))
  }

  // ---------------------------------------------------------------- challenges

  /** `addChallenge(name, goal)` at time `now`: one new challenge, with a fresh default boss, at the end. */
  function ChallengeAdded(st: AppState, name: string, goal: int, now: int): (r: AppState)
    ensures |r.challenges| == |st.challenges| + 1
    ensures r.challenges[..|st.challenges|] == st.challenges
    ensures var c := r.challenges[|st.challenges|];
      c.id == now && c.name == name && c.goal == goal &&
      c.boss.hp == 100 && c.boss.maxHp == 100 && c.boss.level == 1
    ensures r.settings == st.settings && r.weightLogs == st.weightLogs && r.activityLogs == st.activityLogs
  {
    st.(challenges := st.challenges + [Challenge(now, name, goal, DefaultBoss)])
  }

  /** `findIndex(c => c.id === id)`: the first index holding `id`, or none. */
  function FindIndex(cs: seq<Challenge>, id: TaskId): (r: Option<nat>)
    ensures r.Some? ==> r.value < |cs| && cs[r.value].id == id
    ensures r.Some? ==> forall j :: 0 <= j < r.value ==> cs[j].id != id
    ensures r.None? ==> forall j :: 0 <= j < |cs| ==> cs[j].id != id
  {
    if cs == [] then None
    else if cs[0].id == id then Some(0)
    else match FindIndex(cs[1..], id)
      case None => None
      case Some(i) => Some(i + 1)
  }

  /** `{ ...task, ...updates }`. */
  function Merge(task: Challenge, patch: ChallengePatch): (t: Challenge)
    ensures patch.id.Some? ==> t.id == patch.id.value
    ensures patch.id.None? ==> t.id == task.id
    ensures patch.name.Some? ==> t.name == patch.name.value
    ensures patch.name.None? ==> t.name == task.name
    ensures patch.goal.Some? ==> t.goal == patch.goal.value
    ensures patch.goal.None? ==> t.goal == task.goal
    ensures patch.boss.Some? ==> t.boss == patch.boss.value
    ensures patch.boss.None? ==> t.boss == task.boss
  {
    Challenge(patch.id.GetOr(task.id), patch.name.GetOr(task.name), patch.goal.GetOr(task.goal), patch.boss.GetOr(task.boss))
  }

  /** `i` is the first index of `cs` whose challenge has id `id`. */
  predicate FirstWithId(cs: seq<Challenge>, id: TaskId, i: int) {
    0 <= i < |cs| && cs[i].id == id && forall j :: 0 <= j < i ==> cs[j].id != id
  }

  /** `updateChallenge(id, updates)`: merges into the first challenge with that id, if any. */
  function ChallengeUpdated(st: AppState, id: TaskId, patch: ChallengePatch): (r: AppState)
    ensures (forall j :: 0 <= j < |st.challenges| ==> st.challenges[j].id != id) ==> r == st
    ensures |r.challenges| == |st.challenges|
    ensures forall i :: FirstWithId(st.challenges, id, i) ==>
      r.challenges[i] == Merge(st.challenges[i], patch) &&
      forall j :: 0 <= j < |st.challenges| && j != i ==> r.challenges[j] == st.challenges[j]
    ensures r.settings == st.settings && r.weightLogs == st.weightLogs && r.activityLogs == st.activityLogs
  {
    match FindIndex(st.challenges, id)
    case None => st
    case Some(i) => st.(challenges := st.challenges[i := Merge(st.challenges[i], patch)])
  }

  /** `deleteChallenge(id)`: `challenges.filter(c => c.id !== id)`. */
  function ChallengeDeleted(st: AppState, id: TaskId): (r: AppState)
    ensures forall i :: 0 <= i < |r.challenges| ==> r.challenges[i].id != id
    ensures forall c :: multiset(r.challenges)[c] == if c.id != id then multiset(st.challenges)[c] else 0
    ensures IsSubsequence(r.challenges, st.challenges)
    ensures r.settings == st.settings && r.weightLogs == st.weightLogs && r.activityLogs == st.activityLogs
  {
    var keep := (c: Challenge) => c.id != id;
    FilterCounts(keep, st.challenges);
    FilterSatisfies(keep, st.challenges);
    FilterIsSubsequence(keep, st.challenges);
    st.(challenges := Filter(keep, st.challenges))
  }

  // ---------------------------------------------------------------- logs

  /** `addWeightLog(weight, dateStr)` at time `now`; `date` is the ISO string the log is stamped with. */
  function WeightLogAdded(st: AppState, weight: real, date: string, now: int): (r: AppState)
    ensures |r.weightLogs| == |st.weightLogs| + 1
    ensures r.weightLogs[..|st.weightLogs|] == st.weightLogs
    ensures var w := r.weightLogs[|st.weightLogs|];
      w.weight == weight && w.date == date && w.id == now && w.timestamp == now
    ensures r.settings == st.settings && r.challenges == st.challenges && r.activityLogs == st.activityLogs
  {
    st.(weightLogs := st.weightLogs + [WeightLog(now, date, weight, now)])
  }

  /** The log `addActivityLog(val, taskId)` appends at time `now` on the local date `today`. */
  function NewActivityLog(val: int, taskId: TaskId, now: int, today: CalendarDate): ActivityLog {
    ActivityLog(now, DateKey(today), "workout", val, taskId, now)
  }

  /** `addActivityLog(val, taskId)`. */
  function ActivityLogAdded(st: AppState, val: int, taskId: TaskId, now: int, today: CalendarDate): (r: AppState)
    ensures |r.activityLogs| == |st.activityLogs| + 1
    ensures r.activityLogs[..|st.activityLogs|] == st.activityLogs
    ensures var l := r.activityLogs[|st.activityLogs|];
      l.val == val && l.taskId == taskId && l.date == DateKey(today) && l.kind == "workout" &&
      l.id == now && l.timestamp == now
    ensures r.settings == st.settings && r.challenges == st.challenges && r.weightLogs == st.weightLogs
  {
    st.(activityLogs := st.activityLogs + [NewActivityLog(val, taskId, now, today)])
  }

  /** Whether `getActivityLogs(dateStr, taskId)` keeps log `l`: a falsy filter (null, "" or 0) is off. */
  predicate LogMatches(l: ActivityLog, dateStr: Option<string>, taskId: Option<TaskId>) {
    (dateStr.Some? && dateStr.value != "" ==> dateStr.value <= l.date) &&
    (taskId.Some? && taskId.value != 0 ==> l.taskId == taskId.value)
  }

  /** `getActivityLogs(dateStr, taskId)`: filter on a date prefix, then on the task id. */
  function GetActivityLogs(st: AppState, dateStr: Option<string>, taskId: Option<TaskId>): (r: seq<ActivityLog>)
    ensures |r| <= |st.activityLogs|
    ensures (dateStr.None? || dateStr.value == "") && (taskId.None? || taskId.value == 0) ==> r == st.activityLogs
  {
    var byDate := if dateStr.Some? && dateStr.value != "" then Filter(OnDate(dateStr), st.activityLogs) else st.activityLogs;
    if taskId.Some? && taskId.value != 0 then Filter(ForTask(taskId), byDate) else byDate
  }

  /** The date filter of `getActivityLogs`: `l.date.startsWith(dateStr)`. */
  function OnDate(dateStr: Option<string>): ActivityLog -> bool {
    (l: ActivityLog) => dateStr.GetOr("") <= l.date
  }

  /** The task filter of `getActivityLogs`: `l.task_id === taskId`. */
  function ForTask(taskId: Option<TaskId>): ActivityLog -> bool {
    (l: ActivityLog) => l.taskId == taskId.GetOr(0)
  }

  /** `getActivityLogs` selects exactly the matching logs, every occurrence of them, in their
      original order. */
  lemma GetActivityLogsSelects(st: AppState, dateStr: Option<string>, taskId: Option<TaskId>)
    ensures var r := GetActivityLogs(st, dateStr, taskId);
      (forall i :: 0 <= i < |r| ==> LogMatches(r[i], dateStr, taskId)) &&
      (forall l :: multiset(r)[l] == if LogMatches(l, dateStr, taskId) then multiset(st.activityLogs)[l] else 0) &&
      IsSubsequence(r, st.activityLogs)
  {
    var logs := st.activityLogs;
    var byDate := if dateStr.Some? && dateStr.value != "" then Filter(OnDate(dateStr), logs) else logs;
    SubsequenceReflexive(logs);
    SubsequenceReflexive(byDate);
    FilterCounts(OnDate(dateStr), logs);
    FilterIsSubsequence(OnDate(dateStr), logs);
    FilterCounts(ForTask(taskId), byDate);
    FilterIsSubsequence(ForTask(taskId), byDate);
    var r := GetActivityLogs(st, dateStr, taskId);
    SubsequenceTransitive(r, byDate, logs);
    forall i | 0 <= i < |r|
      ensures LogMatches(r[i], dateStr, taskId)
    {
      assert multiset(r)[r[i]] > 0;
    }
  }

  // ---------------------------------------------------------------- boss states

  /** `getBossState(challengeId)`: the entry of the `boss_states` map, or null. */
  function GetBossState(settings: map<string, Value>, id: TaskId): (r: Option<Boss>)
    ensures r.Some? <==> "boss_states" in settings && settings["boss_states"].BossMap? && id in settings["boss_states"].states
    ensures r.Some? ==> r.value == settings["boss_states"].states[id]
  {
    match GetSetting(settings, "boss_states")
    case Some(BossMap(m)) => if id in m then Some(m[id]) else None
    case _ => None
  }

  /** The `boss_states` value can receive an entry: it is missing or falsy (`|| {}`), or a map. */
  predicate BossSlot(settings: map<string, Value>) {
    GetSetting(settings, "boss_states").None? || settings["boss_states"].BossMap?
  }

  /** `updateBossState(challengeId, state)`. A truthy non-map value ignores the write and is
      stored back unchanged, as a JavaScript number does. */
  function BossStateUpdated(st: AppState, id: TaskId, s: Boss): (r: AppState)
    ensures BossSlot(st.settings) ==> GetBossState(r.settings, id) == Some(s)
    ensures forall other :: other != id ==> GetBossState(r.settings, other) == GetBossState(st.settings, other)
    ensures !BossSlot(st.settings) ==> r == st
    ensures AgreeExcept(r.settings, st.settings, {"boss_states"})
    ensures SameLists(r, st)
  {
    match GetSetting(st.settings, "boss_states")
    case None => SetSetting(st, "boss_states", BossMap(map[id := s]))
    case Some(v) =>
      if v.BossMap? then SetSetting(st, "boss_states", BossMap(v.states[id := s]))
      else SetSetting(st, "boss_states", v)
  }

  // ---------------------------------------------------------------- initialisation

  /** The default normalisation at the end of `initDB`. */
  function Normalize(l: Loaded): (r: AppState)
    ensures var s := l.settings.GetOr(map[]);
      "credits" in r.settings && "pet" in r.settings &&
      r.settings["credits"] == (if GetSetting(s, "credits").None? then Num(0) else s["credits"]) &&
      r.settings["pet"] == (if GetSetting(s, "pet").None? then PetRecord(DefaultPet) else s["pet"]) &&
      AgreeExcept(r.settings, s, {"credits", "pet"})
    ensures GetSetting(r.settings, "pet").Some?
    ensures l.weightLogs.None? ==> r.weightLogs == []
    ensures l.weightLogs.Some? ==> r.weightLogs == l.weightLogs.value
    ensures l.challenges.None? ==> r.challenges == []
    ensures l.challenges.Some? ==> r.challenges == l.challenges.value
    ensures l.activityLogs.None? ==> r.activityLogs == []
    ensures l.activityLogs.Some? ==> r.activityLogs == l.activityLogs.value
  {
    var s := l.settings.GetOr(map[]);
    var s1 := if GetSetting(s, "credits").None? then s["credits" := Num(0)] else s;
    var s2 := if GetSetting(s1, "pet").None? then s1["pet" := PetRecord(DefaultPet)] else s1;
    AppState(s2, l.weightLogs.GetOr([]), l.challenges.GetOr([]), l.activityLogs.GetOr([]))
  }

  /** Normalising an already normalised state changes nothing, so `initDB` without fresh data is a no-op. */
  lemma NormalizeIdempotent(l: Loaded)
    ensures Normalize(Snapshot(Normalize(l))) == Normalize(l)
  {
  }

  // ---------------------------------------------------------------- the store

  /** The module-level `appState`, updated in place by the write operations of db.js. */
  class Store {
    var settings: map<string, Value>
    var weightLogs: seq<WeightLog>
    var challenges: seq<Challenge>
    var activityLogs: seq<ActivityLog>

    function State(): AppState
      reads this
    {
      AppState(settings, weightLogs, challenges, activityLogs)
    }

    /** `let appState = { settings: {}, weight_logs: [], challenges: [], activity_logs: [] }`. */
    constructor ()
      ensures State() == AppState(map[], [], [], [])
    {
      settings, weightLogs, challenges, activityLogs := map[], [], [], [];
    }

    /** `initDB`: adopt the loaded state (if any arrived) and fill in the missing defaults. */
    method InitDB(loaded: Option<Loaded>)
      modifies this
      ensures State() == Normalize(if loaded.Some? then loaded.value else Snapshot(old(State())))
    {
      if loaded.Some? {
        var data := loaded.value;
        settings := data.settings.GetOr(map[]);
        weightLogs := data.weightLogs.GetOr([]);
        challenges := data.challenges.GetOr([]);
        activityLogs := data.activityLogs.GetOr([]);
      }
      if GetSetting(settings, "credits").None? {
        settings := settings["credits" := Num(0)];
      }
      if GetSetting(settings, "pet").None? {
        settings := settings["pet" := PetRecord(DefaultPet)];
      }
    }

    /** `getChallenges()`: the challenges list (always present once the store exists). */
    function GetChallenges(): seq<Challenge>
      reads this
    {
      challenges
    }

    /** `getWeightLogs()`: the weight log list (always present once the store exists). */
    function GetWeightLogs(): seq<WeightLog>
      reads this
    {
      weightLogs
    }

    method UpdateSetting(key: string, value: Value)
      modifies this
      ensures State() == SetSetting(old(State()), key, value)
    {
      settings := settings[key := value];
    }

    method AddCredits(amount: int)
      modifies this
      ensures State() == CreditsAdded(old(State()), amount)
    {
      var current := CreditsOrZero(settings);
      UpdateSetting("credits", Num(current + amount));
    }

    method AddChallenge(name: string, goal: int, now: int)
      modifies this
      ensures State() == ChallengeAdded(old(State()), name, goal, now)
    {
      var boss := DefaultBoss;
      var task := Challenge(now, name, goal, boss);
      challenges := challenges + [task];
    }

    method UpdateChallenge(id: TaskId, updates: ChallengePatch)
      modifies this
      ensures State() == ChallengeUpdated(old(State()), id, updates)
    {
      var taskIndex := FindIndex(challenges, id);
      if taskIndex.None? {
        return;
      }
      var task := challenges[taskIndex.value];
      var updatedTask := Merge(task, updates);
      challenges := challenges[taskIndex.value := updatedTask];
    }

    method DeleteChallenge(id: TaskId)
      modifies this
      ensures State() == ChallengeDeleted(old(State()), id)
    {
      challenges := Filter((c: Challenge) => c.id != id, challenges);
    }

    method AddWeightLog(weight: real, date: string, now: int)
      modifies this
      ensures State() == WeightLogAdded(old(State()), weight, date, now)
    {
      var log := WeightLog(now, date, weight, now);
      weightLogs := weightLogs + [log];
    }

    method AddActivityLog(val: int, taskId: TaskId, now: int, today: CalendarDate)
      modifies this
      ensures State() == ActivityLogAdded(old(State()), val, taskId, now, today)
    {
      var date := DateKey(today);
      var log := ActivityLog(now, date, "workout", val, taskId, now);
      activityLogs := activityLogs + [log];
    }

    method UpdateBossState(id: TaskId, state: Boss)
      modifies this
      ensures State() == BossStateUpdated(old(State()), id, state)
    {
      var allStates := GetSetting(settings, "boss_states");
      if allStates.None? {
        UpdateSetting("boss_states", BossMap(map[id := state]));
      } else if allStates.value.BossMap? {
        UpdateSetting("boss_states", BossMap(allStates.value.states[id := state]));
      } else {
        UpdateSetting("boss_states", allStates.value);
      }
    }
  }
}
