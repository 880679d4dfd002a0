/** The records FocusFlow keeps on both sides of the wire (app.js and backend/server.js),
    the JSON objects that carry them, and the object-spread merges both sides apply. */
module Records {

  datatype Option<+T> = None | Some(value: T)

  /** Task ids are opaque strings (`crypto.randomUUID()` in the client). */
  type Id = string

  datatype Mode = Focus | Short | Long

  /** Durations in whole minutes; nothing in the source forces them to be positive. */
  datatype Settings = Settings(focus: int, short: int, long: int, cycles: int, autoStart: bool, chime: bool)

  /** `settings[mode]` */
  function Minutes(s: Settings, m: Mode): int {
    match m
    case Focus => s.focus
    case Short => s.short
    case Long => s.long
  }

  datatype Task = Task(id: Id, title: string, estimate: int, completed: int, done: bool)

  /** `lastSessionDate` is a calendar day number; `None` stands for `null`. */
  datatype Stats = Stats(totalMinutes: int, sessions: int, tasksDone: int, streak: int,
                         longestStreak: int, lastSessionDate: Option<int>)

  /** The `state` resource: `{ activeTaskId }`, `None` standing for `null`. */
  datatype SavedState = SavedState(activeTaskId: Option<Id>)

  const DefaultSettings: Settings := Settings(25, 5, 15, 4, false, true)
  const DefaultStats: Stats := Stats(0, 0, 0, 0, 0, None)
  const DefaultState: SavedState := SavedState(None)

  /* ---- JSON objects as they travel: any field may be absent (`None`). ---- */

  datatype SettingsObject = SettingsObject(focus: Option<int>, short: Option<int>, long: Option<int>,
                                           cycles: Option<int>, autoStart: Option<bool>, chime: Option<bool>)

  datatype StatsObject = StatsObject(totalMinutes: Option<int>, sessions: Option<int>, tasksDone: Option<int>,
                                     streak: Option<int>, longestStreak: Option<int>,
                                     lastSessionDate: Option<Option<int>>)

  datatype StateObject = StateObject(activeTaskId: Option<Option<Id>>)

  /** A JSON value where a task array is expected; `Array.isArray` tells the two kinds apart. */
  datatype TasksBody = TaskArray(items: seq<Task>) | NotArray

  /** `JSON.stringify` of a whole record: every field present. */
  function SettingsJson(s: Settings): SettingsObject {
    SettingsObject(Some(s.focus), Some(s.short), Some(s.long), Some(s.cycles), Some(s.autoStart), Some(s.chime))
  }

  function StatsJson(s: Stats): StatsObject {
    StatsObject(Some(s.totalMinutes), Some(s.sessions), Some(s.tasksDone), Some(s.streak),
                Some(s.longestStreak), Some(s.lastSessionDate))
  }

  function StateJson(s: SavedState): StateObject {
    StateObject(Some(s.activeTaskId))
  }

  /** One key of `{...kept, ...sent}`: a key the later object carries wins. */
  function Over<T>(kept: T, sent: Option<T>): T {
    if sent.Some? then sent.value else kept
  }

  /** Every field `o` carries has that value in `s`. */
  ghost predicate SettingsCarry(s: Settings, o: SettingsObject) {
    (o.focus.Some? ==> s.focus == o.focus.value) &&
    (o.short.Some? ==> s.short == o.short.value) &&
    (o.long.Some? ==> s.long == o.long.value) &&
    (o.cycles.Some? ==> s.cycles == o.cycles.value) &&
    (o.autoStart.Some? ==> s.autoStart == o.autoStart.value) &&
    (o.chime.Some? ==> s.chime == o.chime.value)
  }

  /** Every field the body `o` carries comes back unchanged in the response `r`. */
  ghost predicate SettingsEcho(o: SettingsObject, r: SettingsObject) {
    (o.focus.Some? ==> r.focus == o.focus) && (o.short.Some? ==> r.short == o.short) &&
    (o.long.Some? ==> r.long == o.long) && (o.cycles.Some? ==> r.cycles == o.cycles) &&
    (o.autoStart.Some? ==> r.autoStart == o.autoStart) && (o.chime.Some? ==> r.chime == o.chime)
  }

  /** Every field `o` leaves out has the same value in `s` as in `base`. */
  ghost predicate SettingsKeep(base: Settings, o: SettingsObject, s: Settings) {
    (o.focus.None? ==> s.focus == base.focus) &&
    (o.short.None? ==> s.short == base.short) &&
    (o.long.None? ==> s.long == base.long) &&
    (o.cycles.None? ==> s.cycles == base.cycles) &&
    (o.autoStart.None? ==> s.autoStart == base.autoStart) &&
    (o.chime.None? ==> s.chime == base.chime)
  }

  /** Every field the body `o` carries comes back unchanged in the response `r`. */
  ghost predicate StatsEcho(o: StatsObject, r: StatsObject) {
    (o.totalMinutes.Some? ==> r.totalMinutes == o.totalMinutes) && (o.sessions.Some? ==> r.sessions == o.sessions) &&
    (o.tasksDone.Some? ==> r.tasksDone == o.tasksDone) && (o.streak.Some? ==> r.streak == o.streak) &&
    (o.longestStreak.Some? ==> r.longestStreak == o.longestStreak) &&
    (o.lastSessionDate.Some? ==> r.lastSessionDate == o.lastSessionDate)
  }

  /** `{ ...base, ...(body || {}) }`; `None` is a missing or `null` body. */
  function MergeSettings(base: Settings, body: Option<SettingsObject>): (r: Settings)
    ensures body.None? ==> r == base
    ensures body.Some? ==> SettingsCarry(r, body.value) && SettingsKeep(base, body.value, r)
  {
    match body
    case None => base
    case Some(o) =>
      Settings(Over(base.focus, o.focus), Over(base.short, o.short), Over(base.long, o.long),
               Over(base.cycles, o.cycles), Over(base.autoStart, o.autoStart), Over(base.chime, o.chime))
  }

  ghost predicate StatsCarry(s: Stats, o: StatsObject) {
    (o.totalMinutes.Some? ==> s.totalMinutes == o.totalMinutes.value) &&
    (o.sessions.Some? ==> s.sessions == o.sessions.value) &&
    (o.tasksDone.Some? ==> s.tasksDone == o.tasksDone.value) &&
    (o.streak.Some? ==> s.streak == o.streak.value) &&
    (o.longestStreak.Some? ==> s.longestStreak == o.longestStreak.value) &&
    (o.lastSessionDate.Some? ==> s.lastSessionDate == o.lastSessionDate.value)
  }

  ghost predicate StatsKeep(base: Stats, o: StatsObject, s: Stats) {
    (o.totalMinutes.None? ==> s.totalMinutes == base.totalMinutes) &&
    (o.sessions.None? ==> s.sessions == base.sessions) &&
    (o.tasksDone.None? ==> s.tasksDone == base.tasksDone) &&
    (o.streak.None? ==> s.streak == base.streak) &&
    (o.longestStreak.None? ==> s.longestStreak == base.longestStreak) &&
    (o.lastSessionDate.None? ==> s.lastSessionDate == base.lastSessionDate)
  }

  function MergeStats(base: Stats, body: Option<StatsObject>): (r: Stats)
    ensures body.None? ==> r == base
    ensures body.Some? ==> StatsCarry(r, body.value) && StatsKeep(base, body.value, r)
  {
    match body
    case None => base
    case Some(o) =>
      Stats(Over(base.totalMinutes, o.totalMinutes), Over(base.sessions, o.sessions),
            Over(base.tasksDone, o.tasksDone), Over(base.streak, o.streak),
            Over(base.longestStreak, o.longestStreak), Over(base.lastSessionDate, o.lastSessionDate))
  }

  function MergeState(base: SavedState, body: Option<StateObject>): (r: SavedState)
    ensures body.None? ==> r == base
    ensures body.Some? && body.value.activeTaskId.Some? ==> r.activeTaskId == body.value.activeTaskId.value
    ensures body.Some? && body.value.activeTaskId.None? ==> r == base
  {
    match body
    case None => base
    case Some(o) => SavedState(Over(base.activeTaskId, o.activeTaskId))
  }

  /** `Array.isArray(body) ? body : fallback` */
  function TasksOr(body: TasksBody, fallback: seq<Task>): (r: seq<Task>)
    ensures body.TaskArray? ==> r == body.items
    ensures body.NotArray? ==> r == fallback
  {
    match body
    case TaskArray(items) => items
    case NotArray => fallback
  }

  /* ---- What the merges promise when applied again or to a whole record. ---- */

  /** A body holding a whole record replaces every field: merging it gives that record back. */
  lemma MergeWholeRecord(bs: Settings, s: Settings, bt: Stats, t: Stats, ba: SavedState, a: SavedState)
    ensures MergeSettings(bs, Some(SettingsJson(s))) == s
    ensures MergeStats(bt, Some(StatsJson(t))) == t
    ensures MergeState(ba, Some(StateJson(a))) == a
  {
  }

  /** Merging the same body twice gives what merging it once gives. */
  lemma MergeIdempotent(bs: Settings, os: Option<SettingsObject>, bt: Stats, ot: Option<StatsObject>,
                        ba: SavedState, oa: Option<StateObject>, tasks: seq<Task>, body: TasksBody)
    ensures MergeSettings(MergeSettings(bs, os), os) == MergeSettings(bs, os)
    ensures MergeStats(MergeStats(bt, ot), ot) == MergeStats(bt, ot)
    ensures MergeState(MergeState(ba, oa), oa) == MergeState(ba, oa)
    ensures TasksOr(body, TasksOr(body, tasks)) == TasksOr(body, tasks)
  {
  }
}
