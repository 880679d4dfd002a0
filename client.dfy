/** The client of app.js: its module state (`settings`, `tasks`, `stats`, `state`,
    `syncErrorMessage`) as the fields of one object, the interval state machine, the task
    ledger, the stats aggregator and the sync engine as methods on it. The server is a
    second object; each request's outcome (reached the server or failed) is a parameter. */
module Client {
  import opened Records
  import opened Timer
  import opened Ledger
  import opened Aggregator
  import opened Server

  const SaveFailedMessage: string := "Unable to save changes. Reverting to the last saved data."
  const StillOfflineMessage: string := "Still offline. We'll retry when you're back online."
  const OfflineDefaultsMessage: string := "Offline mode: showing defaults until sync resumes."

  datatype Resource = SettingsResource | TasksResource | StatsResource | StateResource

  /** The outcome of one PUT, and of the reload that follows it when it fails. */
  datatype Net = Net(put: bool, reload: bool)

  /** persistTasks: the PUT, then on failure the reloads of tasks, stats and state. */
  datatype TasksNet = TasksNet(put: bool, reloadTasks: bool, reloadStats: bool, reloadState: bool)

  /** All requests one completed interval can issue: recordSession's stats PUT, then
      creditActiveTask's tasks PUT and stats PUT. */
  datatype CompletionNet = CompletionNet(session: Net, creditTasks: TasksNet, creditStats: Net)

  /** The four GETs of `init`. */
  datatype LoadNet = LoadNet(settings: bool, tasks: bool, stats: bool, state: bool)

  /** handleIntervalComplete's `skipped` flag; a completed interval brings the day it ends on
      and the outcomes of the requests it makes. */
  datatype Completion = Skipped | Finished(today: int, net: CompletionNet)

  /** The local value after persisting `local` while the server held `remote`: kept unless
      the PUT failed and the reload that follows it succeeded. */
  function Settled<T>(n: Net, local: T, remote: T): T {
    if !n.put && n.reload then remote else local
  }

  /** The server's value after the same persist. */
  function Stored<T>(n: Net, local: T, remote: T): T {
    if n.put then local else remote
  }

  /** The sync error after the same persist: a failed PUT sets one message and the reload
      then clears it or replaces it. */
  function ErrorAfter(n: Net): string {
    if !n.put && !n.reload then StillOfflineMessage else ""
  }

  /** After any persist, local and server agree unless both the PUT and the reload failed;
      then the local value is the optimistic one and the server keeps its own. The sync
      error is empty exactly when the PUT or the reload succeeded. */
  lemma PersistOutcome<T>(n: Net, local: T, remote: T)
    ensures n.put || n.reload ==> Settled(n, local, remote) == Stored(n, local, remote)
    ensures n.put ==> Settled(n, local, remote) == local
    ensures !n.put && n.reload ==> Settled(n, local, remote) == remote
    ensures !n.put && !n.reload ==> Settled(n, local, remote) == local && Stored(n, local, remote) == remote
    ensures ErrorAfter(n) == "" <==> n.put || n.reload
  {
  }

  function TasksLeg(tn: TasksNet): Net {
    Net(tn.put, tn.reloadTasks)
  }

  /** The stats of toggleTask and creditActiveTask: persistStats runs only after the tasks
      PUT succeeded; otherwise only the stats reload that persistTasks asked for touches them. */
  function StatsLeg(tn: TasksNet, sn: Net): Net {
    if tn.put then sn else Net(false, tn.reloadStats)
  }

  /** The same for the `state` resource of deleteTask and clearCompletedTasks. */
  function StateLeg(tn: TasksNet, sn: Net): Net {
    if tn.put then sn else Net(false, tn.reloadState)
  }

  /** The active id after a successful tasks reload no longer names a task that the reloaded
      list lacks. */
  function AfterTasksReload(a: Option<Id>, remote: seq<Task>, reloaded: bool): Option<Id> {
    if reloaded && !Refers(remote, a) then None else a
  }

  /** The JSON value a GET returns, one kind per resource. */
  datatype Payload =
    | SettingsPayload(settings: Option<SettingsObject>)
    | TasksPayload(tasks: TasksBody)
    | StatsPayload(stats: Option<StatsObject>)
    | StatePayload(state: Option<StateObject>)

  /** The fallback each `load*` function hands to getResource. */
  function Fallback(res: Resource): Payload {
    match res
    case SettingsResource => SettingsPayload(Some(SettingsJson(DefaultSettings)))
    case TasksResource => TasksPayload(TaskArray([]))
    case StatsResource => StatsPayload(Some(StatsJson(DefaultStats)))
    case StateResource => StatePayload(Some(StateObject(Some(None))))
  }

  /** `data?.activeTaskId ?? null` */
  function ActiveIdOf(data: Option<StateObject>): Option<Id> {
    match data
    case None => None
    case Some(o) => if o.activeTaskId.Some? then o.activeTaskId.value else None
  }

  /** The data an interval completion may touch, on both sides of the wire. */
  datatype Snapshot = Snapshot(tasks: seq<Task>, stats: Stats, cycleCount: nat, activeTaskId: Option<Id>,
                               syncErrorMessage: string, remoteSettings: Settings, remoteTasks: seq<Task>,
                               remoteStats: Stats, remoteState: SavedState)

  class App {
    const server: Store
    var settings: Settings
    var tasks: seq<Task>
    var stats: Stats
    var syncErrorMessage: string
    var mode: Mode
    var remaining: int
    /** `state.timerId != null`: the one-second interval is scheduled. */
    var running: bool
    var cycleCount: nat
    var activeTaskId: Option<Id>

    /** Between events the countdown never exceeds the full length of the current interval,
        and it is positive unless it sits at that full length: every handler resets it to the
        full length, and the tick completes the interval as soon as it reaches zero. */
    ghost predicate Valid()
      reads this
    {
      remaining <= Seconds(settings, mode) && (remaining > 0 || remaining == Seconds(settings, mode))
    }

    /** With durations below 100 minutes, the countdown between events is never negative and
        reads as `MM:SS`. */
    lemma CountdownText()
      requires Valid() && 0 <= Seconds(settings, mode) < 6000
      ensures 0 <= remaining <= Seconds(settings, mode)
      ensures var r := FormatTime(remaining);
        |r| == 5 && r[2] == ':' && IsDigit(r[0]) && IsDigit(r[1]) && IsDigit(r[3]) && IsDigit(r[4]) &&
        10 * DigitValue(r[3]) + DigitValue(r[4]) < 60 &&
        60 * (10 * DigitValue(r[0]) + DigitValue(r[1])) + 10 * DigitValue(r[3]) + DigitValue(r[4]) == remaining
    {
      FormatTimeShape(remaining);
    }

    ghost function Snap(): Snapshot
      reads this, server
    {
      Snapshot(tasks, stats, cycleCount, activeTaskId, syncErrorMessage,
               server.settings, server.tasks, server.stats, server.state)
    }

    /** The module-level initialisers of app.js. */
    constructor (server: Store)
      ensures Valid() && this.server == server
      ensures settings == DefaultSettings && tasks == [] && stats == DefaultStats && syncErrorMessage == ""
      ensures mode == Focus && remaining == 25 * 60 && !running && cycleCount == 0 && activeTaskId == None
    {
      this.server := server;
      settings, tasks, stats, syncErrorMessage := DefaultSettings, [], DefaultStats, "";
      mode, remaining, running, cycleCount, activeTaskId := Focus, DefaultSettings.focus * 60, false, 0, None;
    }

    /* ================= sync engine ================= */

    method SetSyncError(message: string)
      modifies this`syncErrorMessage
      ensures syncErrorMessage == message
    {
      syncErrorMessage := message;
    }

    method ClearSyncError()
      modifies this`syncErrorMessage
      ensures syncErrorMessage == ""
    {
      if syncErrorMessage == "" {
        return;
      }
      syncErrorMessage := "";
    }

    ghost function Served(res: Resource): Payload
      reads server
    {
      match res
      case SettingsResource => SettingsPayload(Some(SettingsJson(server.settings)))
      case TasksResource => TasksPayload(TaskArray(server.tasks))
      case StatsResource => StatsPayload(Some(StatsJson(server.stats)))
      case StateResource => StatePayload(Some(StateJson(server.state)))
    }

    /** getResource: the server's value, or the fallback and the offline message. */
    method GetResource(res: Resource, ok: bool) returns (data: Payload)
      modifies this`syncErrorMessage
      ensures data == if ok then Served(res) else Fallback(res)
      ensures syncErrorMessage == if ok then "" else OfflineDefaultsMessage
    {
      if ok {
        match res {
          case SettingsResource =>
            var body := server.GetSettings();
            data := SettingsPayload(Some(body));
          case TasksResource =>
            var body := server.GetTasks();
            data := TasksPayload(body);
          case StatsResource =>
            var body := server.GetStats();
            data := StatsPayload(Some(body));
          case StateResource =>
            var body := server.GetState();
            data := StatePayload(Some(body));
        }
        ClearSyncError();
      } else {
        SetSyncError(OfflineDefaultsMessage);
        data := Fallback(res);
      }
    }

    /** loadSettings: the server's settings merged over the defaults, or the defaults. */
    method LoadSettings(ok: bool)
      modifies this`settings, this`remaining, this`syncErrorMessage
      ensures Valid()
      ensures settings == if ok then server.settings else DefaultSettings
      ensures remaining == Seconds(settings, mode)
      ensures syncErrorMessage == if ok then "" else OfflineDefaultsMessage
    {
      var data := GetResource(SettingsResource, ok);
      settings := MergeSettings(DefaultSettings, data.settings);
      MergeWholeRecord(DefaultSettings, server.settings, DefaultStats, DefaultStats, DefaultState, DefaultState);
      remaining := Seconds(settings, mode);
    }

    /** loadTasks: the server's array, or `[]`. */
    method LoadTasks(ok: bool)
      modifies this`tasks, this`syncErrorMessage
      ensures tasks == if ok then server.tasks else []
      ensures syncErrorMessage == if ok then "" else OfflineDefaultsMessage
    {
      var data := GetResource(TasksResource, ok);
      tasks := TasksOr(data.tasks, []);
    }

    method LoadStats(ok: bool)
      modifies this`stats, this`syncErrorMessage
      ensures stats == if ok then server.stats else DefaultStats
      ensures syncErrorMessage == if ok then "" else OfflineDefaultsMessage
    {
      var data := GetResource(StatsResource, ok);
      stats := MergeStats(DefaultStats, data.stats);
      MergeWholeRecord(DefaultSettings, DefaultSettings, DefaultStats, server.stats, DefaultState, DefaultState);
    }

    /** loadTimerState: nothing checks that the id names a task. */
    method LoadTimerState(ok: bool)
      modifies this`activeTaskId, this`syncErrorMessage
      ensures activeTaskId == if ok then server.state.activeTaskId else None
      ensures syncErrorMessage == if ok then "" else OfflineDefaultsMessage
    {
      var data := GetResource(StateResource, ok);
      activeTaskId := ActiveIdOf(data.state);
    }

    /** init: the four loads in source order. Each GET that succeeds clears the message an
        earlier one may have set, so only the last load decides it. */
    method Init(ln: LoadNet)
      modifies this`settings, this`remaining, this`tasks, this`stats, this`activeTaskId, this`syncErrorMessage
      ensures Valid()
      ensures settings == (if ln.settings then server.settings else DefaultSettings)
      ensures remaining == Seconds(settings, mode)
      ensures tasks == (if ln.tasks then server.tasks else [])
      ensures stats == (if ln.stats then server.stats else DefaultStats)
      ensures activeTaskId == (if ln.state then server.state.activeTaskId else None)
      ensures syncErrorMessage == if ln.state then "" else OfflineDefaultsMessage
    {
      LoadSettings(ln.settings);
      LoadTasks(ln.tasks);
      LoadStats(ln.stats);
      LoadTimerState(ln.state);
    }

    /** The `try` part of persistResource: the PUT of the current local value; on success the
        error is cleared, on failure the save-failed message is set. */
    method Push(res: Resource, ok: bool) returns (saved: bool)
      modifies server, this`syncErrorMessage
      ensures saved == ok
      ensures server.settings == if ok && res == SettingsResource then settings else old(server.settings)
      ensures server.tasks == if ok && res == TasksResource then tasks else old(server.tasks)
      ensures server.stats == if ok && res == StatsResource then stats else old(server.stats)
      ensures server.state == if ok && res == StateResource then SavedState(activeTaskId) else old(server.state)
      ensures syncErrorMessage == if ok then "" else SaveFailedMessage
    {
      if ok {
        MergeWholeRecord(server.settings, settings, server.stats, stats, server.state, SavedState(activeTaskId));
        match res {
          case SettingsResource =>
            var response := server.PutSettings(Some(SettingsJson(settings)));
          case TasksResource =>
            var response := server.PutTasks(TaskArray(tasks));
          case StatsResource =>
            var response := server.PutStats(Some(StatsJson(stats)));
          case StateResource =>
            var response := server.PutState(Some(StateJson(SavedState(activeTaskId))));
        }
        ClearSyncError();
        saved := true;
      } else {
        SetSyncError(SaveFailedMessage);
        saved := false;
      }
    }

    /** reloadResource: on success the server's value replaces the local one (settings also
        reset the countdown and stop the timer; tasks also drop an active id the list lacks)
        and the error is cleared; on failure only the still-offline message is set. */
    method ReloadResource(res: Resource, ok: bool)
      requires Valid()
      modifies this`settings, this`remaining, this`running, this`tasks, this`activeTaskId, this`stats,
               this`syncErrorMessage
      ensures Valid()
      ensures settings == if ok && res == SettingsResource then server.settings else old(settings)
      ensures remaining == if ok && res == SettingsResource then Seconds(settings, mode) else old(remaining)
      ensures running == (old(running) && !(ok && res == SettingsResource))
      ensures tasks == if ok && res == TasksResource then server.tasks else old(tasks)
      ensures activeTaskId == if ok && res == StateResource then server.state.activeTaskId
                              else AfterTasksReload(old(activeTaskId), server.tasks, ok && res == TasksResource)
      ensures stats == if ok && res == StatsResource then server.stats else old(stats)
      ensures syncErrorMessage == if ok then "" else StillOfflineMessage
    {
      if ok {
        MergeWholeRecord(DefaultSettings, server.settings, DefaultStats, server.stats, DefaultState, server.state);
        match res {
          case SettingsResource =>
            var data := server.GetSettings();
            settings := MergeSettings(DefaultSettings, Some(data));
            remaining := Seconds(settings, mode);
            StopTimer();
          case TasksResource =>
            var data := server.GetTasks();
            tasks := TasksOr(data, []);
            if !Refers(tasks, activeTaskId) {
              activeTaskId := None;
            }
          case StatsResource =>
            var data := server.GetStats();
            stats := MergeStats(DefaultStats, Some(data));
          case StateResource =>
            var data := server.GetState();
            activeTaskId := ActiveIdOf(Some(data));
        }
        ClearSyncError();
      } else {
        SetSyncError(StillOfflineMessage);
      }
    }

    /** persistResource without an `onError` callback (persistSettings, persistStats and
        persistTimerState): a failed PUT reloads the same resource. */
    method PersistResource(res: Resource, n: Net) returns (saved: bool)
      requires Valid()
      modifies server, this`settings, this`remaining, this`running, this`tasks, this`activeTaskId, this`stats,
               this`syncErrorMessage
      ensures Valid()
      ensures saved == n.put
      ensures server.settings == if res == SettingsResource then Stored(n, old(settings), old(server.settings))
                                 else old(server.settings)
      ensures server.tasks == if res == TasksResource then Stored(n, old(tasks), old(server.tasks)) else old(server.tasks)
      ensures server.stats == if res == StatsResource then Stored(n, old(stats), old(server.stats)) else old(server.stats)
      ensures server.state == if res == StateResource then Stored(n, SavedState(old(activeTaskId)), old(server.state))
                              else old(server.state)
      ensures settings == if res == SettingsResource then Settled(n, old(settings), old(server.settings)) else old(settings)
      ensures remaining == if res == SettingsResource && !n.put && n.reload then Seconds(settings, mode) else old(remaining)
      ensures running == (old(running) && !(res == SettingsResource && !n.put && n.reload))
      ensures tasks == if res == TasksResource then Settled(n, old(tasks), old(server.tasks)) else old(tasks)
      ensures activeTaskId == if res == StateResource then Settled(n, old(activeTaskId), old(server.state.activeTaskId))
                              else AfterTasksReload(old(activeTaskId), old(server.tasks), res == TasksResource && !n.put && n.reload)
      ensures stats == if res == StatsResource then Settled(n, old(stats), old(server.stats)) else old(stats)
      ensures syncErrorMessage == ErrorAfter(n)
    {
      saved := Push(res, n.put);
      if !saved {
        ReloadResource(res, n.reload);
      }
    }

    /** persistTasks: a failed PUT reloads the tasks, then the stats and the state when asked.
        The reloads are independent: the message the last one leaves is the one that stays. */
    method PersistTasks(reloadStats: bool, reloadState: bool, tn: TasksNet) returns (saved: bool)
      requires Valid()
      modifies server, this`settings, this`remaining, this`running, this`tasks, this`activeTaskId, this`stats,
               this`syncErrorMessage
      ensures Valid()
      ensures saved == tn.put
      ensures settings == old(settings) && remaining == old(remaining) && running == old(running)
      ensures server.settings == old(server.settings) && server.stats == old(server.stats)
      ensures server.state == old(server.state)
      ensures server.tasks == Stored(TasksLeg(tn), old(tasks), old(server.tasks))
      ensures tasks == Settled(TasksLeg(tn), old(tasks), old(server.tasks))
      ensures stats == if reloadStats then Settled(Net(tn.put, tn.reloadStats), old(stats), old(server.stats))
                       else old(stats)
      ensures activeTaskId ==
        if reloadState && !tn.put && tn.reloadState then old(server.state.activeTaskId)
        else AfterTasksReload(old(activeTaskId), old(server.tasks), !tn.put && tn.reloadTasks)
      ensures syncErrorMessage ==
        if reloadState then ErrorAfter(Net(tn.put, tn.reloadState))
        else if reloadStats then ErrorAfter(Net(tn.put, tn.reloadStats))
        else ErrorAfter(TasksLeg(tn))
    {
      saved := Push(TasksResource, tn.put);
      if !saved {
        ReloadResource(TasksResource, tn.reloadTasks);
        if reloadStats {
          ReloadResource(StatsResource, tn.reloadStats);
        }
        if reloadState {
          ReloadResource(StateResource, tn.reloadState);
        }
      }
    }

    /* ================= task ledger ================= */

    /** What toggleTask and creditActiveTask leave behind: the local step gave `t1` and `s1`,
        `persistTasks({ reloadStats: true })` pushed the tasks and, if that worked,
        persistStats pushed the stats; `rt`, `rs` and `a0` are the values before. */
    ghost predicate LedgerSynced(t1: seq<Task>, s1: Stats, a0: Option<Id>, rt: seq<Task>, rs: Stats,
                                 tn: TasksNet, sn: Net)
      reads this, server
    {
      tasks == Settled(TasksLeg(tn), t1, rt) && server.tasks == Stored(TasksLeg(tn), t1, rt) &&
      activeTaskId == AfterTasksReload(a0, rt, !tn.put && tn.reloadTasks) &&
      stats == Settled(StatsLeg(tn, sn), s1, rs) && server.stats == Stored(StatsLeg(tn, sn), s1, rs) &&
      syncErrorMessage == ErrorAfter(StatsLeg(tn, sn))
    }

    /** `persistTasks({ reloadStats: true })`, then persistStats when the tasks were saved. */
    method SyncLedger(tn: TasksNet, sn: Net)
      requires Valid()
      modifies server, this`settings, this`remaining, this`running, this`tasks, this`activeTaskId, this`stats,
               this`syncErrorMessage
      ensures Valid()
      ensures LedgerSynced(old(tasks), old(stats), old(activeTaskId), old(server.tasks), old(server.stats), tn, sn)
      ensures settings == old(settings) && remaining == old(remaining) && running == old(running)
      ensures server.settings == old(server.settings) && server.state == old(server.state)
    {
      var saved := PersistTasks(true, false, tn);
      if saved {
        saved := PersistResource(StatsResource, sn);
      }
    }

    /** What deleteTask and clearCompletedTasks leave behind: the local step kept `t1` and,
        when `lost`, cleared the active id; `persistTasks({ reloadState: lost })` then pushed
        the tasks and, if that worked and `lost`, persistTimerState pushed the state. */
    ghost predicate RemovalSynced(t1: seq<Task>, lost: bool, a0: Option<Id>, rt: seq<Task>, ra: SavedState,
                                  tn: TasksNet, sn: Net)
      reads this, server
    {
      tasks == Settled(TasksLeg(tn), t1, rt) && server.tasks == Stored(TasksLeg(tn), t1, rt) &&
      if lost then
        activeTaskId == Settled(StateLeg(tn, sn), None, ra.activeTaskId) &&
        server.state == Stored(StateLeg(tn, sn), SavedState(None), ra) &&
        syncErrorMessage == ErrorAfter(StateLeg(tn, sn))
      else
        activeTaskId == AfterTasksReload(a0, rt, !tn.put && tn.reloadTasks) &&
        server.state == ra &&
        syncErrorMessage == ErrorAfter(TasksLeg(tn))
    }

    /** `persistTasks({ reloadState: lost })`, then persistTimerState when saved and `lost`. */
    method SyncRemoval(lost: bool, tn: TasksNet, sn: Net)
      requires Valid()
      requires lost ==> activeTaskId == None
      modifies server, this`settings, this`remaining, this`running, this`tasks, this`activeTaskId, this`stats,
               this`syncErrorMessage
      ensures Valid()
      ensures RemovalSynced(old(tasks), lost, old(activeTaskId), old(server.tasks), old(server.state), tn, sn)
      ensures settings == old(settings) && remaining == old(remaining) && running == old(running)
      ensures stats == old(stats)
      ensures server.settings == old(server.settings) && server.stats == old(server.stats)
    {
      var saved := PersistTasks(false, lost, tn);
      if saved && lost {
        saved := PersistResource(StateResource, sn);
      }
    }

    /** handleTaskSubmit with the title already trimmed and the estimate already parsed
        (`None` for NaN); `id` stands for `crypto.randomUUID()`. An empty title is ignored. */
    method SubmitTask(title: string, estimate: Option<int>, id: Id, tn: TasksNet)
      requires Valid()
      requires !Refers(tasks, Some(id))
      modifies server, this`settings, this`remaining, this`running, this`tasks, this`activeTaskId, this`stats,
               this`syncErrorMessage
      ensures Valid()
      ensures settings == old(settings) && remaining == old(remaining) && running == old(running)
      ensures stats == old(stats)
      ensures server.settings == old(server.settings) && server.stats == old(server.stats)
      ensures server.state == old(server.state)
      ensures title == "" ==>
        tasks == old(tasks) && activeTaskId == old(activeTaskId) && server.tasks == old(server.tasks) &&
        syncErrorMessage == old(syncErrorMessage)
      ensures title != "" ==>
        var t1 := old(tasks) + [NewTask(id, title, estimate)];
        tasks == Settled(TasksLeg(tn), t1, old(server.tasks)) &&
        server.tasks == Stored(TasksLeg(tn), t1, old(server.tasks)) &&
        activeTaskId == AfterTasksReload(old(activeTaskId), old(server.tasks), !tn.put && tn.reloadTasks) &&
        syncErrorMessage == ErrorAfter(TasksLeg(tn))
    {
      if title == "" {
        return;
      }
      tasks := tasks + [NewTask(id, title, estimate)];
      var saved := PersistTasks(false, false, tn);
    }

    /** toggleTask: `done` flips on the tasks with this id, and `tasksDone` goes up when the
        first of them is now done; toggling back never lowers it. */
    method ToggleTask(id: Id, tn: TasksNet, sn: Net)
      requires Valid()
      modifies server, this`settings, this`remaining, this`running, this`tasks, this`activeTaskId, this`stats,
               this`syncErrorMessage
      ensures Valid()
      ensures var t1 := Toggled(old(tasks), id);
        var s1 := old(stats).(tasksDone := old(stats).tasksDone + if FoundDone(t1, id) then 1 else 0);
        LedgerSynced(t1, s1, old(activeTaskId), old(server.tasks), old(server.stats), tn, sn)
      ensures tn.put && sn.put ==>
        stats.tasksDone == old(stats).tasksDone + (if FoundDone(Toggled(old(tasks), id), id) then 1 else 0) &&
        stats.tasksDone >= old(stats).tasksDone
      ensures settings == old(settings) && remaining == old(remaining) && running == old(running)
      ensures server.settings == old(server.settings) && server.state == old(server.state)
    {
      tasks := Toggled(tasks, id);
      if FoundDone(tasks, id) {
        stats := stats.(tasksDone := stats.tasksDone + 1);
      }
      SyncLedger(tn, sn);
    }

    /** setActiveTask: any id is accepted, whether or not a task carries it. */
    method SetActiveTask(id: Id, n: Net)
      requires Valid()
      modifies server, this`settings, this`remaining, this`running, this`tasks, this`activeTaskId, this`stats,
               this`syncErrorMessage
      ensures Valid()
      ensures activeTaskId == Settled(n, Some(id), old(server.state.activeTaskId))
      ensures server.state == Stored(n, SavedState(Some(id)), old(server.state))
      ensures syncErrorMessage == ErrorAfter(n)
      ensures settings == old(settings) && remaining == old(remaining) && running == old(running)
      ensures tasks == old(tasks) && stats == old(stats)
      ensures server.settings == old(server.settings) && server.tasks == old(server.tasks)
      ensures server.stats == old(server.stats)
    {
      activeTaskId := Some(id);
      var saved := PersistResource(StateResource, n);
    }

    /** deleteTask: the tasks with this id go, the others stay in order, and the active id is
        cleared when it was this id. */
    method DeleteTask(id: Id, tn: TasksNet, sn: Net)
      requires Valid()
      modifies server, this`settings, this`remaining, this`running, this`tasks, this`activeTaskId, this`stats,
               this`syncErrorMessage
      ensures Valid()
      ensures RemovalSynced(Survivors(old(tasks), id), old(activeTaskId) == Some(id), old(activeTaskId),
                            old(server.tasks), old(server.state), tn, sn)
      ensures settings == old(settings) && remaining == old(remaining) && running == old(running)
      ensures stats == old(stats)
      ensures server.settings == old(server.settings) && server.stats == old(server.stats)
    {
      var wasActive := activeTaskId == Some(id);
      tasks := Survivors(tasks, id);
      if wasActive {
        activeTaskId := None;
      }
      SyncRemoval(wasActive, tn, sn);
    }

    /** clearCompletedTasks: the finished tasks go, and a set active id is cleared when no
        remaining task carries it. */
    method ClearCompletedTasks(tn: TasksNet, sn: Net)
      requires Valid()
      modifies server, this`settings, this`remaining, this`running, this`tasks, this`activeTaskId, this`stats,
               this`syncErrorMessage
      ensures Valid()
      ensures RemovalSynced(Pending(old(tasks)),
                            HasActive(old(activeTaskId)) && !Refers(Pending(old(tasks)), old(activeTaskId)),
                            old(activeTaskId), old(server.tasks), old(server.state), tn, sn)
      ensures settings == old(settings) && remaining == old(remaining) && running == old(running)
      ensures stats == old(stats)
      ensures server.settings == old(server.settings) && server.stats == old(server.stats)
    {
      tasks := Pending(tasks);
      var lostActive := HasActive(activeTaskId) && !Refers(tasks, activeTaskId);
      if lostActive {
        activeTaskId := None;
      }
      SyncRemoval(lostActive, tn, sn);
    }

    /** creditActiveTask: without a (truthy) active id nothing happens; otherwise the tasks
        with that id are credited, `tasksDone` goes up once for each whose `done` flipped,
        and the ledger is synced. */
    method CreditActiveTask(tn: TasksNet, sn: Net)
      requires Valid()
      modifies server, this`settings, this`remaining, this`running, this`tasks, this`activeTaskId, this`stats,
               this`syncErrorMessage
      ensures Valid()
      ensures !HasActive(old(activeTaskId)) ==> Snap() == old(Snap())
      ensures HasActive(old(activeTaskId)) ==>
        var a := old(activeTaskId).value;
        LedgerSynced(Credited(old(tasks), a), old(stats).(tasksDone := old(stats).tasksDone + FlipCount(old(tasks), a)),
                     old(activeTaskId), old(server.tasks), old(server.stats), tn, sn)
      ensures settings == old(settings) && remaining == old(remaining) && running == old(running)
      ensures server.settings == old(server.settings) && server.state == old(server.state)
    {
      if !HasActive(activeTaskId) {
        return;
      }
      var a := activeTaskId.value;
      var credited: seq<Task> := [];
      var tasksDone := stats.tasksDone;
      var i := 0;
      while i < |tasks|
        invariant 0 <= i <= |tasks|
        invariant credited == Credited(tasks[..i], a)
        invariant tasksDone == stats.tasksDone + FlipCount(tasks[..i], a)
      {
        var t := tasks[i];
        assert tasks[..i + 1][..i] == tasks[..i];
        if t.id == a {
          var c := Credit(t);
          if c.done && !t.done {
            tasksDone := tasksDone + 1;
          }
          credited := credited + [c];
        } else {
          credited := credited + [t];
        }
        i := i + 1;
      }
      assert tasks[..i] == tasks;
      tasks := credited;
      stats := stats.(tasksDone := tasksDone);
      SyncLedger(tn, sn);
    }

    /* ================= stats aggregator ================= */

    /** updateStreak on day `today`. */
    method UpdateStreak(today: int)
      modifies this`stats
      ensures stats == Advance(old(stats), today)
    {
      match stats.lastSessionDate {
        case None =>
          stats := stats.(streak := 1);
        case Some(last) =>
          var diff := today - last;
          if diff == 0 {
            // same day: the streak stays
          } else if diff == 1 {
            stats := stats.(streak := stats.streak + 1);
          } else {
            stats := stats.(streak := 1);
          }
      }
      stats := stats.(lastSessionDate := Some(today));
      stats := stats.(longestStreak := Max(stats.longestStreak, stats.streak));
    }

    /** recordSession, then persistStats. */
    method RecordSession(today: int, n: Net)
      requires Valid()
      modifies server, this`settings, this`remaining, this`running, this`tasks, this`activeTaskId, this`stats,
               this`syncErrorMessage
      ensures Valid()
      ensures var rec := SessionRecorded(old(stats), mode, Minutes(settings, mode), today);
        stats == Settled(n, rec, old(server.stats)) && server.stats == Stored(n, rec, old(server.stats))
      ensures syncErrorMessage == ErrorAfter(n)
      ensures settings == old(settings) && remaining == old(remaining) && running == old(running)
      ensures tasks == old(tasks) && activeTaskId == old(activeTaskId)
      ensures server.settings == old(server.settings) && server.tasks == old(server.tasks)
      ensures server.state == old(server.state)
    {
      var minutes := Minutes(settings, mode);
      stats := stats.(sessions := stats.sessions + 1);
      if mode == Focus {
        stats := stats.(totalMinutes := stats.totalMinutes + minutes);
        UpdateStreak(today);
      }
      var saved := PersistResource(StatsResource, n);
    }

    /** resetStats: back to the zero record, then persistStats. */
    method ResetStats(n: Net)
      requires Valid()
      modifies server, this`settings, this`remaining, this`running, this`tasks, this`activeTaskId, this`stats,
               this`syncErrorMessage
      ensures Valid()
      ensures stats == Settled(n, DefaultStats, old(server.stats))
      ensures server.stats == Stored(n, DefaultStats, old(server.stats))
      ensures syncErrorMessage == ErrorAfter(n)
      ensures settings == old(settings) && remaining == old(remaining) && running == old(running)
      ensures tasks == old(tasks) && activeTaskId == old(activeTaskId)
      ensures server.settings == old(server.settings) && server.tasks == old(server.tasks)
      ensures server.state == old(server.state)
    {
      stats := DefaultStats;
      var saved := PersistResource(StatsResource, n);
    }

    /** handleSettingsSubmit with the form already parsed: new settings, the countdown reset
        to the current interval's new length, the timer stopped, then persistSettings. */
    method SubmitSettings(s: Settings, n: Net)
      requires Valid()
      modifies server, this`settings, this`remaining, this`running, this`tasks, this`activeTaskId, this`stats,
               this`syncErrorMessage
      ensures Valid()
      ensures settings == Settled(n, s, old(server.settings))
      ensures server.settings == Stored(n, s, old(server.settings))
      ensures remaining == Seconds(settings, mode) && !running
      ensures syncErrorMessage == ErrorAfter(n)
      ensures tasks == old(tasks) && activeTaskId == old(activeTaskId) && stats == old(stats)
      ensures server.tasks == old(server.tasks) && server.stats == old(server.stats)
      ensures server.state == old(server.state)
    {
      settings := s;
      remaining := Seconds(settings, mode);
      StopTimer();
      var saved := PersistResource(SettingsResource, n);
    }

    /* ================= interval state machine ================= */

    method StartTimer()
      modifies this`running
      ensures running
    {
      running := true;
    }

    method StopTimer()
      modifies this`running
      ensures !running
    {
      running := false;
    }

    /** switchMode: nothing when already in `m`; otherwise `m` with its full length, stopped. */
    method SwitchMode(m: Mode)
      requires Valid()
      modifies this`mode, this`remaining, this`running
      ensures Valid() && mode == m
      ensures old(mode) == m ==> remaining == old(remaining) && running == old(running)
      ensures old(mode) != m ==> remaining == Seconds(settings, m) && !running
    {
      if mode == m {
        return;
      }
      mode := m;
      remaining := Seconds(settings, m);
      StopTimer();
    }

    /** toggleTimer: pause when running, start otherwise. */
    method ToggleTimer()
      modifies this`running
      ensures running == !old(running)
    {
      if running {
        StopTimer();
        return;
      }
      StartTimer();
    }

    /** Where every interval completion leaves the timer: in the next mode, at its full
        length, running exactly when `autoStart` is on. */
    ghost predicate TimerAdvanced(m0: Mode, s0: Settings)
      reads this
    {
      settings == s0 && mode == NextMode(m0, cycleCount, s0.cycles) &&
      remaining == Seconds(s0, mode) && running == s0.autoStart
    }

    /** What a completed (not skipped) interval in mode `m0` does to the data in `d0`: the
        session is recorded and persisted; after focus, `cycleCount` goes up and the active
        task is credited and the ledger synced. */
    ghost predicate CompletionCounted(d0: Snapshot, m0: Mode, s0: Settings, today: int, cn: CompletionNet)
      reads this, server
    {
      var rec := SessionRecorded(d0.stats, m0, Minutes(s0, m0), today);
      var st := Settled(cn.session, rec, d0.remoteStats);
      var rst := Stored(cn.session, rec, d0.remoteStats);
      cycleCount == d0.cycleCount + (if m0 == Focus then 1 else 0) &&
      server.settings == d0.remoteSettings && server.state == d0.remoteState &&
      if m0 == Focus && HasActive(d0.activeTaskId) then
        var a := d0.activeTaskId.value;
        LedgerSynced(Credited(d0.tasks, a), st.(tasksDone := st.tasksDone + FlipCount(d0.tasks, a)),
                     d0.activeTaskId, d0.remoteTasks, rst, cn.creditTasks, cn.creditStats)
      else
        tasks == d0.tasks && server.tasks == d0.remoteTasks && activeTaskId == d0.activeTaskId &&
        stats == st && server.stats == rst && syncErrorMessage == ErrorAfter(cn.session)
    }

    /** handleIntervalComplete: the mode always changes to nextMode(); a skip leaves every
        counter, task and resource alone. */
    method HandleIntervalComplete(how: Completion)
      requires remaining <= Seconds(settings, mode)
      modifies this, server
      ensures Valid()
      ensures TimerAdvanced(old(mode), old(settings)) && mode != old(mode)
      ensures how.Skipped? ==> Snap() == old(Snap())
      ensures how.Finished? ==> CompletionCounted(old(Snap()), old(mode), old(settings), how.today, how.net)
    {
      StopTimer();
      remaining := Seconds(settings, mode);
      if how.Finished? {
        RecordSession(how.today, how.net.session);
        if mode == Focus {
          cycleCount := cycleCount + 1;
          CreditActiveTask(how.net.creditTasks, how.net.creditStats);
        }
      }
      var next := NextMode(mode, cycleCount, settings.cycles);
      NextModeRule(mode, cycleCount, settings.cycles);
      SwitchMode(next);
      if settings.autoStart {
        StartTimer();
      }
    }

    /** skipInterval: paused at full length it only switches to the next mode (stopped,
        whatever `autoStart` says); otherwise it is a skipped completion. */
    method SkipInterval()
      requires Valid()
      modifies this, server
      ensures Valid()
      ensures Snap() == old(Snap()) && mode != old(mode)
      ensures !old(running) && old(remaining) == Seconds(old(settings), old(mode)) ==>
        settings == old(settings) && mode == NextMode(old(mode), cycleCount, settings.cycles) &&
        remaining == Seconds(settings, mode) && !running
      ensures !(!old(running) && old(remaining) == Seconds(old(settings), old(mode))) ==>
        TimerAdvanced(old(mode), old(settings))
    {
      if !running && remaining == Seconds(settings, mode) {
        NextModeRule(mode, cycleCount, settings.cycles);
        SwitchMode(NextMode(mode, cycleCount, settings.cycles));
        return;
      }
      HandleIntervalComplete(Skipped);
    }

    /** The `setInterval` callback of startTimer: one second off the countdown, and a
        completion once it reaches zero. */
    method Tick(today: int, cn: CompletionNet)
      requires Valid() && running
      modifies this, server
      ensures Valid()
      ensures old(remaining) - 1 <= 0 ==>
        TimerAdvanced(old(mode), old(settings)) && mode != old(mode) &&
        CompletionCounted(old(Snap()), old(mode), old(settings), today, cn)
      ensures old(remaining) - 1 > 0 ==>
        remaining == old(remaining) - 1 && running && mode == old(mode) && settings == old(settings) &&
        Snap() == old(Snap())
    {
      remaining := remaining - 1;
      if remaining <= 0 {
        HandleIntervalComplete(Finished(today, cn));
      }
    }
  }

  /** Because `cycleCount` is never reset, a skip of the focus interval that follows a long
      break brings a second long break. From start-up with the default settings, seven
      completions (four focus intervals and three short breaks) reach the long break with
      `cycleCount == 4`, the eighth returns to focus, and a skip then, paused at full length,
      goes straight to another long break with `cycleCount` still 4. The modes and counts
      after each step are returned. */
  method SkipAfterLongBreak(today: int, cn: CompletionNet) returns (modes: seq<Mode>, counts: seq<nat>)
    ensures modes == [Short, Focus, Short, Focus, Short, Focus, Long, Focus, Long]
    ensures counts == [1, 1, 2, 2, 3, 3, 4, 4, 4]
  {
    var server := new Store();
    var app := new App(server);
    modes, counts := [], [];
    var step := 0;
    while step < 8
      invariant 0 <= step <= 8 && |modes| == |counts| == step
      invariant app.Valid() && app.settings == DefaultSettings && !app.running
      invariant app.mode == (if step % 2 == 0 then Focus else if step == 7 then Long else Short)
      invariant app.cycleCount == (step + 1) / 2
      invariant app.remaining == Seconds(app.settings, app.mode)
      invariant modes == [Short, Focus, Short, Focus, Short, Focus, Long, Focus][..step]
      invariant counts == [1, 1, 2, 2, 3, 3, 4, 4][..step]
    {
      app.HandleIntervalComplete(Finished(today, cn));
      modes, counts := modes + [app.mode], counts + [app.cycleCount];
      step := step + 1;
    }
    app.SkipInterval();
    modes, counts := modes + [app.mode], counts + [app.cycleCount];
  }
}
