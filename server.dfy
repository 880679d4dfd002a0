/** The resource store of backend/server.js: the module-level `store` object with its four
    resources, the start-up normalisation of the saved file, and the GET and PUT handlers.
    Only the in-memory store is modelled; writes to the data file are not. */
module Server {
  import opened Records

  /** What `JSON.parse` gives `loadStore`: each section may be missing (`None`, or
      `NotArray` for the tasks). */
  datatype StoreFile = StoreFile(settings: Option<SettingsObject>, tasks: TasksBody,
                                 stats: Option<StatsObject>, state: Option<StateObject>)

  class Store {
    var settings: Settings
    var tasks: seq<Task>
    var stats: Stats
    var state: SavedState

    /** `structuredClone(defaultStore)` */
    constructor ()
      ensures settings == DefaultSettings && tasks == [] && stats == DefaultStats && state == DefaultState
    {
      settings, tasks, stats, state := DefaultSettings, [], DefaultStats, DefaultState;
    }

    /** `loadStore`: `None` is a file that could not be read or parsed, which leaves the
        store as it was; otherwise every object section is merged over its default (a
        missing one gives the default) and a tasks section that is not an array gives `[]`. */
    method LoadStore(file: Option<StoreFile>)
      modifies this
      ensures file.None? ==> settings == old(settings) && tasks == old(tasks) && stats == old(stats) && state == old(state)
      ensures file.Some? ==>
        settings == MergeSettings(DefaultSettings, file.value.settings) &&
        tasks == TasksOr(file.value.tasks, []) &&
        stats == MergeStats(DefaultStats, file.value.stats) &&
        state == MergeState(DefaultState, file.value.state)
    {
      if file.Some? {
        var parsed := file.value;
        settings := MergeSettings(DefaultSettings, parsed.settings);
        tasks := TasksOr(parsed.tasks, []);
        stats := MergeStats(DefaultStats, parsed.stats);
        state := MergeState(DefaultState, parsed.state);
      }
    }

    /** `GET /api/settings` */
    method GetSettings() returns (r: SettingsObject)
      ensures r == SettingsJson(settings)
      ensures MergeSettings(DefaultSettings, Some(r)) == settings
    {
      r := SettingsJson(settings);
      MergeWholeRecord(DefaultSettings, settings, DefaultStats, stats, DefaultState, state);
    }

    /** `PUT /api/settings`: the body's fields overwrite, the others are kept. */
    method PutSettings(body: Option<SettingsObject>) returns (r: SettingsObject)
      modifies this`settings
      ensures settings == MergeSettings(old(settings), body)
      ensures body.Some? ==> SettingsCarry(settings, body.value) && SettingsKeep(old(settings), body.value, settings)
      ensures r == SettingsJson(settings)
    {
      settings := MergeSettings(settings, body);
      r := SettingsJson(settings);
    }

    /** `GET /api/tasks` */
    method GetTasks() returns (r: TasksBody)
      ensures r == TaskArray(tasks)
    {
      r := TaskArray(tasks);
    }

    /** `PUT /api/tasks`: an array replaces the list; anything else leaves it. */
    method PutTasks(body: TasksBody) returns (r: TasksBody)
      modifies this`tasks
      ensures tasks == (if body.TaskArray? then body.items else old(tasks))
      ensures r == TaskArray(tasks)
    {
      tasks := TasksOr(body, tasks);
      r := TaskArray(tasks);
    }

    /** `GET /api/stats` */
    method GetStats() returns (r: StatsObject)
      ensures r == StatsJson(stats)
      ensures MergeStats(DefaultStats, Some(r)) == stats
    {
      r := StatsJson(stats);
      MergeWholeRecord(DefaultSettings, settings, DefaultStats, stats, DefaultState, state);
    }

    /** `PUT /api/stats` */
    method PutStats(body: Option<StatsObject>) returns (r: StatsObject)
      modifies this`stats
      ensures stats == MergeStats(old(stats), body)
      ensures body.Some? ==> StatsCarry(stats, body.value) && StatsKeep(old(stats), body.value, stats)
      ensures r == StatsJson(stats)
    {
      stats := MergeStats(stats, body);
      r := StatsJson(stats);
    }

    /** `GET /api/state` */
    method GetState() returns (r: StateObject)
      ensures r == StateJson(state)
      ensures r.activeTaskId == Some(state.activeTaskId)
    {
      r := StateJson(state);
    }

    /** `PUT /api/state` */
    method PutState(body: Option<StateObject>) returns (r: StateObject)
      modifies this`state
      ensures state == MergeState(old(state), body)
      ensures r == StateJson(state)
    {
      state := MergeState(state, body);
      r := StateJson(state);
    }
  }

  /** A GET right after a PUT returns what was sent: each field an object body carries comes
      back with the value sent, the fields it leaves out keep their stored values, and an
      array body comes back as the task list. */
  method PutThenGet(store: Store, s: Option<SettingsObject>, items: seq<Task>, t: Option<StatsObject>,
                    a: Option<StateObject>)
    returns (rs: SettingsObject, rt: TasksBody, rst: StatsObject, ra: StateObject)
    modifies store
    ensures rs == SettingsJson(MergeSettings(old(store.settings), s))
    ensures s.Some? ==> SettingsEcho(s.value, rs)
    ensures rt == TaskArray(items)
    ensures rst == StatsJson(MergeStats(old(store.stats), t))
    ensures t.Some? ==> StatsEcho(t.value, rst)
    ensures ra == StateJson(MergeState(old(store.state), a))
    ensures a.Some? && a.value.activeTaskId.Some? ==> ra.activeTaskId == a.value.activeTaskId
  {
    var put1 := store.PutSettings(s);
    var put2 := store.PutTasks(TaskArray(items));
    var put3 := store.PutStats(t);
    var put4 := store.PutState(a);
    rs := store.GetSettings();
    rt := store.GetTasks();
    rst := store.GetStats();
    ra := store.GetState();
  }
}
