/** The block-editor sidebar's state handling: reading the platform flags and
    the schedule from the edited post meta with defaults, and the meta edits
    that toggling a platform and picking a datetime send to the editor store.
    An object entry that JavaScript would hold as `undefined` is modelled as an
    absent key: serialisation drops it and nothing here tells the two apart. */
module Editor {
  import opened Values

  /** The sidebar's view of the post: `{ platforms, schedule }`. */
  datatype Sidebar = Sidebar(platforms: map<string, Value>, schedule: map<string, Value>)

  /** Platform flags when the meta has none: every platform off. */
  const DefaultPlatforms: map<string, Value> := AllPlatforms(Bool(false))

  /** Schedule when the meta has none: every datetime null. */
  const DefaultSchedule: map<string, Value> := AllPlatforms(Null)

  /** A meta edit as passed to `editPost({ meta })`. */
  type MetaEdit = map<string, Value>

  /** `meta[key] || fallback`, read as an object. A truthy scalar (never supplied
      for these object-typed keys) reads as the empty object. */
  function ObjectOr(meta: map<string, Value>, key: string, fallback: map<string, Value>): map<string, Value> {
    if key !in meta || !Truthy(meta[key]) then fallback
    else if meta[key].Obj? then meta[key].fields
    else map[]
  }

  /** The selector: with no editor store, two empty objects; otherwise each of
      the two meta keys read on its own, an absent or falsy one (null, false, 0,
      '') giving all-off flags or all-null datetimes. */
  function ReadSidebar(storeAvailable: bool, meta: Option<map<string, Value>>): (s: Sidebar)
    ensures !storeAvailable ==> s == Sidebar(map[], map[])
    ensures storeAvailable && meta.None? ==> s == Sidebar(DefaultPlatforms, DefaultSchedule)
    ensures storeAvailable && meta.Some? && PlatformsMetaKey in meta.value && meta.value[PlatformsMetaKey].Obj?
            ==> s.platforms == meta.value[PlatformsMetaKey].fields
    ensures storeAvailable && meta.Some? && ScheduleMetaKey in meta.value && meta.value[ScheduleMetaKey].Obj?
            ==> s.schedule == meta.value[ScheduleMetaKey].fields
    ensures storeAvailable && meta.Some? && (PlatformsMetaKey !in meta.value || !Truthy(meta.value[PlatformsMetaKey]))
            ==> s.platforms == DefaultPlatforms
    ensures storeAvailable && meta.Some? && (ScheduleMetaKey !in meta.value || !Truthy(meta.value[ScheduleMetaKey]))
            ==> s.schedule == DefaultSchedule
  {
    if !storeAvailable then Sidebar(map[], map[])
    else
      var m := if meta.Some? then meta.value else map[];
      Sidebar(ObjectOr(m, PlatformsMetaKey, DefaultPlatforms), ObjectOr(m, ScheduleMetaKey, DefaultSchedule))
  }

  /** How the editor store applies a meta edit: edited keys replace, others stay. */
  function ApplyEdit(meta: map<string, Value>, edit: MetaEdit): map<string, Value> {
    meta + edit
  }

  /** `updateSchedule(platform, datetime)`: a schedule with only `platform`
      replaced. The spread of the sidebar object also writes its `platforms` and
      `schedule` fields as two further meta keys. */
  function UpdateSchedule(s: Sidebar, platform: string, datetime: Value): (edit: MetaEdit)
    ensures edit.Keys == {"platforms", "schedule", ScheduleMetaKey}
    ensures PlatformsMetaKey !in edit
    ensures edit[ScheduleMetaKey].Obj?
    ensures var sched := edit[ScheduleMetaKey].fields;
      && platform in sched && sched[platform] == datetime
      && (forall q :: q != platform ==> (q in sched <==> q in s.schedule))
      && (forall q :: q != platform && q in sched ==> sched[q] == s.schedule[q])
  {
    map[
      "platforms" := Obj(s.platforms),
      "schedule" := Obj(s.schedule),
      ScheduleMetaKey := Obj(s.schedule[platform := datetime])
    ]
  }

  /** `togglePlatform(platform, enabled)`: the flag is set; disabling also nulls
      the platform's datetime, enabling keeps it; no other entry moves. */
  function TogglePlatform(s: Sidebar, platform: string, enabled: bool): (edit: MetaEdit)
    ensures edit.Keys == {PlatformsMetaKey, ScheduleMetaKey}
    ensures edit[PlatformsMetaKey].Obj? && edit[ScheduleMetaKey].Obj?
    ensures var flags := edit[PlatformsMetaKey].fields;
      && platform in flags && flags[platform] == Bool(enabled)
      && (forall q :: q != platform ==> (q in flags <==> q in s.platforms))
      && (forall q :: q != platform && q in flags ==> flags[q] == s.platforms[q])
    ensures var sched := edit[ScheduleMetaKey].fields;
      && (!enabled ==> platform in sched && sched[platform] == Null)
      && (enabled ==> (platform in sched <==> platform in s.schedule))
      && (enabled && platform in s.schedule ==> sched[platform] == s.schedule[platform])
      && (forall q :: q != platform ==> (q in sched <==> q in s.schedule))
      && (forall q :: q != platform && q in sched ==> sched[q] == s.schedule[q])
  {
    var flags := s.platforms[platform := Bool(enabled)];
    var sched := if enabled then s.schedule else s.schedule[platform := Null];
    map[PlatformsMetaKey := Obj(flags), ScheduleMetaKey := Obj(sched)]
  }

  /** Toggle, then read the sidebar again: the flag is what was chosen, a
      disabled platform's datetime is null, an enabled one's is kept, and every
      other platform's flag and datetime are as before. */
  lemma ToggleThenRead(meta: map<string, Value>, platform: string, enabled: bool)
    ensures var before := ReadSidebar(true, Some(meta));
      var after := ReadSidebar(true, Some(ApplyEdit(meta, TogglePlatform(before, platform, enabled))));
      && after.platforms == before.platforms[platform := Bool(enabled)]
      && after.schedule == (if enabled then before.schedule else before.schedule[platform := Null])
  {
  }

  /** Pick a datetime, then read the sidebar again: only that platform's
      datetime changed, and the platform flags are untouched. */
  lemma UpdateThenRead(meta: map<string, Value>, platform: string, datetime: Value)
    ensures var before := ReadSidebar(true, Some(meta));
      var after := ReadSidebar(true, Some(ApplyEdit(meta, UpdateSchedule(before, platform, datetime))));
      && after.schedule == before.schedule[platform := datetime]
      && after.platforms == before.platforms
  {
  }

  /** A post whose meta carries neither key shows every platform off and
      unscheduled. */
  lemma DefaultsWhenMetaMissing(meta: map<string, Value>)
    requires PlatformsMetaKey !in meta && ScheduleMetaKey !in meta
    ensures var s := ReadSidebar(true, Some(meta));
      && (forall p :: p in KnownPlatforms ==> s.platforms[p] == Bool(false) && s.schedule[p] == Null)
      && s.platforms.Keys == KnownPlatforms && s.schedule.Keys == KnownPlatforms
  {
  }
}
