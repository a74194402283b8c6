/** The editor and the save hook together, for a save whose hook reads the
    `_schocial_schedule` object as the sidebar edited it. These lemmas speak of
    the events that save requests; events queued by earlier saves are never
    withdrawn and are outside them. */
module Workflow {
  import opened Values
  import Editor
  import Scheduler

  /** After a platform is switched off in the sidebar, a save whose hook reads
      the edited schedule requests no new event for it, whatever datetime it had. */
  lemma DisabledPlatformNotScheduled(meta: map<string, Value>, platform: string, doingAutosave: bool,
                                      postId: int, strToTime: Value -> Scheduler.Timestamp)
    ensures var before := Editor.ReadSidebar(true, Some(meta));
      var saved := Editor.ApplyEdit(meta, Editor.TogglePlatform(before, platform, false));
      forall e: Scheduler.Event :: e.platform == platform ==> Scheduler.ScheduledEvents(doingAutosave, postId, saved, strToTime)[e] == 0
  {
  }

  /** After a non-empty datetime is picked for a platform, a save that is not an
      autosave and whose hook reads the edited schedule requests exactly one new
      event for that platform, at that time, and for every other platform
      exactly what the sidebar's schedule called for. */
  lemma PickedDatetimeScheduledOnce(meta: map<string, Value>, platform: string, datetime: Value,
                                     postId: int, strToTime: Value -> Scheduler.Timestamp)
    requires !IsEmpty(datetime)
    ensures var before := Editor.ReadSidebar(true, Some(meta));
      var saved := Editor.ApplyEdit(meta, Editor.UpdateSchedule(before, platform, datetime));
      var events := Scheduler.ScheduledEvents(false, postId, saved, strToTime);
      && events[Scheduler.Event(strToTime(datetime), Scheduler.PublishHook, postId, platform)] == 1
      && (forall e: Scheduler.Event :: e.platform == platform && e.time != strToTime(datetime) ==> events[e] == 0)
      && (forall e: Scheduler.Event :: e.platform != platform ==>
            events[e] == Scheduler.ScheduledEvents(false, postId, map[ScheduleMetaKey := Obj(before.schedule)], strToTime)[e])
  {
  }
}
