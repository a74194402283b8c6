/** `SchocialScheduler`: on post save, one delayed event per platform whose
    datetime is non-empty; when an event fires, compose the message and hand it
    to the adapter of that platform. Host facilities (`strtotime`, `get_post`,
    `wp_trim_words`, `get_permalink`) are parameters. */
module Scheduler {
  import opened Values

  /** The action hook every scheduled event fires. */
  const PublishHook: string := "wp_scheduled_schocial_post"

  /** Word budget of the excerpt. */
  const ExcerptWords: nat := 30

  /** Message separator between the title and the excerpt. */
  const Separator: string := "\n\n"

  /** What `strtotime` yields: a Unix timestamp, or `false` for text it cannot parse. */
  datatype Timestamp = At(seconds: int) | Unparsed

  /** One `wp_schedule_single_event(time, hook, [post_id, platform])` request. */
  datatype Event = Event(time: Timestamp, hook: string, postId: int, platform: string)

  /** The post as `get_post` returns it. */
  datatype Post = Post(title: string, content: string)

  /** One call into a platform adapter; Instagram's takes no link. */
  datatype AdapterCall =
    | FacebookPost(message: string, link: string)
    | TwitterPost(message: string, link: string)
    | LinkedInPost(message: string, link: string)
    | InstagramPost(message: string)
  {
    /** The platform whose adapter this is. */
    function Platform(): string {
      match this
      case FacebookPost(_, _) => Facebook
      case TwitterPost(_, _) => Twitter
      case LinkedInPost(_, _) => LinkedIn
      case InstagramPost(_) => Instagram
    }
  }

  /** `get_post_meta($post_id, '_schocial_schedule', true)`: the stored value, or `''`. */
  function ScheduleMeta(postMeta: map<string, Value>): Value {
    if ScheduleMetaKey in postMeta then postMeta[ScheduleMetaKey] else Str("")
  }

  /** The pairs `foreach` visits: the entries of an array; a scalar yields none. */
  function Entries(meta: Value): map<string, Value> {
    if meta.Obj? then meta.fields else map[]
  }

  /** The event the rules call for: the post's own id, the hook, a platform
      whose datetime is non-empty, and that datetime's timestamp. */
  ghost predicate Called(e: Event, postId: int, postMeta: map<string, Value>, strToTime: Value -> Timestamp) {
    var entries := Entries(ScheduleMeta(postMeta));
    && e.hook == PublishHook
    && e.postId == postId
    && e.platform in entries
    && !IsEmpty(entries[e.platform])
    && e.time == strToTime(entries[e.platform])
  }

  /** Reference definition of the events a save requests, as a set of events
      (one per non-empty platform entry) seen as a multiset. */
  function ScheduledEvents(doingAutosave: bool, postId: int, postMeta: map<string, Value>, strToTime: Value -> Timestamp): (r: multiset<Event>)
    ensures doingAutosave ==> r == multiset{}
    ensures IsEmpty(ScheduleMeta(postMeta)) ==> r == multiset{}
    ensures !doingAutosave ==> forall e :: r[e] == if Called(e, postId, postMeta, strToTime) then 1 else 0
  {
    if doingAutosave then multiset{}
    else
      var entries := Entries(ScheduleMeta(postMeta));
      multiset(set p | p in entries && !IsEmpty(entries[p]) :: Event(strToTime(entries[p]), PublishHook, postId, p))
  }

  /** `save_schedule_data`: the `foreach` over the schedule meta, one event
      added per non-empty datetime, in whatever order the entries come. */
  method SaveScheduleData(doingAutosave: bool, postId: int, postMeta: map<string, Value>, strToTime: Value -> Timestamp)
    returns (events: multiset<Event>)
    ensures events == ScheduledEvents(doingAutosave, postId, postMeta, strToTime)
  {
    events := multiset{};
    if doingAutosave {
      return;
    }
    var meta := ScheduleMeta(postMeta);
    if IsEmpty(meta) {
      return;
    }
    var entries := Entries(meta);
    var remaining := entries.Keys;
    while remaining != {}
      invariant remaining <= entries.Keys
      invariant forall e :: events[e] == if Called(e, postId, postMeta, strToTime) && e.platform !in remaining then 1 else 0
      decreases remaining
    {
      var platform :| platform in remaining;
      var datetime := entries[platform];
      if !IsEmpty(datetime) {
        events := events + multiset{Event(strToTime(datetime), PublishHook, postId, platform)};
      }
      remaining := remaining - {platform};
    }
    var expected := ScheduledEvents(doingAutosave, postId, postMeta, strToTime);
    assert forall e :: events[e] == expected[e];
  }

  /** Scheduling reads only the schedule meta: the enabled flags, or any other
      meta key, make no difference. */
  lemma SchedulingIgnoresOtherMeta(doingAutosave: bool, postId: int, postMeta: map<string, Value>, key: string, v: Value, strToTime: Value -> Timestamp)
    requires key != ScheduleMetaKey
    ensures ScheduledEvents(doingAutosave, postId, postMeta[key := v], strToTime)
         == ScheduledEvents(doingAutosave, postId, postMeta, strToTime)
  {
  }

  /** The message: title, a blank line, the first thirty words of the content.
      A missing post reads as an empty title and content. */
  function ComposeMessage(post: Option<Post>, trimWords: (string, nat) -> string): string {
    var p := if post.Some? then post.value else Post("", "");
    p.title + Separator + trimWords(p.content, ExcerptWords)
  }

  /** `publish_to_social`: exactly one adapter call for a known platform, none
      for any other string; each adapter gets the composed message and, except
      Instagram's, the permalink. */
  function PublishToSocial(postId: int, platform: string, getPost: int -> Option<Post>,
                           trimWords: (string, nat) -> string, permalink: int -> string): (calls: seq<AdapterCall>)
    ensures |calls| == if platform in KnownPlatforms then 1 else 0
    ensures forall c :: c in calls ==> c.Platform() == platform
    ensures forall c :: c in calls ==> c.message == ComposeMessage(getPost(postId), trimWords)
    ensures forall c :: c in calls && !c.InstagramPost? ==> c.link == permalink(postId)
  {
    var message := ComposeMessage(getPost(postId), trimWords);
    var link := permalink(postId);
    if platform == Facebook then [FacebookPost(message, link)]
    else if platform == Twitter then [TwitterPost(message, link)]
    else if platform == LinkedIn then [LinkedInPost(message, link)]
    else if platform == Instagram then [InstagramPost(message)]
    else []
  }

  /** The message always starts with the title followed by a blank line, and the
      rest is the trimmed excerpt; so the title can be read back off the message. */
  lemma MessageShape(post: Post, getPost: int -> Option<Post>, postId: int, trimWords: (string, nat) -> string)
    requires getPost(postId) == Some(post)
    ensures var m := ComposeMessage(getPost(postId), trimWords);
      && |m| >= |post.title| + 2
      && m[..|post.title|] == post.title
      && m[|post.title|..|post.title| + 2] == Separator
      && m[|post.title| + 2..] == trimWords(post.content, ExcerptWords)
  {
  }

  /** Firing a scheduled event for a known platform reaches exactly that
      platform's adapter, for the post that was saved. */
  lemma FiredEventReachesItsAdapter(doingAutosave: bool, postId: int, postMeta: map<string, Value>, strToTime: Value -> Timestamp,
                                    e: Event, getPost: int -> Option<Post>, trimWords: (string, nat) -> string, permalink: int -> string)
    requires e in ScheduledEvents(doingAutosave, postId, postMeta, strToTime)
    requires e.platform in KnownPlatforms
    ensures var calls := PublishToSocial(e.postId, e.platform, getPost, trimWords, permalink);
      |calls| == 1 && calls[0].Platform() == e.platform && e.postId == postId
  {
  }
}
