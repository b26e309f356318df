/** `deleteStory`: a one-day sleep, then step `delete-story` removes the story. Each call of
    `Advance` is one resumption of the function by the workflow runner. */
module StoryExpiry {
  import opened Prelude

  /** The result the `delete-story` step returns. */
  const StoryDeleted := "Story deleted"

  datatype Phase = Start | Sleeping(wakeAt: int) | Done(message: string)

  datatype Run = Run(storyId: string, phase: Phase)

  /** A run together with the ids of the stories stored at that time. */
  datatype State = State(run: Run, stories: set<string>)

  /** One resumption at time `now`: the first computes the wake time, a due sleeping run
      deletes the story (`findByIdAndDelete` on a missing id does nothing and does not throw). */
  function Advance(s: State, now: int): (r: State)
    ensures r.run.storyId == s.run.storyId
    ensures s.run.phase.Start? ==> r == s.(run := s.run.(phase := Sleeping(now + Day)))
    ensures r.stories != s.stories ==>
              s.run.phase.Sleeping? && s.run.phase.wakeAt <= now && r.stories == s.stories - {s.run.storyId}
    ensures s.run.phase.Sleeping? && s.run.phase.wakeAt <= now ==>
              r.run.phase == Done(StoryDeleted) && s.run.storyId !in r.stories
    ensures r.stories <= s.stories
  {
    match s.run.phase
    case Start => s.(run := s.run.(phase := Sleeping(now + Day)))
    case Sleeping(wakeAt) =>
      if now < wakeAt then s
      else State(s.run.(phase := Done(StoryDeleted)), s.stories - {s.run.storyId})
    case Done(_) => s
  }

  /** The runner resumes the run once per clock value in `times`. */
  function RunAll(s: State, times: seq<int>): State
    decreases |times|
  {
    if times == [] then s else RunAll(Advance(s, times[0]), times[1..])
  }

  /** Over any resumptions, only this run's story can disappear, and once the run is done
      nothing changes any more: the story is deleted at most once. */
  lemma {:induction false} RunAllOnlyDeletesItsStory(s: State, times: seq<int>)
    decreases |times|
    ensures RunAll(s, times).stories == s.stories || RunAll(s, times).stories == s.stories - {s.run.storyId}
    ensures s.run.phase.Done? ==> RunAll(s, times) == s
    ensures RunAll(s, times).run.storyId == s.run.storyId
  {
    if times != [] {
      RunAllOnlyDeletesItsStory(Advance(s, times[0]), times[1..]);
    }
  }

  /** A story created at `t0` is still there at any resumption before `t0 + 86400000` and
      gone after the first resumption at or past it. */
  lemma ExpiresAfterOneDay(id: string, stories: set<string>, t0: int, t1: int)
    requires id in stories
    ensures var s1 := Advance(State(Run(id, Start), stories), t0);
      && s1.run.phase == Sleeping(t0 + 86400000)
      && (t1 < t0 + 86400000 ==> Advance(s1, t1) == s1 && id in Advance(s1, t1).stories)
      && (t1 >= t0 + 86400000 ==> Advance(s1, t1) == State(Run(id, Done(StoryDeleted)), stories - {id}))
  {
  }
}
