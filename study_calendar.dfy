/**
 * How the study calendar turns a generated schedule, whose sessions carry a
 * whole-day offset, into sessions with absolute times for a new plan.
 */
module StudyCalendar {
  import opened Wrappers
  import opened Seqs
  import opened Planner

  const MS_PER_DAY: int := 24 * 60 * 60 * 1000

  /** One session of a generated schedule: a day offset from now instead of a time. */
  datatype GeneratedSession = GeneratedSession(
    day: int,
    subject: string,
    topic: string,
    duration: int,
    tasks: seq<string>)

  /** The planner inputs for a generated schedule: each session `day` whole days after `now`. */
  function ToSessionInputs(now: int, generated: seq<GeneratedSession>): (r: seq<SessionInput>)
    ensures |r| == |generated|
    ensures forall i :: 0 <= i < |r| ==>
      && r[i].scheduledAt - now == generated[i].day * 86400000
      && r[i].subject == generated[i].subject && r[i].topic == generated[i].topic
      && r[i].duration == generated[i].duration && r[i].tasks == generated[i].tasks
      && r[i].completedAt.None?
  {
    seq(|generated|, i requires 0 <= i < |generated| =>
      var g := generated[i];
      SessionInput(g.subject, g.topic, now + g.day * MS_PER_DAY, g.duration, g.tasks, None))
  }

  /**
   * Right after a plan is generated at `now`, on a day [today, today + one day)
   * that contains `now`, today's sessions are exactly those generated with day
   * offset 0.
   */
  lemma TodayIsDayZero(plans: seq<StudyPlan>, id: string, name: string, generated: seq<GeneratedSession>,
                       ids: seq<string>, now: int, today: int)
    requires |ids| == |generated|
    requires today <= now < today + MS_PER_DAY
    ensures var sessions := NewSessions(ToSessionInputs(now, generated), ids);
      var plans' := WithNewPlan(plans, id, name, sessions, now);
      forall i :: 0 <= i < |sessions| ==>
        (sessions[i] in GetTodaySessions(plans', Some(id), today, today + MS_PER_DAY) <==> generated[i].day == 0)
  {
    var sessions := NewSessions(ToSessionInputs(now, generated), ids);
    var plans' := WithNewPlan(plans, id, name, sessions, now);
    FindFirst(plans', PlanHasId(id), 0);
    forall i | 0 <= i < |sessions|
      ensures today <= sessions[i].scheduledAt < today + MS_PER_DAY <==> generated[i].day == 0
    {
      var d := generated[i].day;
      if d >= 1 {
        assert d * MS_PER_DAY >= MS_PER_DAY;
      } else if d <= -1 {
        assert d * MS_PER_DAY <= -MS_PER_DAY;
      }
    }
  }
}
