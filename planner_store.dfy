/**
 * The planner store: study plans made of scheduled sessions, most recent
 * plan first, and a pointer to the active plan. A session can be completed
 * (never un-completed) or moved to another time; progress and today's
 * sessions are computed from the active plan.
 */
module Planner {
  import opened Wrappers
  import opened Seqs

  datatype StudySession = StudySession(
    id: string,
    subject: string,
    topic: string,
    scheduledAt: int,
    duration: int,
    tasks: seq<string>,
    completed: bool,
    completedAt: Option<int>)

  /** A session as the caller hands it in: everything but the id and the completion flag. */
  datatype SessionInput = SessionInput(
    subject: string,
    topic: string,
    scheduledAt: int,
    duration: int,
    tasks: seq<string>,
    completedAt: Option<int>)

  datatype StudyPlan = StudyPlan(id: string, name: string, sessions: seq<StudySession>, createdAt: int)

  datatype Progress = Progress(completed: int, total: int)

  // ---------------------------------------------------------------------------
  // Predicates handed to filter and find

  function PlanHasId(id: string): StudyPlan -> bool {
    (p: StudyPlan) => p.id == id
  }

  function PlanIdIsNot(id: string): StudyPlan -> bool {
    (p: StudyPlan) => p.id != id
  }

  function IsDone(): StudySession -> bool {
    (s: StudySession) => s.completed
  }

  function InWindow(start: int, end: int): StudySession -> bool {
    (s: StudySession) => start <= s.scheduledAt < end
  }

  predicate DistinctSessionIds(sessions: seq<StudySession>) {
    forall i, j :: 0 <= i < j < |sessions| ==> sessions[i].id != sessions[j].id
  }

  // ---------------------------------------------------------------------------
  // createPlan

  /** Fresh session ids: one per input, pairwise distinct. */
  predicate FreshSessionIds(ids: seq<string>, n: nat) {
    |ids| == n && forall i, j :: 0 <= i < j < |ids| ==> ids[i] != ids[j]
  }

  /** The sessions of a new plan: one per input, in order, each with its fresh id and not completed. */
  function NewSessions(inputs: seq<SessionInput>, ids: seq<string>): (r: seq<StudySession>)
    requires |ids| == |inputs|
    ensures |r| == |inputs|
    ensures forall i :: 0 <= i < |r| ==>
      && r[i].id == ids[i] && !r[i].completed
      && r[i].subject == inputs[i].subject && r[i].topic == inputs[i].topic
      && r[i].scheduledAt == inputs[i].scheduledAt && r[i].duration == inputs[i].duration
      && r[i].tasks == inputs[i].tasks && r[i].completedAt == inputs[i].completedAt
  {
    seq(|inputs|, i requires 0 <= i < |inputs| =>
      var s := inputs[i];
      StudySession(ids[i], s.subject, s.topic, s.scheduledAt, s.duration, s.tasks, false, s.completedAt))
  }

  /** The plan list after a new plan is put at its front. */
  function WithNewPlan(plans: seq<StudyPlan>, id: string, name: string, sessions: seq<StudySession>, now: int)
    : (r: seq<StudyPlan>)
    ensures |r| == |plans| + 1 && r[1..] == plans
    ensures r[0].id == id && r[0].name == name && r[0].sessions == sessions && r[0].createdAt == now
  {
    [StudyPlan(id, name, sessions, now)] + plans
  }

  // ---------------------------------------------------------------------------
  // deletePlan

  /** The plans other than `id`. */
  function WithoutPlan(plans: seq<StudyPlan>, id: string): (r: seq<StudyPlan>)
    ensures forall i :: 0 <= i < |r| ==> r[i].id != id && r[i] in plans
    ensures forall i :: 0 <= i < |plans| && plans[i].id != id ==> plans[i] in r
  {
    Filter(plans, PlanIdIsNot(id))
  }

  // ---------------------------------------------------------------------------
  // completeSession

  /** One plan's sessions with the sessions named `sid` completed at `now`. */
  function MarkSessions(sessions: seq<StudySession>, sid: string, now: int): (r: seq<StudySession>)
    ensures |r| == |sessions|
    ensures forall j :: 0 <= j < |r| ==>
      r[j] == if sessions[j].id == sid then sessions[j].(completed := true, completedAt := Some(now))
              else sessions[j]
  {
    seq(|sessions|, j requires 0 <= j < |sessions| =>
      if sessions[j].id == sid then sessions[j].(completed := true, completedAt := Some(now)) else sessions[j])
  }

  /**
   * The plans after session `sid` is completed at `now`, in every plan, not
   * only the active one: a session is completed afterwards exactly when it was
   * before or it is named `sid`, and nothing else about any plan changes.
   */
  function MarkCompleted(plans: seq<StudyPlan>, sid: string, now: int): (r: seq<StudyPlan>)
    ensures |r| == |plans|
    ensures forall i :: 0 <= i < |r| ==>
      r[i].(sessions := plans[i].sessions) == plans[i] && |r[i].sessions| == |plans[i].sessions|
    ensures forall i, j :: 0 <= i < |r| && 0 <= j < |r[i].sessions| ==>
      var before, after := plans[i].sessions[j], r[i].sessions[j];
      && after.completed == (before.completed || before.id == sid)
      && (before.id == sid ==> after.completedAt == Some(now))
      && (before.id != sid ==> after == before)
      && after.(completed := before.completed, completedAt := before.completedAt) == before
  {
    seq(|plans|, i requires 0 <= i < |plans| =>
      plans[i].(sessions := MarkSessions(plans[i].sessions, sid, now)))
  }

  // ---------------------------------------------------------------------------
  // rescheduleSession

  /**
   * The plans after session `sid` is moved to `newTime`, which is not checked:
   * only `scheduledAt` of the sessions named `sid` changes.
   */
  function Rescheduled(plans: seq<StudyPlan>, sid: string, newTime: int): (r: seq<StudyPlan>)
    ensures |r| == |plans|
    ensures forall i :: 0 <= i < |r| ==>
      r[i].(sessions := plans[i].sessions) == plans[i] && |r[i].sessions| == |plans[i].sessions|
    ensures forall i, j :: 0 <= i < |r| && 0 <= j < |r[i].sessions| ==>
      var before, after := plans[i].sessions[j], r[i].sessions[j];
      && after.scheduledAt == (if before.id == sid then newTime else before.scheduledAt)
      && after.(scheduledAt := before.scheduledAt) == before
  {
    seq(|plans|, i requires 0 <= i < |plans| =>
      plans[i].(sessions := seq(|plans[i].sessions|, j requires 0 <= j < |plans[i].sessions| =>
        var s := plans[i].sessions[j];
        if s.id == sid then s.(scheduledAt := newTime) else s)))
  }

  // ---------------------------------------------------------------------------
  // Queries

  /** The plan the active pointer names: nothing when it is unset or names no plan. */
  function GetActivePlan(plans: seq<StudyPlan>, active: Option<string>): (r: Option<StudyPlan>)
    ensures r.None? <==> active.None? || forall i :: 0 <= i < |plans| ==> plans[i].id != active.value
    ensures r.Some? ==> r.value in plans && active == Some(r.value.id)
    ensures active.Some? ==> forall k ::
      (0 <= k < |plans| && plans[k].id == active.value && forall j :: 0 <= j < k ==> plans[j].id != active.value)
      ==> r == Some(plans[k])
  {
    match active
    case None => None
    case Some(id) =>
      var r := Find(plans, PlanHasId(id));
      assert forall k ::
        (0 <= k < |plans| && plans[k].id == id && forall j :: 0 <= j < k ==> plans[j].id != id)
        ==> r == Some(plans[k]) by {
        forall k | 0 <= k < |plans| && plans[k].id == id && (forall j :: 0 <= j < k ==> plans[j].id != id) {
          FindFirst(plans, PlanHasId(id), k);
        }
      }
      r
  }

  /**
   * The active plan's sessions scheduled in the half-open window
   * [today, tomorrow), in plan order; nothing without an active plan.
   */
  function GetTodaySessions(plans: seq<StudyPlan>, active: Option<string>, today: int, tomorrow: int)
    : (r: seq<StudySession>)
    ensures GetActivePlan(plans, active).None? ==> r == []
    ensures GetActivePlan(plans, active).Some? ==>
      var sessions := GetActivePlan(plans, active).value.sessions;
      && (forall i :: 0 <= i < |r| ==> r[i] in sessions && today <= r[i].scheduledAt < tomorrow)
      && (forall j :: 0 <= j < |sessions| && today <= sessions[j].scheduledAt < tomorrow ==> sessions[j] in r)
  {
    match GetActivePlan(plans, active)
    case None => []
    case Some(plan) => Filter(plan.sessions, InWindow(today, tomorrow))
  }

  /** Number of completed sessions: the number of positions holding a completed session. */
  function CountDone(sessions: seq<StudySession>): (n: nat)
    ensures n == |set j | 0 <= j < |sessions| && sessions[j].completed|
    ensures n <= |sessions|
  {
    FilterCount(sessions, IsDone());
    assert Accepted(sessions, IsDone()) == set j | 0 <= j < |sessions| && sessions[j].completed;
    |Filter(sessions, IsDone())|
  }

  /**
   * The active plan's progress: its session count and how many of them are
   * completed, so 0 <= completed <= total; (0, 0) without an active plan.
   */
  function GetProgress(plans: seq<StudyPlan>, active: Option<string>): (r: Progress)
    ensures GetActivePlan(plans, active).None? ==> r == Progress(0, 0)
    ensures GetActivePlan(plans, active).Some? ==>
      && r.total == |GetActivePlan(plans, active).value.sessions|
      && r.completed == CountDone(GetActivePlan(plans, active).value.sessions)
    ensures 0 <= r.completed <= r.total
  {
    match GetActivePlan(plans, active)
    case None => Progress(0, 0)
    case Some(plan) => Progress(CountDone(plan.sessions), |plan.sessions|)
  }

  // ---------------------------------------------------------------------------
  // Properties across operations

  /** Completing the one not-yet-completed session named `sid` raises the completed count by one. */
  lemma {:induction false} MarkOneMoreDone(sessions: seq<StudySession>, sid: string, now: int, k: int)
    requires DistinctSessionIds(sessions)
    requires 0 <= k < |sessions| && sessions[k].id == sid && !sessions[k].completed
    ensures CountDone(MarkSessions(sessions, sid, now)) == CountDone(sessions) + 1
  {
    var marked := MarkSessions(sessions, sid, now);
    assert marked[1..] == MarkSessions(sessions[1..], sid, now);
    if k == 0 {
      assert MarkSessions(sessions[1..], sid, now) == sessions[1..];
    } else {
      MarkOneMoreDone(sessions[1..], sid, now, k - 1);
    }
  }

  /**
   * Completing a pending session of the active plan (whose session ids are
   * distinct) adds one to the completed count and leaves the total alone.
   */
  lemma CompleteSessionAdvancesProgress(plans: seq<StudyPlan>, active: Option<string>, sid: string, now: int, k: int)
    requires GetActivePlan(plans, active).Some?
    requires var sessions := GetActivePlan(plans, active).value.sessions;
      DistinctSessionIds(sessions) && 0 <= k < |sessions| && sessions[k].id == sid && !sessions[k].completed
    ensures var before := GetProgress(plans, active);
      GetProgress(MarkCompleted(plans, sid, now), active) == Progress(before.completed + 1, before.total)
  {
    var plans' := MarkCompleted(plans, sid, now);
    var n := FindIsFirst(plans, PlanHasId(active.value));
    FindFirst(plans', PlanHasId(active.value), n);
    MarkOneMoreDone(plans[n].sessions, sid, now, k);
  }

  /**
   * No operation takes a completed session back to pending: completing and
   * rescheduling keep every completed session completed, creating a plan adds
   * only pending sessions, and deleting a plan leaves the other plans as they were.
   */
  lemma CompletionIsNeverUndone(plans: seq<StudyPlan>, sid: string, now: int, newTime: int,
                                id: string, name: string, inputs: seq<SessionInput>, ids: seq<string>)
    requires |ids| == |inputs|
    ensures forall i, j :: 0 <= i < |plans| && 0 <= j < |plans[i].sessions| && plans[i].sessions[j].completed ==>
      && MarkCompleted(plans, sid, now)[i].sessions[j].completed
      && Rescheduled(plans, sid, newTime)[i].sessions[j].completed
    ensures var created := WithNewPlan(plans, id, name, NewSessions(inputs, ids), now);
      created[1..] == plans && forall j :: 0 <= j < |created[0].sessions| ==> !created[0].sessions[j].completed
    ensures forall p :: p in WithoutPlan(plans, id) ==> p in plans
  {
  }

  // ---------------------------------------------------------------------------
  // The store

  class PlannerStore {
    var plans: seq<StudyPlan>
    var activePlanId: Option<string>

    constructor ()
      ensures plans == [] && activePlanId == None
      ensures GetProgress(plans, activePlanId) == Progress(0, 0)
    {
      plans := [];
      activePlanId := None;
    }

    /**
     * Stores a plan under the fresh id `freshId`, created at `now`, whose
     * sessions get the fresh ids `sessionIds`, and makes it the active plan.
     */
    method CreatePlan(name: string, sessions: seq<SessionInput>, freshId: string, sessionIds: seq<string>, now: int)
      returns (id: string)
      requires forall i :: 0 <= i < |plans| ==> plans[i].id != freshId
      requires FreshSessionIds(sessionIds, |sessions|)
      modifies this
      ensures id == freshId
      ensures plans == WithNewPlan(old(plans), id, name, NewSessions(sessions, sessionIds), now)
      ensures activePlanId == Some(id)
      ensures GetActivePlan(plans, activePlanId) == Some(plans[0])
      ensures GetProgress(plans, activePlanId) == Progress(0, |sessions|)
    {
      id := freshId;
      var fullSessions := NewSessions(sessions, sessionIds);
      plans := WithNewPlan(plans, id, name, fullSessions, now);
      activePlanId := Some(id);
      FindFirst(plans, PlanHasId(id), 0);
      FilterDropsAll(fullSessions, IsDone());
    }

    method DeletePlan(id: string)
      modifies this
      ensures plans == WithoutPlan(old(plans), id)
      ensures activePlanId == ClearedIf(old(activePlanId), id)
    {
      plans := WithoutPlan(plans, id);
      activePlanId := ClearedIf(activePlanId, id);
    }

    method SetActivePlan(id: Option<string>)
      modifies this
      ensures activePlanId == id && plans == old(plans)
    {
      activePlanId := id;
    }

    method CompleteSession(sessionId: string, now: int)
      modifies this
      ensures plans == MarkCompleted(old(plans), sessionId, now)
      ensures activePlanId == old(activePlanId)
    {
      plans := MarkCompleted(plans, sessionId, now);
    }

    method RescheduleSession(sessionId: string, newTime: int)
      modifies this
      ensures plans == Rescheduled(old(plans), sessionId, newTime)
      ensures activePlanId == old(activePlanId)
    {
      plans := Rescheduled(plans, sessionId, newTime);
    }
  }
}
