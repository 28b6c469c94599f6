/**
 What a conversation's columns say about what was done to it, over every run of the
 lifecycle (app/repositories/conversation.py, app/services/admin_service.py).
 */
module SessionHistory {
  import opened Common
  import opened Conversations
  import opened SessionLifecycle

  /** Only a human's row has an owner and a hand-over time, only a closed one a time of closing, and a closed one was claimed. */
  predicate Agreeing(c: Conversation) {
    && (c.mode == Human <==> c.handoffAt.Some?) && (c.mode == Bot ==> c.operator.None?)
    && (c.status == Closed <==> c.closedAt.Some?) && (c.status == Closed ==> c.closingSentAt.Some?)
  }

  ghost predicate AllAgree(s: State) {
    forall id :: id in s.table.rows ==> Agreeing(s.table.rows[id])
  }

  lemma StepAgrees(s: State, step: Step)
    requires Inv(s) && AllAgree(s)
    ensures AllAgree(Apply(s, step))
  {
    var s' := Apply(s, step);
    forall id | id in s'.table.rows ensures Agreeing(s'.table.rows[id]) {
      if id in s.table.rows {
        RowStep(s, step, id);
      }
    }
  }

  /** In every reachable state the columns of every row agree. */
  lemma {:induction false} ColumnsAgree(steps: seq<Step>)
    ensures AllAgree(Run(Init(), steps))
  {
    if steps != [] {
      hide Inv, AllAgree, Apply;
      var before := steps[..|steps| - 1];
      ColumnsAgree(before);
      Reachable(before);
      StepAgrees(Run(Init(), before), steps[|steps| - 1]);
    }
  }

  // ---- the last switch ------------------------------------------------------------------------

  ghost predicate NotSwitched(steps: seq<Step>, id: nat) {
    forall k :: 0 <= k < |steps| ==> !(steps[k].SwitchMode? && steps[k].id == id)
  }

  /** What a row says about its last switch. */
  ghost predicate TellsSwitch(s: State, id: nat, mode: Mode, operator: Option<string>, now: Time) {
    && id in s.table.rows && s.table.rows[id].mode == mode
    && (mode == Human ==> s.table.rows[id].operator == operator && s.table.rows[id].handoffAt == Some(now))
    && (mode == Bot ==> s.table.rows[id].operator.None? && s.table.rows[id].handoffAt.None?)
  }

  /** Whatever else happens to a conversation, closing and reviving included, it tells who was put in charge last, and when. */
  lemma {:induction false} SwitchStands(s: State, id: nat, mode: Mode, operator: Option<string>, tag: Option<Tag>, now: Time, later: seq<Step>)
    requires Inv(s) && id in s.table.rows && Untouched(later, id) && NotSwitched(later, id)
    ensures var s' := Run(Apply(s, SwitchMode(id, mode, operator, tag, now)), later);
      Inv(s') && TellsSwitch(s', id, mode, operator, now)
  {
    var switch := SwitchMode(id, mode, operator, tag, now);
    if later == [] {
      StepKeeps(s, switch);
      RowStep(s, switch, id);
    } else {
      hide Inv, Apply;
      var n := |later| - 1;
      SwitchStands(s, id, mode, operator, tag, now, later[..n]);
      var before := Run(Apply(s, switch), later[..n]);
      StepKeeps(before, later[n]);
      RowStep(before, later[n], id);
    }
  }

  /** A tag once given is never cleared, whoever takes the conversation over afterwards. */
  lemma {:induction false} TagStands(s: State, id: nat, mode: Mode, operator: Option<string>, tag: Tag, now: Time, later: seq<Step>)
    requires Inv(s) && id in s.table.rows && Untouched(later, id)
    ensures var s' := Run(Apply(s, SwitchMode(id, mode, operator, Some(tag), now)), later);
      Inv(s') && id in s'.table.rows && s'.table.rows[id].tag.Some?
  {
    var switch := SwitchMode(id, mode, operator, Some(tag), now);
    if later == [] {
      StepKeeps(s, switch);
      RowStep(s, switch, id);
    } else {
      hide Inv, Apply;
      var n := |later| - 1;
      TagStands(s, id, mode, operator, tag, now, later[..n]);
      var before := Run(Apply(s, switch), later[..n]);
      StepKeeps(before, later[n]);
      RowStep(before, later[n], id);
    }
  }

  /** And nobody is tagged who was not: without a switch that tags it, a conversation keeps the tag it had. */
  lemma {:induction false} NoTagUnlessGiven(s: State, id: nat, later: seq<Step>)
    requires Inv(s) && id in s.table.rows && Untouched(later, id)
    requires forall k :: 0 <= k < |later| && later[k].SwitchMode? && later[k].id == id ==> later[k].tag.None?
    ensures var s' := Run(s, later); Inv(s') && id in s'.table.rows && s'.table.rows[id].tag == s.table.rows[id].tag
  {
    if later != [] {
      hide Inv, Apply;
      var n := |later| - 1;
      NoTagUnlessGiven(s, id, later[..n]);
      StepKeeps(Run(s, later[..n]), later[n]);
      RowStep(Run(s, later[..n]), later[n], id);
    }
  }

  // ---- the idle timer --------------------------------------------------------------------------

  /** A step that is activity on a row: a switch, a touch, a revive. */
  predicate IsActivity(step: Step, id: nat) {
    (step.SwitchMode? || step.TouchRow? || step.Reopen?) && step.id == id
  }

  /** The timer stands at the last activity: a sweep, a close or a greeting does not move it. */
  lemma {:induction false} TimerStands(s: State, id: nat, now: Time, step: Step, later: seq<Step>)
    requires Inv(s) && id in s.table.rows && Untouched(later, id)
    requires forall k :: 0 <= k < |later| ==> !IsActivity(later[k], id)
    requires IsActivity(step, id) && step.now == now && (step.Reopen? ==> id in RevivedBy(s, step))
    ensures var s' := Run(Apply(s, step), later); Inv(s') && id in s'.table.rows && s'.table.rows[id].lastActivityAt == now
  {
    if later == [] {
      StepKeeps(s, step);
      RowStep(s, step, id);
    } else {
      hide Inv, Apply;
      var n := |later| - 1;
      TimerStands(s, id, now, step, later[..n]);
      var before := Run(Apply(s, step), later[..n]);
      StepKeeps(before, later[n]);
      RowStep(before, later[n], id);
    }
  }

  // ---- deletion ----------------------------------------------------------------------------------

  /** A deleted conversation never comes back, and its deletion touches no other; ids are never reused. */
  lemma {:induction false} RemovedForever(s: State, id: nat, later: seq<Step>)
    requires Inv(s) && id < s.table.next
    ensures Apply(s, Remove(id)).table.rows == (map other | other in s.table.rows && other != id :: s.table.rows[other])
    ensures var s' := Run(Apply(s, Remove(id)), later); Inv(s') && id !in s'.table.rows && id < s'.table.next
  {
    if later == [] {
      StepKeeps(s, Remove(id));
    } else {
      var n := |later| - 1;
      RemovedForever(s, id, later[..n]);
      hide Inv;
      StepKeeps(Run(Apply(s, Remove(id)), later[..n]), later[n]);
    }
  }
}
