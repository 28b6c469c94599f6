/**
 Conversation rows under any interleaving of customers, operators and sweepers
 (app/repositories/conversation.py, app/services/session_service.py,
 app/services/admin_service.py).  Each step is one committed statement.  A
 sweeper's claim and its later close are separate steps; `owed` holds the rows
 claimed by a sweeper that has still to close them, and a sweeper that dies
 takes its share of them with it.
 */
module SessionLifecycle {
  import opened Common
  import opened Conversations

  datatype State = State(table: Table, owed: set<nat>)

  datatype Step =
    | Open(user: nat, channel: Channel, now: Time)
    | Reopen(id: nat, now: Time)
    | SwitchMode(id: nat, mode: Mode, operator: Option<string>, tag: Option<Tag>, now: Time)
    | TouchRow(id: nat, now: Time)
    | Greet(id: nat, now: Time)
    | Sweep(ids: set<nat>, idleBefore: Time, now: Time)
    | CloseOwed(id: nat, now: Time)
    | SweeperDies(ids: set<nat>)
    | Remove(id: nat)

  function Init(): State {
    State(Table(map[], 0), {})
  }

  function Apply(s: State, step: Step): State {
    match step
    case Open(user, channel, now) => s.(table := Insert(s.table, user, channel, now).0)
    case Reopen(id, now) => s.(table := Revive(s.table, id, now).0)
    case SwitchMode(id, mode, operator, tag, now) => s.(table := SetMode(s.table, id, mode, operator, tag, now))
    case TouchRow(id, now) => s.(table := Touch(s.table, id, now))
    case Greet(id, now) => s.(table := MarkWelcomeSent(s.table, id, now))
    case Sweep(ids, idleBefore, now) =>
      if ids <= Candidates(s.table, idleBefore) then State(ClaimRows(s.table, ids, now), s.owed + ids) else s
    case CloseOwed(id, now) =>
      if id in s.owed then State(Close(s.table, id, now), s.owed - {id}) else s
    case SweeperDies(ids) => s.(owed := s.owed - ids)
    case Remove(id) => s.(table := Delete(s.table, id))
  }

  function Run(s: State, steps: seq<Step>): State {
    if steps == [] then s else Apply(Run(s, steps[..|steps| - 1]), steps[|steps| - 1])
  }

  /** The rows a step claims for closing, and the row it revives. */
  function ClaimedBy(s: State, step: Step): set<nat> {
    if step.Sweep? && step.ids <= Candidates(s.table, step.idleBefore) then step.ids else {}
  }

  function RevivedBy(s: State, step: Step): set<nat> {
    if step.Reopen? && Revive(s.table, step.id, step.now).1.Some? then {step.id} else {}
  }

  /** An outstanding close is for a row that is active with its goodbye claimed. */
  ghost predicate Owing(s: State) {
    forall id :: id in s.owed && id in s.table.rows ==>
      s.table.rows[id].status == Active && s.table.rows[id].closingSentAt.Some?
  }

  ghost predicate Inv(s: State) {
    && OneActive(s.table) && Owing(s)
    && forall id :: id in s.owed ==> id < s.table.next
  }

  lemma OpenKeeps(t: Table, user: nat, channel: Channel, now: Time)
    requires OneActive(t)
    ensures OneActive(Insert(t, user, channel, now).0)
  {
  }

  lemma ReviveKeeps(t: Table, id: nat, now: Time)
    requires OneActive(t)
    ensures OneActive(Revive(t, id, now).0)
  {
  }

  lemma StepKeeps(s: State, step: Step)
    requires Inv(s)
    ensures Inv(Apply(s, step))
    ensures ClaimedBy(s, step) !! s.owed
  {
    match step
    case Open(user, channel, now) => hide OneActive; OpenKeeps(s.table, user, channel, now);
    case Reopen(id, now) => hide OneActive; ReviveKeeps(s.table, id, now);
    case _ =>
  }

  /** Every reachable state has at most one active row per user and honest close obligations. */
  lemma {:induction false} Reachable(steps: seq<Step>)
    ensures Inv(Run(Init(), steps))
  {
    if steps != [] {
      Reachable(steps[..|steps| - 1]);
      StepKeeps(Run(Init(), steps[..|steps| - 1]), steps[|steps| - 1]);
    }
  }

  /** The row `id` after a step that does not delete it, read off the step. */
  function RowAfter(s: State, step: Step, id: nat): Conversation
    requires id in s.table.rows
  {
    var c := s.table.rows[id];
    if id in RevivedBy(s, step) then Revived(c, step.now)
    else if id in ClaimedBy(s, step) then c.(closingSentAt := Some(step.now))
    else match step
      case SwitchMode(i, mode, operator, tag, now) => if i == id then Switched(c, mode, operator, tag, now) else c
      case TouchRow(i, now) => if i == id then c.(lastActivityAt := now) else c
      case Greet(i, now) => if i == id && c.welcomeSentAt.None? then c.(welcomeSentAt := Some(now)) else c
      case CloseOwed(i, now) => if i == id && id in s.owed then c.(status := Closed, closedAt := Some(now)) else c
      case _ => c
  }

  lemma RowStep(s: State, step: Step, id: nat)
    requires Inv(s) && id in s.table.rows && step != Remove(id)
    ensures id in Apply(s, step).table.rows && Apply(s, step).table.rows[id] == RowAfter(s, step, id)
  {
  }

  // ---- claims -------------------------------------------------------------------

  ghost predicate Spent(s: State, id: nat) {
    id < s.table.next && (id in s.table.rows ==> s.table.rows[id].closingSentAt.Some?)
  }

  lemma SpentStep(s: State, step: Step, id: nat)
    requires Inv(s) && (Spent(s, id) || id in ClaimedBy(s, step)) && id !in RevivedBy(s, step)
    ensures Spent(Apply(s, step), id)
  {
    if id in s.table.rows && step != Remove(id) {
      RowStep(s, step, id);
    }
  }

  /** Once claimed, a row keeps its claim until it is revived or deleted; ids never come back. */
  lemma {:induction false} StaysClaimed(steps: seq<Step>, i: nat, j: nat, id: nat)
    requires i < j <= |steps| && id in ClaimedBy(Run(Init(), steps[..i]), steps[i])
    requires forall m :: i <= m < j ==> id !in RevivedBy(Run(Init(), steps[..m]), steps[m])
    ensures Spent(Run(Init(), steps[..j]), id)
  {
    hide Inv, Spent, ClaimedBy, RevivedBy, Apply;
    assert steps[..j][..j - 1] == steps[..j - 1];
    Reachable(steps[..j - 1]);
    if i < j - 1 {
      StaysClaimed(steps, i, j - 1, id);
    }
    SpentStep(Run(Init(), steps[..j - 1]), steps[j - 1], id);
  }

  lemma ClaimNeedsUnclaimed(s: State, step: Step, id: nat)
    requires id in ClaimedBy(s, step)
    ensures !Spent(s, id)
  {
    assert id in Candidates(s.table, step.idleBefore);
  }

  /** Two claims of one row always have a revive between them, so one goodbye per visit. */
  lemma ReviveBetweenClaims(steps: seq<Step>, i: nat, j: nat, id: nat)
    requires i < j < |steps|
    requires id in ClaimedBy(Run(Init(), steps[..i]), steps[i])
    requires id in ClaimedBy(Run(Init(), steps[..j]), steps[j])
    ensures exists m :: i < m < j && id in RevivedBy(Run(Init(), steps[..m]), steps[m])
  {
    if forall m :: i < m < j ==> id !in RevivedBy(Run(Init(), steps[..m]), steps[m]) {
      assert id !in RevivedBy(Run(Init(), steps[..i]), steps[i]);
      ClaimNeedsUnclaimed(Run(Init(), steps[..j]), steps[j], id);
      StaysClaimed(steps, i, j, id);
    }
  }

  // ---- what no step can undo ------------------------------------------------------

  ghost predicate Untouched(steps: seq<Step>, id: nat) {
    forall k :: 0 <= k < |steps| ==> steps[k] != Remove(id)
  }

  ghost predicate NeverResumed(steps: seq<Step>, id: nat) {
    forall k :: 0 <= k < |steps| && steps[k].SwitchMode? && steps[k].id == id ==> steps[k].mode == Human
  }

  /** Open, in human hands, and no sweeper is about to close it. */
  ghost predicate HeldByHuman(s: State, id: nat, user: nat) {
    ActiveFor(s.table, user, id) && s.table.rows[id].mode == Human && id !in s.owed
  }

  /** In particular any human row that was not claimed when it was handed over. */
  lemma UnclaimedIsHeld(s: State, id: nat, user: nat)
    requires Inv(s) && ActiveFor(s.table, user, id) && s.table.rows[id].mode == Human
    requires s.table.rows[id].closingSentAt.None?
    ensures HeldByHuman(s, id, user)
  {
  }

  lemma HeldByHumanStep(s: State, step: Step, id: nat, user: nat)
    requires Inv(s) && HeldByHuman(s, id, user) && step != Remove(id)
    requires step.SwitchMode? && step.id == id ==> step.mode == Human
    ensures HeldByHuman(Apply(s, step), id, user)
  {
    RowStep(s, step, id);
  }

  lemma {:induction false} HeldStaysHeld(s: State, steps: seq<Step>, id: nat, user: nat)
    requires Inv(s) && HeldByHuman(s, id, user) && Untouched(steps, id) && NeverResumed(steps, id)
    ensures Inv(Run(s, steps)) && HeldByHuman(Run(s, steps), id, user)
  {
    if steps != [] {
      var before := steps[..|steps| - 1];
      HeldStaysHeld(s, before, id, user);
      StepKeeps(Run(s, before), steps[|steps| - 1]);
      HeldByHumanStep(Run(s, before), steps[|steps| - 1], id, user);
    }
  }

  /**
   A human's open conversation stays open until it is given back, whatever
   sweepers and customers do, if and only if no sweeper that already claimed it
   is still to close it: close itself has no condition.
   */
  lemma HumanStaysOpenIff(s: State, id: nat, user: nat)
    requires Inv(s) && ActiveFor(s.table, user, id) && s.table.rows[id].mode == Human
    ensures id !in s.owed <==>
      forall steps | Untouched(steps, id) && NeverResumed(steps, id) :: ActiveFor(Run(s, steps).table, user, id)
  {
    forall steps | id !in s.owed && Untouched(steps, id) && NeverResumed(steps, id)
      ensures ActiveFor(Run(s, steps).table, user, id)
    {
      HeldStaysHeld(s, steps, id, user);
    }
    if id in s.owed {
      var steps := [CloseOwed(id, 0)];
      assert Untouched(steps, id) && NeverResumed(steps, id);
      assert steps[..0] == [] && Run(s, steps) == Apply(Run(s, []), steps[0]);
      assert !ActiveFor(Run(s, steps).table, user, id);
    }
  }

  /** Claimed by a sweeper that is gone. */
  ghost predicate Orphaned(s: State, id: nat) {
    && id in s.table.rows && id !in s.owed
    && s.table.rows[id].status == Active && s.table.rows[id].closingSentAt.Some?
  }

  /** A sweeper that dies between claim and close leaves a session that no sweep ever closes. */
  lemma {:induction false} OrphanedForever(s: State, steps: seq<Step>, id: nat)
    requires Inv(s) && Orphaned(s, id) && Untouched(steps, id)
    ensures Inv(Run(s, steps)) && Orphaned(Run(s, steps), id)
  {
    if steps != [] {
      var before := steps[..|steps| - 1];
      OrphanedForever(s, before, id);
      StepKeeps(Run(s, before), steps[|steps| - 1]);
      RowStep(Run(s, before), steps[|steps| - 1], id);
    }
  }

  /** Such rows do arise: opened, claimed when idle, and the sweeper lost before it closes. */
  lemma SweeperLossOrphans()
    ensures Orphaned(Run(Init(), [Open(0, WhatsApp, 0), Sweep({0}, 1, 1), SweeperDies({0})]), 0)
  {
    var a, b, c := Open(0, WhatsApp, 0), Sweep({0}, 1, 1), SweeperDies({0});
    assert [a, b, c][..2] == [a, b] && [a, b][..1] == [a] && [a][..0] == [];
    assert Run(Init(), [a]) == Apply(Run(Init(), []), a);
    assert Run(Init(), [a, b]) == Apply(Run(Init(), [a]), b);
    var s := Run(Init(), [a]);
    assert !HasActive(Init().table, 0) && s.table.rows == map[0 := NewRow(0, WhatsApp, 0)];
    assert {0} <= Candidates(s.table, 1);
  }

  ghost predicate ClosedBy(s: State, steps: seq<Step>, id: nat) {
    && Untouched(steps, id)
    && id in Run(s, steps).table.rows && Run(s, steps).table.rows[id].status == Closed
  }

  /** A claimed open session can still be closed if and only if the sweeper that claimed it is still to do so. */
  lemma ClosableIff(s: State, id: nat)
    requires Inv(s) && id in s.table.rows && s.table.rows[id].status == Active && s.table.rows[id].closingSentAt.Some?
    ensures id in s.owed <==> exists steps :: ClosedBy(s, steps, id)
  {
    if id in s.owed {
      var steps := [CloseOwed(id, 0)];
      assert steps[..0] == [] && Run(s, steps) == Apply(Run(s, []), steps[0]);
      assert ClosedBy(s, steps, id);
    } else {
      forall steps ensures !ClosedBy(s, steps, id) {
        if Untouched(steps, id) {
          OrphanedForever(s, steps, id);
        }
      }
    }
  }

  /** welcome_sent_at is written once, and survives close and revive. */
  lemma {:induction false} WelcomeWriteOnce(s: State, steps: seq<Step>, id: nat, at: Time)
    requires Inv(s) && Untouched(steps, id)
    requires id in s.table.rows && s.table.rows[id].welcomeSentAt == Some(at)
    ensures Inv(Run(s, steps)) && id in Run(s, steps).table.rows
    ensures Run(s, steps).table.rows[id].welcomeSentAt == Some(at)
  {
    if steps != [] {
      var before := steps[..|steps| - 1];
      WelcomeWriteOnce(s, before, id, at);
      StepKeeps(Run(s, before), steps[|steps| - 1]);
      RowStep(Run(s, before), steps[|steps| - 1], id);
    }
  }

  // ---- the derived automaton --------------------------------------------------------

  /**
   A sweep takes only WAITING_IDLE to CLOSING, a sweeper's close only CLOSING to
   CLOSED, a revive only CLOSED to an active state; nothing else enters or
   leaves CLOSING or CLOSED.
   */
  lemma Automaton(s: State, step: Step, id: nat, idleAfter: Time, now: Time)
    requires Inv(s) && id in s.table.rows && step != Remove(id) && idleAfter > 0
    requires step.Sweep? ==> step.idleBefore == now - idleAfter
    requires step.Reopen? ==> step.now == now
    ensures id in Apply(s, step).table.rows
    ensures var from := DeriveSessionState(s.table.rows[id], idleAfter, now);
      var to := DeriveSessionState(Apply(s, step).table.rows[id], idleAfter, now);
      if id in ClaimedBy(s, step) then from == WAITING_IDLE && to == CLOSING
      else if step.CloseOwed? && step.id == id && id in s.owed then from == CLOSING && to == CLOSED
      else if id in RevivedBy(s, step) then from == CLOSED && (to == ACTIVE_BOT || to == ACTIVE_HUMAN)
      else (from == CLOSED <==> to == CLOSED) && (from == CLOSING <==> to == CLOSING)
  {
    RowStep(s, step, id);
  }

  /** The passage of time alone takes ACTIVE_BOT to WAITING_IDLE and nothing else anywhere. */
  lemma TimeOnlyIdles(c: Conversation, idleAfter: Time, now: Time, later: Time)
    requires now <= later
    ensures DeriveSessionState(c, idleAfter, later) == DeriveSessionState(c, idleAfter, now)
            || (DeriveSessionState(c, idleAfter, now) == ACTIVE_BOT && DeriveSessionState(c, idleAfter, later) == WAITING_IDLE)
  {
  }
}
