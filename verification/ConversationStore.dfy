/**
 ConversationRepository (app/repositories/conversation.py) with its table
 updated in place.  Where a method issues several statements, other callers may
 run between them: the method takes what they do as sequences of lifecycle
 steps and applies them at those points, so its contract covers every
 interleaving.
 */
module ConversationStore {
  import opened Common
  import opened Conversations
  import L = SessionLifecycle

  datatype Outcome = Opened(id: nat) | Conflict

  /** The row reopen_recent's subquery picks: the youngest close inside the window. */
  predicate InWindow(c: Conversation, user: nat, notBefore: Time) {
    c.userId == user && c.status == Closed && c.closedAt.Some? && c.closedAt.value >= notBefore
  }

  ghost predicate Youngest(t: Table, user: nat, notBefore: Time, id: nat) {
    && id in t.rows && InWindow(t.rows[id], user, notBefore)
    && forall other :: other in t.rows && InWindow(t.rows[other], user, notBefore) ==>
         t.rows[other].closedAt.value <= t.rows[id].closedAt.value
  }

  predicate AnyInWindow(t: Table, user: nat, notBefore: Time) {
    exists id :: id in t.rows && InWindow(t.rows[id], user, notBefore)
  }

  /** The window is on, the slot is free and some session of that user closed inside it. */
  predicate Resumable(t: Table, user: nat, reopenWithin: Option<Time>, now: Time) {
    reopenWithin.Some? && reopenWithin.value > 0 && !HasActive(t, user) && AnyInWindow(t, user, now - reopenWithin.value)
  }

  /**
   How a customer without an active row gets one, from the state `s` that the
   revive sees: the youngest close inside the window is revived, else a row is
   inserted, else the row that took the slot first is used, if it still has it.
   */
  ghost predicate Resolved(s: L.State, env2: seq<L.Step>, env3: seq<L.Step>, user: nat, reopenWithin: Option<Time>,
                           channel: Channel, now: Time, outcome: Outcome, s': L.State) {
    if Resumable(s.table, user, reopenWithin, now) then
      && outcome.Opened? && Youngest(s.table, user, now - reopenWithin.value, outcome.id)
      && s' == L.Apply(s, L.Reopen(outcome.id, now))
    else
      var atInsert := L.Run(s, env2);
      if !HasActive(atInsert.table, user) then
        outcome == Opened(atInsert.table.next) && s' == L.Apply(atInsert, L.Open(user, channel, now))
      else
        s' == L.Run(atInsert, env3) && (outcome.Conflict? <==> !HasActive(s'.table, user))
  }

  lemma ResumableExactly(t: Table, user: nat, reopenWithin: Option<Time>, now: Time)
    ensures Resumable(t, user, reopenWithin, now) <==>
      && !HasActive(t, user) && reopenWithin.Some? && reopenWithin.value > 0
      && exists o :: o in t.rows.Values && o.userId == user && o.status == Closed && o.closedAt.Some?
                     && now - o.closedAt.value <= reopenWithin.value
  {
    if Resumable(t, user, reopenWithin, now) {
      var id :| id in t.rows && InWindow(t.rows[id], user, now - reopenWithin.value);
      assert t.rows[id] in t.rows.Values;
    }
  }

  lemma NotYetUsed(s: L.State)
    requires L.Inv(s)
    ensures s.table.next !in s.table.rows
  {
  }

  /** The same when nobody interferes. */
  ghost predicate Opening(s: L.State, s': L.State, user: nat, reopenWithin: Option<Time>, channel: Channel, now: Time, c: nat) {
    if HasActive(s.table, user) then s' == s && ActiveFor(s.table, user, c)
    else if Resumable(s.table, user, reopenWithin, now) then
      Youngest(s.table, user, now - reopenWithin.value, c) && s' == L.Apply(s, L.Reopen(c, now))
    else c == s.table.next && s' == L.Apply(s, L.Open(user, channel, now))
  }

  /** `claimed` are the `limit` longest-idle candidates that no other sweeper has locked, or all of them if fewer. */
  ghost predicate OldestFirst(t: Table, idleBefore: Time, limit: nat, locked: set<nat>, claimed: set<nat>) {
    var free := Candidates(t, idleBefore) - locked;
    && claimed <= free
    && |claimed| == (if |free| <= limit then |free| else limit)
    && NoYounger(t.rows, claimed, free - claimed)
  }

  /** Whatever was taken has been idle at least as long as whatever was left. */
  ghost predicate NoYounger(rows: map<nat, Conversation>, taken: set<nat>, left: set<nat>)
    requires taken <= rows.Keys && left <= rows.Keys
  {
    forall a, b :: a in taken && b in left ==> rows[a].lastActivityAt <= rows[b].lastActivityAt
  }

  lemma TakeOldest(rows: map<nat, Conversation>, taken: set<nat>, left: set<nat>, oldest: nat)
    requires taken <= rows.Keys && left <= rows.Keys && NoYounger(rows, taken, left)
    requires oldest in left && forall id :: id in left ==> rows[oldest].lastActivityAt <= rows[id].lastActivityAt
    ensures NoYounger(rows, taken + {oldest}, left - {oldest})
  {
  }

  class ConversationTable {
    var rows: map<nat, Conversation>
    var next: nat
    var owed: set<nat>   // claimed by some sweeper, still to be closed by it

    ghost function Contents(): L.State
      reads this
    {
      L.State(Table(rows, next), owed)
    }

    constructor ()
      ensures Contents() == L.Init() && L.Inv(Contents())
    {
      rows, next, owed := map[], 0, {};
    }

    /** Everybody else's statements. */
    method Environment(steps: seq<L.Step>)
      requires L.Inv(Contents())
      modifies this
      ensures Contents() == L.Run(old(Contents()), steps) && L.Inv(Contents())
    {
      for i := 0 to |steps|
        invariant Contents() == L.Run(old(Contents()), steps[..i]) && L.Inv(Contents())
      {
        assert steps[..i + 1][..i] == steps[..i];
        L.StepKeeps(Contents(), steps[i]);
        var s := L.Apply(L.State(Table(rows, next), owed), steps[i]);
        rows, next, owed := s.table.rows, s.table.next, s.owed;
      }
      assert steps[..|steps|] == steps;
    }

    method ActiveForUser(user: nat) returns (found: Option<nat>)
      ensures found.Some? ==> ActiveFor(Contents().table, user, found.value)
      ensures found.None? ==> !HasActive(Contents().table, user)
    {
      if id :| id in rows && rows[id].userId == user && rows[id].status == Active {
        return Some(id);
      }
      return None;
    }

    /** Nothing closed matched, or the index refused the update: the savepoint alone is rolled back. */
    method ReviveRow(id: nat, now: Time) returns (revived: Option<nat>)
      requires L.Inv(Contents())
      modifies this
      ensures Contents() == L.Apply(old(Contents()), L.Reopen(id, now)) && L.Inv(Contents())
      ensures revived == Revive(old(Contents()).table, id, now).1
      ensures revived.None? ==> Contents() == old(Contents())
      ensures revived.Some? ==> id in rows && ActiveFor(Contents().table, rows[id].userId, id)
      ensures revived.None? && id in rows && rows[id].status == Closed ==> HasActive(Contents().table, rows[id].userId)
      ensures revived.Some? ==>
        && id in old(rows) && old(rows)[id].status == Closed
        && rows == old(rows)[id := old(rows)[id].(status := Active, closedAt := None, closingSentAt := None, lastActivityAt := now)]
    {
      L.StepKeeps(Contents(), L.Reopen(id, now));
      if id !in rows || rows[id].status == Active {
        return None;
      }
      var holder := ActiveForUser(rows[id].userId);
      if holder.Some? {
        return None;
      }
      rows := rows[id := Revived(rows[id], now)];
      revived := Some(id);
    }

    method ReopenRecent(user: nat, notBefore: Time, now: Time) returns (reopened: Option<nat>)
      requires L.Inv(Contents())
      modifies this
      ensures L.Inv(Contents())
      ensures reopened.Some? ==>
        && Youngest(old(Contents()).table, user, notBefore, reopened.value)
        && Contents() == L.Apply(old(Contents()), L.Reopen(reopened.value, now))
        && ActiveFor(Contents().table, user, reopened.value)
      ensures reopened.None? ==> Contents() == old(Contents())
      ensures reopened.Some? <==> AnyInWindow(old(Contents()).table, user, notBefore) && !HasActive(old(Contents()).table, user)
      ensures reopened.Some? ==>
        && reopened.value in old(rows)
        && var c := old(rows)[reopened.value];
        && c.userId == user && c.status == Closed && c.closedAt.Some? && notBefore <= c.closedAt.value
        && forall o | o in old(rows).Values && o.userId == user && o.status == Closed && o.closedAt.Some? ::
             o.closedAt.value <= c.closedAt.value
      ensures reopened.None? && !HasActive(old(Contents()).table, user) ==>
        forall o | o in old(rows).Values && o.userId == user && o.status == Closed && o.closedAt.Some? :: o.closedAt.value < notBefore
    {
      var left := rows.Keys;
      var best: Option<nat> := None;
      while left != {}
        invariant left <= rows.Keys
        invariant best.None? ==> forall id :: id in rows.Keys - left ==> !InWindow(rows[id], user, notBefore)
        invariant best.Some? ==>
          && best.value in rows && InWindow(rows[best.value], user, notBefore)
          && forall id :: id in rows.Keys - left && InWindow(rows[id], user, notBefore) ==>
               rows[id].closedAt.value <= rows[best.value].closedAt.value
        decreases left
      {
        var id :| id in left;
        if InWindow(rows[id], user, notBefore)
           && (best.None? || rows[id].closedAt.value > rows[best.value].closedAt.value) {
          best := Some(id);
        }
        left := left - {id};
      }
      if best.None? {
        return None;
      }
      assert Youngest(Contents().table, user, notBefore, best.value);
      reopened := ReviveRow(best.value, now);
    }

    /** INSERT ... ON CONFLICT DO NOTHING on the partial unique index. */
    method InsertActive(user: nat, channel: Channel, now: Time) returns (created: Option<nat>)
      requires L.Inv(Contents())
      modifies this
      ensures Contents() == L.Apply(old(Contents()), L.Open(user, channel, now)) && L.Inv(Contents())
      ensures created == if HasActive(old(Contents()).table, user) then None else Some(old(next))
      ensures created.None? ==> Contents() == old(Contents())
      ensures created.Some? ==> ActiveFor(Contents().table, user, created.value)
      ensures created.Some? ==>
        rows == old(rows)[created.value := Conversation(user, channel, Active, Bot, None, None, None, now, None, None, None)]
    {
      L.StepKeeps(Contents(), L.Open(user, channel, now));
      var holder := ActiveForUser(user);
      if holder.Some? {
        return None;
      }
      created := Some(next);
      rows, next := rows[next := NewRow(user, channel, now)], next + 1;
    }

    /**
     Returns an active row of that user, or raises; and it raises only when the
     row that made the insert conflict stopped being active before the re-read.
     A lost revive race changes nothing and falls through.
     */
    method GetOrCreateActive(user: nat, reopenWithin: Option<Time>, channel: Channel, now: Time,
                             env1: seq<L.Step>, env2: seq<L.Step>, env3: seq<L.Step>)
      returns (outcome: Outcome)
      requires L.Inv(Contents())
      modifies this
      ensures L.Inv(Contents())
      ensures outcome.Opened? ==> ActiveFor(Contents().table, user, outcome.id)
      ensures HasActive(old(Contents()).table, user) ==> outcome.Opened? && Contents() == old(Contents())
      ensures !HasActive(old(Contents()).table, user) ==>
        Resolved(L.Run(old(Contents()), env1), env2, env3, user, reopenWithin, channel, now, outcome, Contents())
    {
      hide L.Inv, L.Run, L.Apply, AnyInWindow, Youngest;
      var current := ActiveForUser(user);
      if current.Some? {
        return Opened(current.value);
      }
      Environment(env1);
      if reopenWithin.Some? && reopenWithin.value > 0 {
        var resumed := ReopenRecent(user, now - reopenWithin.value, now);
        if resumed.Some? {
          return Opened(resumed.value);
        }
      }
      Environment(env2);
      var created := InsertActive(user, channel, now);
      if created.Some? {
        return Opened(created.value);
      }
      Environment(env3);
      current := ActiveForUser(user);
      outcome := if current.Some? then Opened(current.value) else Conflict;
    }

    /** With nobody in between there is no conflict to raise. */
    method OpenUndisturbed(user: nat, reopenWithin: Option<Time>, channel: Channel, now: Time) returns (c: nat)
      requires L.Inv(Contents())
      modifies this
      ensures L.Inv(Contents()) && ActiveFor(Contents().table, user, c)
      ensures Opening(old(Contents()), Contents(), user, reopenWithin, channel, now, c) && owed == old(owed)
      ensures !HasActive(old(Contents()).table, user) ==>
        (c in old(rows) <==> reopenWithin.Some? && reopenWithin.value > 0
                             && exists o :: o in old(rows).Values && o.userId == user && o.status == Closed && o.closedAt.Some?
                                            && now - o.closedAt.value <= reopenWithin.value)
    {
      NotYetUsed(Contents());
      ResumableExactly(Contents().table, user, reopenWithin, now);
      hide L.Inv, Youngest, Resumable;
      var outcome := GetOrCreateActive(user, reopenWithin, channel, now, [], [], []);
      c := outcome.id;
    }

    /** set_mode on a loaded row. */
    method SetMode(id: nat, mode: Mode, operator: Option<string>, tag: Option<Tag>, now: Time)
      requires L.Inv(Contents())
      modifies this
      ensures Contents() == L.Apply(old(Contents()), L.SwitchMode(id, mode, operator, tag, now)) && L.Inv(Contents())
      ensures id in old(rows) ==>
        && rows == old(rows)[id := rows[id]]
        && var (c, c') := (old(rows)[id], rows[id]);
        && c'.mode == mode && c'.tag == (if tag.Some? then tag else c.tag) && c'.lastActivityAt == now
        && (mode == Human ==> c'.operator == operator && c'.handoffAt == Some(now))
        && (mode == Bot ==> c'.operator == None && c'.handoffAt == None)
        && c'.(mode := c.mode, tag := c.tag, operator := c.operator, handoffAt := c.handoffAt, lastActivityAt := c.lastActivityAt) == c
    {
      L.StepKeeps(Contents(), L.SwitchMode(id, mode, operator, tag, now));
      if id in rows {
        var c := rows[id].(mode := mode);
        if tag.Some? {
          c := c.(tag := tag);
        }
        if mode == Human {
          c := c.(operator := operator, handoffAt := Some(now));
        } else {
          c := c.(operator := None, handoffAt := None);
        }
        rows := rows[id := c.(lastActivityAt := now)];
      }
    }

    method Touch(id: nat, now: Time)
      requires L.Inv(Contents())
      modifies this
      ensures Contents() == L.Apply(old(Contents()), L.TouchRow(id, now)) && L.Inv(Contents())
      ensures id in old(rows) ==> rows == old(rows)[id := old(rows)[id].(lastActivityAt := now)]
    {
      L.StepKeeps(Contents(), L.TouchRow(id, now));
      if id in rows {
        rows := rows[id := rows[id].(lastActivityAt := now)];
      }
    }

    method MarkWelcomeSent(id: nat, now: Time)
      requires L.Inv(Contents())
      modifies this
      ensures Contents() == L.Apply(old(Contents()), L.Greet(id, now)) && L.Inv(Contents())
      ensures id in old(rows) && old(rows)[id].welcomeSentAt.None? ==>
        rows == old(rows)[id := old(rows)[id].(welcomeSentAt := Some(now))]
    {
      L.StepKeeps(Contents(), L.Greet(id, now));
      if id in rows && rows[id].welcomeSentAt.None? {
        rows := rows[id := rows[id].(welcomeSentAt := Some(now))];
      }
    }

    /** A sweeper settles one of its claims. */
    method CloseClaimed(id: nat, now: Time)
      requires L.Inv(Contents()) && id in owed
      modifies this
      ensures Contents() == L.Apply(old(Contents()), L.CloseOwed(id, now)) && L.Inv(Contents())
      ensures id in old(rows) ==> rows == old(rows)[id := old(rows)[id].(status := Closed, closedAt := Some(now))]
    {
      L.StepKeeps(Contents(), L.CloseOwed(id, now));
      if id in rows {
        rows := rows[id := rows[id].(status := Closed, closedAt := Some(now))];
      }
      owed := owed - {id};
    }

    /** One conditional UPDATE: no row is ever handed to two sweepers. */
    method ClaimIdleSessions(idleBefore: Time, limit: nat, locked: set<nat>, now: Time) returns (claimed: set<nat>)
      requires L.Inv(Contents())
      modifies this
      ensures OldestFirst(old(Contents()).table, idleBefore, limit, locked, claimed)
      ensures claimed !! old(owed)
      ensures Contents() == L.Apply(old(Contents()), L.Sweep(claimed, idleBefore, now)) && L.Inv(Contents())
      ensures rows.Keys == old(rows).Keys && claimed <= rows.Keys
      ensures forall id :: id in rows ==>
        rows[id] == if id in claimed then old(rows)[id].(closingSentAt := Some(now)) else old(rows)[id]
    {
      hide L.Inv, Candidate;
      claimed := Select(idleBefore, limit, locked);
      L.StepKeeps(Contents(), L.Sweep(claimed, idleBefore, now));
      rows := map id | id in rows :: if id in claimed then rows[id].(closingSentAt := Some(now)) else rows[id];
      owed := owed + claimed;
    }

    /** ORDER BY last_activity_at LIMIT ... FOR UPDATE SKIP LOCKED */
    method Select(idleBefore: Time, limit: nat, locked: set<nat>) returns (claimed: set<nat>)
      ensures OldestFirst(Contents().table, idleBefore, limit, locked, claimed)
    {
      var free := Candidates(Table(rows, next), idleBefore) - locked;
      claimed := {};
      while |claimed| < limit && claimed != free
        invariant claimed <= free && |claimed| <= limit
        invariant NoYounger(rows, claimed, free - claimed)
        decreases free - claimed
      {
        hide NoYounger;
        var oldest := Oldest(free - claimed);
        TakeOldest(rows, claimed, free - claimed, oldest);
        assert free - (claimed + {oldest}) == free - claimed - {oldest};
        claimed := claimed + {oldest};
      }
      if claimed != free {
        SmallerSubset(claimed, free);
      }
    }

    method Oldest(ids: set<nat>) returns (oldest: nat)
      requires ids != {} && ids <= rows.Keys
      ensures oldest in ids && forall id :: id in ids ==> rows[oldest].lastActivityAt <= rows[id].lastActivityAt
    {
      oldest :| oldest in ids;
      var left := ids;
      while left != {}
        invariant left <= ids && oldest in ids
        invariant forall id :: id in ids - left ==> rows[oldest].lastActivityAt <= rows[id].lastActivityAt
        decreases left
      {
        var id :| id in left;
        if rows[id].lastActivityAt < rows[oldest].lastActivityAt {
          oldest := id;
        }
        left := left - {id};
      }
    }
  }

  lemma SmallerSubset(a: set<nat>, b: set<nat>)
    requires a <= b && a != b
    ensures |a| < |b|
  {
    assert b == a + (b - a);
    assert b - a != {};
  }
}
