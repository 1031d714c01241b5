// What the calls that take tasks out of the map know while they run: Ranges and
// their snapshots, and on whose behalf a task was removed.

module RetransmissionHistory {
  import opened Common
  import opened Retransmission
  import opened RetransmissionInvariant
  import opened RetransmissionSlots
  import Keys

  // The key a caller deletes is a key of its task, its ack or its connection.
  ghost predicate CallerKnows(recs: seq<Task>, caller: Caller, key: string)
  {
    match caller
    case ByRun(t, _) => t < |recs| && recs[t].key == key
    case ByAck(k) => k == key
    case ByClear(connId, _) => exists m :: key == Keys.TaskKey(connId, m)
    case ByClose(_) => true
  }

  ghost predicate RangeOk(recs: seq<Task>, r: Range)
  {
    && r.born <= |recs|
    && (forall k :: k in r.snap ==> r.snap[k] < r.born && recs[r.snap[k]].key == k)
    && (forall t :: 0 <= t < r.born && recs[t].fate.Registered? ==>
          recs[t].key in r.snap && r.snap[recs[t].key] == t)
    && (forall k :: k in r.visited ==> HasTask(recs, k))
  }

  // The tasks a Range was to remove and has dealt with are out of the map.
  ghost predicate Swept(recs: seq<Task>, caller: Caller, dealt: set<string>)
    requires caller.ByClear? || caller.ByClose?
    requires RangeOk(recs, caller.range)
  {
    forall k :: k in caller.range.snap && k in dealt && Wants(caller, recs[caller.range.snap[k]]) ==>
      recs[caller.range.snap[k]].fate.Removed?
  }

  function Callers(a: Agent): Option<Caller>
  {
    if a.Ranging? || a.Ended? || InDelete(a) then Some(a.caller) else None
  }

  ghost predicate HistoryOk(recs: seq<Task>, a: Agent)
  {
    && (a.DeleteLoad? ==> CallerKnows(recs, a.caller, a.key))
    && (Callers(a).Some? && (a.caller.ByClear? || a.caller.ByClose?) ==>
          && RangeOk(recs, a.caller.range)
          && Swept(recs, a.caller,
                   if a.Ended? then a.caller.range.snap.Keys
                   else if a.DeleteLoad? then a.caller.range.visited - {a.key}
                   else a.caller.range.visited))
  }

  ghost predicate History(s: State)
  {
    && (forall i :: 0 <= i < |s.agents| ==> HistoryOk(s.recs, s.agents[i]))
    && (forall t :: 0 <= t < |s.recs| && s.recs[t].fate.Removed? ==>
          CallerKnows(s.recs, s.recs[t].fate.remover, s.recs[t].key))
  }

  // Records are only ever added to, and a removed task stays removed.
  ghost predicate Extends(recs: seq<Task>, recs': seq<Task>)
  {
    && |recs| <= |recs'|
    && forall t :: 0 <= t < |recs| ==>
         && recs'[t].key == recs[t].key && recs'[t].connId == recs[t].connId
         && recs'[t].msgId == recs[t].msgId && recs'[t].slot == recs[t].slot
         && (recs[t].fate.Removed? ==> recs'[t].fate == recs[t].fate)
  }

  lemma PerformExtends(s: State, i: nat, op: Op)
    requires i < |s.agents| && Applicable(s, op) && Linked(s) && MapFacts(s, op)
    ensures Extends(s.recs, NewRecs(s, op))
  {
  }

  lemma ExtendsHasTask(recs: seq<Task>, recs': seq<Task>, key: string)
    requires Extends(recs, recs') && HasTask(recs, key)
    ensures HasTask(recs', key)
  {
    var t :| 0 <= t < |recs| && recs[t].key == key;
    assert recs'[t].key == key;
  }

  lemma ExtendsRangeOk(recs: seq<Task>, recs': seq<Task>, r: Range)
    requires Extends(recs, recs') && RangeOk(recs, r)
    ensures RangeOk(recs', r)
  {
    forall k | k in r.visited
      ensures HasTask(recs', k)
    {
      ExtendsHasTask(recs, recs', k);
    }
  }

  lemma ExtendsHistory(recs: seq<Task>, recs': seq<Task>, a: Agent)
    requires Extends(recs, recs') && HistoryOk(recs, a)
    ensures HistoryOk(recs', a)
  {
    if Callers(a).Some? && (a.caller.ByClear? || a.caller.ByClose?) {
      ExtendsRangeOk(recs, recs', a.caller.range);
    }
  }

  // ---------- the moves of a Range ----------

  ghost predicate Coherent(s: State)
  {
    Refs(s) && Linked(s) && Slots(s)
  }

  lemma RangeBegins(s: State, caller: Caller)
    requires Coherent(s) && (caller.ByClear? || caller.ByClose?)
    requires caller.range == Range(s.tasks, |s.recs|, {})
    ensures HistoryOk(s.recs, Ranging(caller))
  {
  }

  lemma RangeVisits(s: State, caller: Caller, k: string, t: nat)
    requires Coherent(s) && (caller.ByClear? || caller.ByClose?)
    requires HistoryOk(s.recs, Ranging(caller)) && Visitable(s, caller.range, k, t)
    ensures var caller' := Visited(caller, k);
            HistoryOk(s.recs, if Wants(caller, s.recs[t]) then DeleteLoad(k, caller') else Ranging(caller'))
  {
    var caller' := Visited(caller, k);
    assert HasTask(s.recs, k);
    assert RangeOk(s.recs, caller'.range);
    assert OwnsSlot(s, t);
  }

  lemma RangeEnds(s: State, caller: Caller)
    requires Coherent(s) && (caller.ByClear? || caller.ByClose?)
    requires HistoryOk(s.recs, Ranging(caller)) && MayEnd(s, caller.range)
    ensures HistoryOk(s.recs, Ended(caller))
  {
    forall k | k in caller.range.snap && Wants(caller, s.recs[caller.range.snap[k]])
      ensures s.recs[caller.range.snap[k]].fate.Removed?
    {
      if k !in caller.range.visited {
        assert k !in s.tasks || s.tasks[k] != caller.range.snap[k];
      }
    }
  }

  lemma RangeDeletes(s: State, i: nat, op: Op, key: string, caller: Caller)
    requires Coherent(s) && i < |s.agents| && Applicable(s, op) && MapFacts(s, op)
    requires HistoryOk(s.recs, DeleteLoad(key, caller)) && op.Delete? && op.key == key && op.caller == caller
    ensures HistoryOk(NewRecs(s, op), DeletePtr(s.tasks[key], caller))
  {
    var recs := NewRecs(s, op);
    PerformExtends(s, i, op);
    ExtendsHistory(s.recs, recs, DeleteLoad(key, caller));
    if caller.ByClear? || caller.ByClose? {
      forall k | k in caller.range.snap && k in caller.range.visited && Wants(caller, recs[caller.range.snap[k]])
        ensures recs[caller.range.snap[k]].fate.Removed?
      {
        RecordChange(s, op, caller.range.snap[k]);
      }
    }
  }

  lemma RangeResumes(s: State, key: string, caller: Caller)
    requires Coherent(s) && HistoryOk(s.recs, DeleteLoad(key, caller)) && key !in s.tasks
    ensures HistoryOk(s.recs, Resume(caller))
  {
  }

  // ---------- every step ----------

  lemma CallHistory(s: State, i: nat, c: Choice, op: Op)
    requires OpIs(s, i, c, op) && !InHandle(s.agents[i]) && !InRun(s.agents[i]) && !InDelete(s.agents[i])
    requires Coherent(s) && HistoryOk(s.recs, s.agents[i])
    ensures HistoryOk(NewRecs(s, op), op.next)
  {
    var a := s.agents[i];
    match a
    case ClearBegin(connId) => RangeBegins(s, ByClear(connId, Range(s.tasks, |s.recs|, {})));
    case CloseBegin => RangeBegins(s, ByClose(Range(s.tasks, |s.recs|, {})));
    case Ranging(caller) =>
      if c.Visit? && Visitable(s, caller.range, c.key, c.task) {
        RangeVisits(s, caller, c.key, c.task);
      } else {
        RangeEnds(s, caller);
      }
    case _ =>
  }

  lemma DeleteHistory(s: State, i: nat, c: Choice, op: Op)
    requires OpIs(s, i, c, op) && InDelete(s.agents[i])
    requires Coherent(s) && HistoryOk(s.recs, s.agents[i]) && MapFacts(s, op)
    ensures HistoryOk(NewRecs(s, op), op.next)
    ensures op.Delete? ==> CallerKnows(s.recs, op.caller, op.key)
  {
    var a := s.agents[i];
    PerformExtends(s, i, op);
    ExtendsHistory(s.recs, NewRecs(s, op), a);
    if a.DeleteLoad? {
      if a.key in s.tasks {
        RangeDeletes(s, i, op, a.key, a.caller);
      } else {
        RangeResumes(s, a.key, a.caller);
      }
    }
  }

  lemma RunHistory(s: State, i: nat, c: Choice, op: Op)
    requires OpIs(s, i, c, op) && InRun(s.agents[i])
    ensures HistoryOk(NewRecs(s, op), op.next)
    ensures !op.Delete?
  {
  }

  lemma HandleHistory(s: State, i: nat, c: Choice, op: Op)
    requires OpIs(s, i, c, op) && InHandle(s.agents[i])
    ensures HistoryOk(NewRecs(s, op), op.next)
    ensures !op.Delete?
  {
  }

  lemma KeepHistory(s: State, i: nat, op: Op)
    requires i < |s.agents| && Applicable(s, op) && MapFacts(s, op) && Linked(s) && History(s)
    requires HistoryOk(NewRecs(s, op), op.next)
    requires op.Delete? ==> CallerKnows(s.recs, op.caller, op.key)
    ensures History(Perform(s, i, op))
  {
    var s' := Perform(s, i, op);
    PerformExtends(s, i, op);
    forall j | 0 <= j < |s'.agents|
      ensures HistoryOk(s'.recs, s'.agents[j])
    {
      if j != i && j < |s.agents| && s'.agents[j] == s.agents[j] {
        ExtendsHistory(s.recs, s'.recs, s.agents[j]);
      }
    }
    forall t | 0 <= t < |s'.recs| && s'.recs[t].fate.Removed?
      ensures CallerKnows(s'.recs, s'.recs[t].fate.remover, s'.recs[t].key)
    {
      RecordChange(s, op, t);
    }
  }
}
