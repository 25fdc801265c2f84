/** The task dependency graph: what the depth-first check decides, and why accepted edits keep the graph acyclic. */
module TeamDependencies {
  import opened Common
  import opened TeamModel

  /** A walk along dependencies: each task depends on the next one. */
  ghost predicate Chain(tasks: map<Id, Task>, path: seq<Id>) {
    path != [] &&
    (forall i :: 0 <= i < |path| ==> path[i] in tasks) &&
    forall i :: 0 <= i < |path| - 1 ==> path[i + 1] in tasks[path[i]].dependsOn
  }

  ghost predicate Leads(tasks: map<Id, Task>, path: seq<Id>, from: Id, to: Id) {
    Chain(tasks, path) && path[0] == from && path[|path| - 1] == to
  }

  /** `to` is `from` or one of its direct or indirect dependencies. */
  ghost predicate Reaches(tasks: map<Id, Task>, from: Id, to: Id) {
    exists path :: Leads(tasks, path, from, to)
  }

  /** No task depends on itself, directly or through others. */
  ghost predicate Acyclic(tasks: map<Id, Task>) {
    forall path :: Chain(tasks, path) && |path| >= 2 ==> path[0] != path[|path| - 1]
  }

  /** Every dependency is a task of the same team. */
  ghost predicate Closed(tasks: map<Id, Task>) {
    forall t, i :: t in tasks && 0 <= i < |tasks[t].dependsOn| ==>
      tasks[t].dependsOn[i] in tasks && tasks[tasks[t].dependsOn[i]].teamId == tasks[t].teamId
  }

  // ---------------------------------------------------------------- the search

  /** Tasks a successful search has entered: known, of the team, not the edited one, with all dependencies seen. */
  ghost predicate Explored(tasks: map<Id, Task>, teamId: Id, self: Option<Id>, done: set<Id>, seen: set<Id>) {
    forall x :: x in done ==>
      x in tasks && tasks[x].teamId == teamId && Some(x) != self &&
      forall i :: 0 <= i < |tasks[x].dependsOn| ==> tasks[x].dependsOn[i] in seen
  }

  lemma {:induction false} VisitExplores(tasks: map<Id, Task>, teamId: Id, self: Option<Id>, id: Id, seen: set<Id>)
    requires Visit(tasks, teamId, self, id, seen).Ok?
    ensures Explored(tasks, teamId, self, Visit(tasks, teamId, self, id, seen).value - seen,
                     Visit(tasks, teamId, self, id, seen).value)
    decreases tasks.Keys - seen, 1, 0
  {
    if id !in seen {
      VisitAllExplores(tasks, teamId, self, tasks[id].dependsOn, seen + {id});
    }
  }

  lemma {:induction false} VisitAllExplores(tasks: map<Id, Task>, teamId: Id, self: Option<Id>, ids: seq<Id>,
                                            seen: set<Id>)
    requires VisitAll(tasks, teamId, self, ids, seen).Ok?
    ensures Explored(tasks, teamId, self, VisitAll(tasks, teamId, self, ids, seen).value - seen,
                     VisitAll(tasks, teamId, self, ids, seen).value)
    decreases tasks.Keys - seen, 2, |ids|
  {
    if ids != [] {
      VisitExplores(tasks, teamId, self, ids[0], seen);
      VisitAllExplores(tasks, teamId, self, ids[1..], Visit(tasks, teamId, self, ids[0], seen).value);
    }
  }

  /** A refusal for a cycle comes with a chain to the edited task. */
  lemma {:induction false} VisitFindsCycle(tasks: map<Id, Task>, teamId: Id, self: Id, id: Id, seen: set<Id>)
    requires self in tasks
    requires Visit(tasks, teamId, Some(self), id, seen) == Err(DependencyCycle)
    ensures Reaches(tasks, id, self)
    decreases tasks.Keys - seen, 1, 0
  {
    if id == self {
      assert Leads(tasks, [id], id, self);
    } else {
      var next := VisitAllFindsCycle(tasks, teamId, self, tasks[id].dependsOn, seen + {id});
      var path :| Leads(tasks, path, next, self);
      assert Leads(tasks, [id] + path, id, self);
    }
  }

  lemma {:induction false} VisitAllFindsCycle(tasks: map<Id, Task>, teamId: Id, self: Id, ids: seq<Id>, seen: set<Id>)
    returns (from: Id)
    requires self in tasks
    requires VisitAll(tasks, teamId, Some(self), ids, seen) == Err(DependencyCycle)
    ensures from in ids && Reaches(tasks, from, self)
    decreases tasks.Keys - seen, 2, |ids|
  {
    var first := Visit(tasks, teamId, Some(self), ids[0], seen);
    if first.Err? {
      VisitFindsCycle(tasks, teamId, self, ids[0], seen);
      from := ids[0];
    } else {
      from := VisitAllFindsCycle(tasks, teamId, self, ids[1..], first.value);
    }
  }

  /** In a closed graph the search fails for no other reason. */
  lemma {:induction false} VisitFailsOnlyForCycle(tasks: map<Id, Task>, teamId: Id, self: Option<Id>, id: Id,
                                                  seen: set<Id>)
    requires Closed(tasks) && id in tasks && tasks[id].teamId == teamId
    ensures Visit(tasks, teamId, self, id, seen).Err? ==>
              Visit(tasks, teamId, self, id, seen) == Err(DependencyCycle) && self.Some?
    decreases tasks.Keys - seen, 1, 0
  {
    if Some(id) != self && id !in seen {
      VisitAllFailsOnlyForCycle(tasks, teamId, self, tasks[id].dependsOn, seen + {id});
    }
  }

  lemma {:induction false} VisitAllFailsOnlyForCycle(tasks: map<Id, Task>, teamId: Id, self: Option<Id>, ids: seq<Id>,
                                                     seen: set<Id>)
    requires Closed(tasks) && forall i :: 0 <= i < |ids| ==> ids[i] in tasks && tasks[ids[i]].teamId == teamId
    ensures VisitAll(tasks, teamId, self, ids, seen).Err? ==>
              VisitAll(tasks, teamId, self, ids, seen) == Err(DependencyCycle) && self.Some?
    decreases tasks.Keys - seen, 2, |ids|
  {
    if ids != [] {
      VisitFailsOnlyForCycle(tasks, teamId, self, ids[0], seen);
      var first := Visit(tasks, teamId, self, ids[0], seen);
      if first.Ok? {
        VisitAllFailsOnlyForCycle(tasks, teamId, self, ids[1..], first.value);
      }
    }
  }

  /** A chain that starts among fully explored tasks stays among them. */
  lemma {:induction false} ChainStaysExplored(tasks: map<Id, Task>, teamId: Id, self: Option<Id>, done: set<Id>,
                                              path: seq<Id>)
    requires Explored(tasks, teamId, self, done, done) && Chain(tasks, path) && path[0] in done
    ensures path[|path| - 1] in done
  {
    if |path| > 1 {
      assert path[1] in tasks[path[0]].dependsOn;
      ChainStaysExplored(tasks, teamId, self, done, path[1..]);
    }
  }

  /** One proposed dependency: the search accepts it iff it is a task of the team that does not lead to `self`. */
  lemma VisitDecides(tasks: map<Id, Task>, teamId: Id, self: Option<Id>, id: Id)
    requires Closed(tasks) && (self.Some? ==> self.value in tasks)
    ensures Visit(tasks, teamId, self, id, {}).Ok? <==>
              id in tasks && tasks[id].teamId == teamId && !(self.Some? && Reaches(tasks, id, self.value))
    ensures id in tasks && tasks[id].teamId == teamId ==>
              (Visit(tasks, teamId, self, id, {}) == Err(DependencyCycle) <==>
               self.Some? && Reaches(tasks, id, self.value))
  {
    var found := Visit(tasks, teamId, self, id, {});
    if found.Ok? {
      VisitExplores(tasks, teamId, self, id, {});
      var done := found.value;
      assert done - {} == done;
      if self.Some? && Reaches(tasks, id, self.value) {
        var path :| Leads(tasks, path, id, self.value);
        ChainStaysExplored(tasks, teamId, self, done, path);
        assert false;
      }
    } else if id in tasks && tasks[id].teamId == teamId {
      VisitFailsOnlyForCycle(tasks, teamId, self, id, {});
      VisitFindsCycle(tasks, teamId, self.value, id, {});
    }
  }

  /** `#validateDependencies` accepts exactly the distinct tasks of the team from which `self` is unreachable. */
  lemma ValidateDecides(tasks: map<Id, Task>, teamId: Id, ids: seq<Id>, self: Option<Id>)
    requires Closed(tasks) && (self.Some? ==> self.value in tasks)
    ensures ValidateDependencies(tasks, teamId, ids, self).Ok? <==>
              Distinct(ids) &&
              forall i :: 0 <= i < |ids| ==>
                ids[i] in tasks && tasks[ids[i]].teamId == teamId &&
                !(self.Some? && Reaches(tasks, ids[i], self.value))
  {
    VisitEachDecides(tasks, teamId, ids, self);
  }

  lemma {:induction false} VisitEachDecides(tasks: map<Id, Task>, teamId: Id, ids: seq<Id>, self: Option<Id>)
    requires Closed(tasks) && (self.Some? ==> self.value in tasks)
    ensures VisitEach(tasks, teamId, self, ids).Ok? <==>
              forall i :: 0 <= i < |ids| ==>
                ids[i] in tasks && tasks[ids[i]].teamId == teamId &&
                !(self.Some? && Reaches(tasks, ids[i], self.value))
  {
    if ids != [] {
      VisitDecides(tasks, teamId, self, ids[0]);
      VisitEachDecides(tasks, teamId, ids[1..], self);
      assert forall i :: 1 <= i < |ids| ==> ids[i] == ids[1..][i - 1];
    }
  }

  /** Among known tasks of the team, a cycle is reported iff the edited task is reachable from a proposed one. */
  lemma {:induction false} CycleReportedIffReachable(tasks: map<Id, Task>, teamId: Id, ids: seq<Id>, self: Id)
    requires Closed(tasks) && self in tasks && Distinct(ids)
    requires forall i :: 0 <= i < |ids| ==> ids[i] in tasks && tasks[ids[i]].teamId == teamId
    ensures ValidateDependencies(tasks, teamId, ids, Some(self)) == Err(DependencyCycle) <==>
              exists i :: 0 <= i < |ids| && Reaches(tasks, ids[i], self)
  {
    if ids != [] {
      VisitDecides(tasks, teamId, Some(self), ids[0]);
      CycleReportedIffReachable(tasks, teamId, ids[1..], self);
      if exists i :: 0 <= i < |ids| && Reaches(tasks, ids[i], self) {
        var i :| 0 <= i < |ids| && Reaches(tasks, ids[i], self);
        assert i > 0 ==> ids[1..][i - 1] == ids[i];
      }
    }
  }

  // ---------------------------------------------------------------- edits

  /** Same tasks or fewer, with the same dependencies: still acyclic. */
  lemma FewerEdgesAcyclic(before: map<Id, Task>, after: map<Id, Task>)
    requires Acyclic(before)
    requires forall t :: t in after ==> t in before && after[t].dependsOn == before[t].dependsOn
    ensures Acyclic(after)
  {
    forall path | Chain(after, path) && |path| >= 2 ensures path[0] != path[|path| - 1] {
      assert Chain(before, path);
    }
  }

  /** A new task nobody depends on closes no cycle. */
  lemma NewTaskAcyclic(tasks: map<Id, Task>, id: Id, task: Task)
    requires Acyclic(tasks) && Closed(tasks) && id !in tasks
    requires forall i :: 0 <= i < |task.dependsOn| ==> task.dependsOn[i] in tasks
    ensures Acyclic(tasks[id := task])
  {
    var after := tasks[id := task];
    forall path | Chain(after, path) && |path| >= 2 ensures path[0] != path[|path| - 1] {
      forall i | 1 <= i < |path| ensures path[i] != id {
        assert path[i] in after[path[i - 1]].dependsOn;
      }
      if path[0] != id {
        assert Chain(tasks, path);
      }
    }
  }

  /** The part of a chain up to the first visit of `id` uses no edge out of `id`. */
  lemma {:induction false} FirstVisit(after: map<Id, Task>, tasks: map<Id, Task>, id: Id, path: seq<Id>)
    requires Chain(after, path) && path[|path| - 1] == id && id in tasks
    requires after.Keys == tasks.Keys
    requires forall t :: t in tasks && t != id ==> after[t].dependsOn == tasks[t].dependsOn
    ensures Reaches(tasks, path[0], id)
  {
    if path[0] == id {
      assert Leads(tasks, [id], id, id);
    } else {
      FirstVisit(after, tasks, id, path[1..]);
      var rest :| Leads(tasks, rest, path[1], id);
      assert path[1] in tasks[path[0]].dependsOn;
      assert Leads(tasks, [path[0]] + rest, path[0], id);
    }
  }

  /** A closed walk, entered at another of its tasks. */
  lemma RotatedChain(tasks: map<Id, Task>, path: seq<Id>, i: nat)
    requires Chain(tasks, path) && path[0] == path[|path| - 1] && i < |path| - 1
    ensures Chain(tasks, path[i + 1..] + path[1..i + 1])
  {
    var loop := path[i + 1..] + path[1..i + 1];
    var n := |path| - i - 1;
    forall k | 0 <= k < |loop| ensures loop[k] in tasks {
      assert loop[k] == if k < n then path[i + 1 + k] else path[k - n + 1];
    }
    forall k | 0 <= k < |loop| - 1 ensures loop[k + 1] in tasks[loop[k]].dependsOn {
      if k + 1 < n {
        assert loop[k] == path[i + 1 + k] && loop[k + 1] == path[i + 1 + k + 1];
      } else if k + 1 == n {
        assert loop[k] == path[0] && loop[k + 1] == path[0 + 1];
      } else {
        assert loop[k] == path[k - n + 1] && loop[k + 1] == path[k - n + 1 + 1];
      }
    }
  }

  /** New dependencies from which the task is unreachable close no cycle. */
  lemma EditedTaskAcyclic(tasks: map<Id, Task>, id: Id, task: Task)
    requires Acyclic(tasks) && id in tasks
    requires forall i :: 0 <= i < |task.dependsOn| ==> !Reaches(tasks, task.dependsOn[i], id)
    ensures Acyclic(tasks[id := task])
  {
    var after := tasks[id := task];
    forall path | Chain(after, path) && |path| >= 2 ensures path[0] != path[|path| - 1] {
      if path[0] == path[|path| - 1] {
        if i :| 0 <= i < |path| - 1 && path[i] == id {
          // Leave `id` first and return to it last.
          var loop := path[i + 1..] + path[1..i + 1];
          RotatedChain(after, path, i);
          assert loop[|loop| - 1] == id;
          assert loop[0] == path[i + 1] && path[i + 1] in after[path[i]].dependsOn;
          FirstVisit(after, tasks, id, loop);
        } else {
          ChainElsewhere(tasks, id, task, path);
        }
      }
    }
  }

  /** A chain that does not leave an edited task is one before the edit. */
  lemma ChainElsewhere(tasks: map<Id, Task>, id: Id, task: Task, path: seq<Id>)
    requires id in tasks && Chain(tasks[id := task], path)
    requires forall i :: 0 <= i < |path| - 1 ==> path[i] != id
    ensures Chain(tasks, path)
  {
    forall i | 0 <= i < |path| - 1 ensures path[i + 1] in tasks[path[i]].dependsOn {
      assert path[i] != id;
    }
  }
}
