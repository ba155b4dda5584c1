/** The artifact catalogue: parent guards that must keep a forest, and their recursive ancestor query. */
module ArtifactForest {
  import opened Results

  type ArtifactId = nat

  datatype Artifact = Artifact(project: nat, epic: nat, parent: Option<ArtifactId>)

  type Rows = map<ArtifactId, Artifact>

  // ---- ancestors ---------------------------------------------------------------------------

  /** n steps up the parent column; a missing row or a root ends the climb. */
  function Climb(f: Rows, a: ArtifactId, n: nat): Option<ArtifactId>
    decreases n
  {
    if n == 0 then Some(a)
    else if a in f && f[a].parent.Some? then Climb(f, f[a].parent.value, n - 1)
    else None
  }

  predicate ReachesIn(f: Rows, a: ArtifactId, b: ArtifactId, n: nat) {
    Climb(f, a, n) == Some(b)
  }

  /** `b` is `a` or one of its ancestors. */
  ghost predicate Reaches(f: Rows, a: ArtifactId, b: ArtifactId) {
    exists n: nat :: ReachesIn(f, a, b, n)
  }

  /** No artifact is its own proper ancestor. */
  ghost predicate Acyclic(f: Rows) {
    forall a: ArtifactId, n: nat :: n > 0 ==> !ReachesIn(f, a, a, n)
  }

  lemma {:induction false} ClimbOn(f: Rows, a: ArtifactId, m: nat, n: nat)
    requires Climb(f, a, m).Some?
    ensures Climb(f, a, m + n) == Climb(f, Climb(f, a, m).value, n)
    decreases m
  {
    if m > 0 {
      ClimbOn(f, f[a].parent.value, m - 1, n);
    }
  }

  lemma {:induction false} ClimbPrefix(f: Rows, a: ArtifactId, m: nat, n: nat)
    requires m <= n && Climb(f, a, n).Some?
    ensures Climb(f, a, m).Some?
    decreases m
  {
    if m > 0 {
      ClimbPrefix(f, f[a].parent.value, m - 1, n - 1);
    }
  }

  /** The rows a recursive query can ever produce. */
  function Universe(f: Rows, start: ArtifactId): set<ArtifactId> {
    {start} + (set a | a in f && f[a].parent.Some? :: f[a].parent.value)
  }

  /** `WITH RECURSIVE ... UNION`: rows already produced are not queued again, so it ends and finds every ancestor. */
  method AncestorQuery(f: Rows, start: ArtifactId) returns (found: set<ArtifactId>)
    ensures forall b: ArtifactId :: b in found <==> Reaches(f, start, b)
  {
    found := {start};
    var queue := [start];
    assert ReachesIn(f, start, start, 0);
    while queue != []
      invariant start in found && found <= Universe(f, start)
      invariant forall x <- queue :: x in found
      invariant forall x <- found :: Reaches(f, start, x)
      invariant forall x <- found :: x in queue || StepClosed(f, x, found)
      decreases |Universe(f, start) - found|, |queue|
    {
      var x := queue[0];
      ghost var before, produced := queue, found;
      queue := queue[1..];
      if x in f && f[x].parent.Some? {
        var up := f[x].parent.value;
        OneMoreStep(f, start, x, up);
        if up !in found {
          found := found + {up};
          queue := queue + [up];
          Shrinks(Universe(f, start), produced, up);
        }
      }
      forall y <- found ensures y in queue || StepClosed(f, y, found) {
        if y in produced && y != x && y in before {
          assert y in queue;
        }
      }
    }
    forall b: ArtifactId | Reaches(f, start, b) ensures b in found {
      var n: nat :| ReachesIn(f, start, b, n);
      ClosedUnderClimb(f, found, start, n);
    }
  }

  /** The parent of `x`, if it has one, is among the rows produced. */
  predicate StepClosed(f: Rows, x: ArtifactId, found: set<ArtifactId>) {
    x in f && f[x].parent.Some? ==> f[x].parent.value in found
  }

  lemma OneMoreStep(f: Rows, start: ArtifactId, x: ArtifactId, up: ArtifactId)
    requires Reaches(f, start, x) && x in f && f[x].parent == Some(up)
    ensures Reaches(f, start, up)
  {
    var n: nat :| ReachesIn(f, start, x, n);
    ClimbOn(f, start, n, 1);
    assert Climb(f, x, 1) == Some(up);
    assert ReachesIn(f, start, up, n + 1);
  }

  lemma {:induction false} ClosedUnderClimb(f: Rows, found: set<ArtifactId>, a: ArtifactId, n: nat)
    requires a in found && forall x <- found :: StepClosed(f, x, found)
    ensures Climb(f, a, n).Some? ==> Climb(f, a, n).value in found
    decreases n
  {
    if n > 0 && a in f && f[a].parent.Some? {
      assert StepClosed(f, a, found);
      ClosedUnderClimb(f, found, f[a].parent.value, n - 1);
    }
  }

  lemma Shrinks(universe: set<ArtifactId>, found: set<ArtifactId>, x: ArtifactId)
    requires x in universe && x !in found
    ensures |universe - (found + {x})| < |universe - found|
  {
    assert universe - (found + {x}) == (universe - found) - {x};
  }

  // ---- the guarded table -----------------------------------------------------------------------

  datatype Op =
    | Insert(id: ArtifactId, artifact: Artifact)
    | Update(id: ArtifactId, artifact: Artifact)
    | Delete(ids: set<ArtifactId>)

  predicate ParentInScope(f: Rows, artifact: Artifact)
    requires artifact.parent.Some?
  {
    var p := artifact.parent.value;
    p in f && f[p].project == artifact.project && f[p].epic == artifact.epic
  }

  predicate InsertGuard(f: Rows, artifact: Artifact) {
    artifact.parent.Some? ==> ParentInScope(f, artifact)
  }

  ghost predicate UpdateGuard(f: Rows, id: ArtifactId, artifact: Artifact) {
    artifact.parent.Some? ==>
      artifact.parent.value != id && ParentInScope(f, artifact) && !Reaches(f, artifact.parent.value, id)
  }

  /** Deleted rows go; ON DELETE SET NULL orphans what pointed at them. */
  function Remove(f: Rows, ids: set<ArtifactId>): Rows {
    map a | a in f && a !in ids :: if f[a].parent.Some? && f[a].parent.value in ids then f[a].(parent := None) else f[a]
  }

  ghost function Apply(f: Rows, op: Op): Rows {
    match op
    case Insert(id, artifact) => if id !in f && InsertGuard(f, artifact) then f[id := artifact] else f
    case Update(id, artifact) => if id in f && UpdateGuard(f, id, artifact) then f[id := artifact] else f
    case Delete(ids) => Remove(f, ids)
  }

  class ArtifactTable {
    var rows: Rows

    constructor ()
      ensures rows == map[]
    {
      rows := map[];
    }

    method InsertRow(id: ArtifactId, artifact: Artifact) returns (accepted: bool)
      modifies this
      ensures rows == Apply(old(rows), Insert(id, artifact))
      ensures accepted <==> id !in old(rows) && InsertGuard(old(rows), artifact)
    {
      accepted := id !in rows && InsertGuard(rows, artifact);
      if accepted {
        rows := rows[id := artifact];
      }
    }

    method UpdateRow(id: ArtifactId, artifact: Artifact) returns (accepted: bool)
      modifies this
      ensures rows == Apply(old(rows), Update(id, artifact))
      ensures accepted <==> id in old(rows) && UpdateGuard(old(rows), id, artifact)
    {
      if id !in rows {
        return false;
      }
      if artifact.parent.Some? {
        var p := artifact.parent.value;
        if p == id || !ParentInScope(rows, artifact) {
          return false;
        }
        var ancestors := AncestorQuery(rows, p);
        if id in ancestors {
          return false;
        }
      }
      rows := rows[id := artifact];
      accepted := true;
    }

    method DeleteRows(ids: set<ArtifactId>)
      modifies this
      ensures rows == Apply(old(rows), Delete(ids))
    {
      rows := Remove(rows, ids);
    }
  }

  // ---- the forest over every run --------------------------------------------------------------------

  /** The foreign key: a parent reference names an existing row. */
  predicate ParentsExist(f: Rows) {
    forall a <- f :: f[a].parent.Some? ==> f[a].parent.value in f
  }

  ghost predicate Forest(f: Rows) {
    ParentsExist(f) && Acyclic(f)
  }

  /** Until the climb meets the row that changed, both tables climb alike. */
  lemma {:induction false} ClimbAgrees(f: Rows, g: Rows, id: ArtifactId, a: ArtifactId, n: nat)
    requires forall x: ArtifactId :: x != id ==> (x in f <==> x in g) && (x in f ==> f[x].parent == g[x].parent)
    requires forall m: nat | m < n :: !ReachesIn(g, a, id, m)
    ensures Climb(f, a, n) == Climb(g, a, n)
    ensures forall b: ArtifactId :: ReachesIn(g, a, b, n) == ReachesIn(f, a, b, n)
    decreases n
  {
    if n > 0 {
      assert !ReachesIn(g, a, id, 0);
      if a in g && g[a].parent.Some? {
        var up := g[a].parent.value;
        forall m: nat | m < n - 1 ensures !ReachesIn(g, up, id, m) {
          assert !ReachesIn(g, a, id, m + 1);
        }
        ClimbAgrees(f, g, id, up, n - 1);
      }
    }
  }

  /** The first time a climb meets `id`. */
  lemma {:induction false} FirstMeeting(g: Rows, a: ArtifactId, id: ArtifactId, n: nat) returns (m: nat)
    requires ReachesIn(g, a, id, n)
    ensures m <= n && ReachesIn(g, a, id, m) && forall k: nat | k < m :: !ReachesIn(g, a, id, k)
    decreases n
  {
    if k: nat :| k < n && ReachesIn(g, a, id, k) {
      m := FirstMeeting(g, a, id, k);
    } else {
      m := n;
    }
  }

  /** Giving `id` a parent closes a cycle exactly when `id` is already above that parent. */
  lemma ReparentIsAcyclicIff(f: Rows, id: ArtifactId, artifact: Artifact)
    requires Acyclic(f)
    ensures Acyclic(f[id := artifact]) <==> artifact.parent.None? || !Reaches(f, artifact.parent.value, id)
  {
    var g := f[id := artifact];
    if artifact.parent.Some? && Reaches(f, artifact.parent.value, id) {
      var p := artifact.parent.value;
      var n: nat :| ReachesIn(f, p, id, n);
      var m := FirstMeeting(f, p, id, n);
      ClimbAgrees(g, f, id, p, m);
      assert ReachesIn(g, id, id, m + 1);
    } else {
      forall a: ArtifactId, n: nat | n > 0 ensures !ReachesIn(g, a, a, n) {
        if ReachesIn(g, a, a, n) {
          CycleMeets(f, id, artifact, a, n);
        }
      }
    }
  }

  /** A cycle after the change runs through the changed row, from its new parent back to it. */
  lemma CycleMeets(f: Rows, id: ArtifactId, artifact: Artifact, a: ArtifactId, n: nat)
    requires Acyclic(f) && n > 0 && ReachesIn(f[id := artifact], a, a, n)
    ensures artifact.parent.Some? && Reaches(f, artifact.parent.value, id)
  {
    var g := f[id := artifact];
    if forall m: nat | m < n :: !ReachesIn(g, a, id, m) {
      ClimbAgrees(f, g, id, a, n);
    } else {
      var m: nat :| m < n && ReachesIn(g, a, id, m);
      Rotate(g, a, id, m, n);
      ClimbPrefix(g, id, 1, n);
      var p := artifact.parent.value;
      ClimbOn(g, id, 1, n - 1);
      assert ReachesIn(g, p, id, n - 1);
      var k := FirstMeeting(g, p, id, n - 1);
      ClimbAgrees(f, g, id, p, k);
      assert ReachesIn(f, p, id, k);
    }
  }

  /** A cycle can be entered at any row on it. */
  lemma Rotate(g: Rows, a: ArtifactId, b: ArtifactId, m: nat, n: nat)
    requires m <= n && ReachesIn(g, a, a, n) && ReachesIn(g, a, b, m)
    ensures ReachesIn(g, b, b, n)
  {
    ClimbOn(g, a, m, n - m);
    assert ReachesIn(g, b, a, n - m);
    ClimbOn(g, b, n - m, m);
  }

  lemma {:induction false} RemovedClimb(f: Rows, ids: set<ArtifactId>, a: ArtifactId, n: nat)
    requires Climb(Remove(f, ids), a, n).Some?
    ensures Climb(f, a, n) == Climb(Remove(f, ids), a, n)
    decreases n
  {
    if n > 0 {
      RemovedClimb(f, ids, Remove(f, ids)[a].parent.value, n - 1);
    }
  }

  lemma ApplyKeepsForest(f: Rows, op: Op)
    requires Forest(f)
    ensures Forest(Apply(f, op))
  {
    match op
    case Insert(id, artifact) =>
      if id !in f && InsertGuard(f, artifact) {
        ReparentIsAcyclicIff(f, id, artifact);
        if artifact.parent.Some? && Reaches(f, artifact.parent.value, id) {
          var n: nat :| ReachesIn(f, artifact.parent.value, id, n);
          StaysInside(f, artifact.parent.value, n);
        }
      }
    case Update(id, artifact) =>
      if id in f && UpdateGuard(f, id, artifact) {
        ReparentIsAcyclicIff(f, id, artifact);
      }
    case Delete(ids) =>
      forall a: ArtifactId, n: nat | n > 0 ensures !ReachesIn(Remove(f, ids), a, a, n) {
        if ReachesIn(Remove(f, ids), a, a, n) {
          RemovedClimb(f, ids, a, n);
          assert ReachesIn(f, a, a, n);
        }
      }
  }

  lemma {:induction false} StaysInside(f: Rows, a: ArtifactId, n: nat)
    requires ParentsExist(f) && a in f
    ensures Climb(f, a, n).Some? ==> Climb(f, a, n).value in f
    decreases n
  {
    if n > 0 && f[a].parent.Some? {
      StaysInside(f, f[a].parent.value, n - 1);
    }
  }

  ghost function ApplyAll(f: Rows, ops: seq<Op>): Rows
    decreases |ops|
  {
    if ops == [] then f else ApplyAll(Apply(f, ops[0]), ops[1..])
  }

  /** Over every sequence of inserts, updates and deletes the parent graph stays acyclic, with every parent present. */
  lemma {:induction false} ForestOverEveryRun(f: Rows, ops: seq<Op>)
    requires Forest(f)
    ensures Forest(ApplyAll(f, ops))
    decreases |ops|
  {
    if ops != [] {
      ApplyKeepsForest(f, ops[0]);
      ForestOverEveryRun(Apply(f, ops[0]), ops[1..]);
    }
  }

  lemma EmptyIsForest()
    ensures Forest(map[])
  {
    forall a: ArtifactId, n: nat | n > 0 ensures !ReachesIn(map[], a, a, n) {
      assert Climb(map[], a, n) == None;
    }
  }

  /** From an empty catalogue on, whatever is inserted, updated and deleted. */
  lemma ForestFromEmpty(ops: seq<Op>)
    ensures Forest(ApplyAll(map[], ops))
  {
    EmptyIsForest();
    ForestOverEveryRun(map[], ops);
  }

  /** A root, or a child of a row of its own project and epic. */
  predicate AtHome(f: Rows, artifact: Artifact) {
    match artifact.parent
    case None => true
    case Some(p) => p in f.Keys && (f[p].project, f[p].epic) == (artifact.project, artifact.epic)
  }

  /** An insert is accepted exactly under a new id for a row at home. */
  lemma InsertIsExact(f: Rows, id: ArtifactId, artifact: Artifact)
    ensures Apply(f, Insert(id, artifact)) == if id !in f && AtHome(f, artifact) then f[id := artifact] else f
  {
  }

  /** The update guard is exact: on a forest it refuses nothing but a parent out of scope or a cycle. */
  lemma UpdateGuardIsExact(f: Rows, id: ArtifactId, artifact: Artifact)
    requires Forest(f) && id in f
    ensures UpdateGuard(f, id, artifact) <==> AtHome(f, artifact) && Acyclic(f[id := artifact])
  {
    ReparentIsAcyclicIff(f, id, artifact);
    if artifact.parent == Some(id) {
      assert ReachesIn(f, id, id, 0);
    }
  }

  // ---- the scope rule ----------------------------------------------------------------------------------

  predicate SameScope(f: Rows) {
    forall a <- f :: f[a].parent.Some? ==> ParentInScope(f, f[a])
  }

  /** Inserts and deletes keep children in their parent's scope. */
  lemma InsertAndDeleteKeepScope(f: Rows, op: Op)
    requires SameScope(f) && ParentsExist(f) && !op.Update?
    ensures SameScope(Apply(f, op))
  {
    var n := Apply(f, op);
    forall a <- n | n[a].parent.Some? ensures ParentInScope(n, n[a]) {
      if op.Insert? && a in f {
        assert ParentInScope(f, f[a]);
      }
    }
  }

  /** An accepted update keeps the rule exactly when every child of the row already lives in its new scope. */
  lemma UpdateKeepsScopeIff(f: Rows, id: ArtifactId, artifact: Artifact)
    requires SameScope(f) && id in f && UpdateGuard(f, id, artifact)
    ensures SameScope(Apply(f, Update(id, artifact))) <==>
      forall c <- f :: c != id && f[c].parent == Some(id) ==> f[c].project == artifact.project && f[c].epic == artifact.epic
  {
    var n := f[id := artifact];
    if forall c <- f :: c != id && f[c].parent == Some(id) ==> f[c].project == artifact.project && f[c].epic == artifact.epic {
      forall a <- n | n[a].parent.Some? ensures ParentInScope(n, n[a]) {
        if a != id {
          assert ParentInScope(f, f[a]);
        }
      }
    } else {
      var c :| c in f && c != id && f[c].parent == Some(id) && (f[c].project != artifact.project || f[c].epic != artifact.epic);
      assert n[c] == f[c] && !ParentInScope(n, n[c]);
    }
  }

  /** Moving a root that has a child passes the guard and leaves the child in the old project. */
  lemma MovedRootBreaksScope()
    ensures
      var f: Rows := map[1 := Artifact(1, 1, None), 2 := Artifact(1, 1, Some(1))];
      var move := Update(1, Artifact(2, 1, None));
      SameScope(f) && ParentsExist(f) && UpdateGuard(f, 1, Artifact(2, 1, None)) && !SameScope(Apply(f, move))
  {
    var f: Rows := map[1 := Artifact(1, 1, None), 2 := Artifact(1, 1, Some(1))];
    var n := Apply(f, Update(1, Artifact(2, 1, None)));
    assert n[2].parent == Some(1) && n[1].project == 2;
    assert !ParentInScope(n, n[2]);
  }
}
