/** Roll-ups the dashboards compute over the project list in the same way:
    the stages of every project that pass a test, each tagged with its
    project (`flatMap` over `filter`), how many there are, and the rounded
    average of the projects' progress. */
module ProjectRollups {
  import opened Common
  import opened ProjectsSlice

  /** A stage spread into a new object together with its project's name and id. */
  datatype StageOfProject = StageOfProject(stage: Stage, projectName: string, projectId: int)

  /** The tagged entry came from project `p`. */
  predicate FromProject(t: StageOfProject, p: Project)
  {
    t.stage in p.stages && t.projectName == p.name && t.projectId == p.id
  }

  /** The kept stages of one project, tagged with it, in order. */
  function Tagged(p: Project, keep: Stage -> bool): (r: seq<StageOfProject>)
    ensures |r| == |Filter(p.stages, keep)|
    ensures forall k :: 0 <= k < |r| ==> r[k] == StageOfProject(Filter(p.stages, keep)[k], p.name, p.id)
  {
    var kept := Filter(p.stages, keep);
    seq(|kept|, k requires 0 <= k < |kept| => StageOfProject(kept[k], p.name, p.id))
  }

  /** How many stages pass `keep`, over all projects. */
  function StageCount(ps: seq<Project>, keep: Stage -> bool): nat
  {
    if ps == [] then 0 else |Filter(ps[0].stages, keep)| + StageCount(ps[1..], keep)
  }

  /** The number of stages over all projects. */
  function TotalStages(ps: seq<Project>): nat
  {
    if ps == [] then 0 else |ps[0].stages| + TotalStages(ps[1..])
  }

  /** `ps.flatMap(p => p.stages.filter(keep).map(s => ({...s, projectName, projectId})))`. */
  function StagesWhere(ps: seq<Project>, keep: Stage -> bool): (r: seq<StageOfProject>)
    ensures |r| == StageCount(ps, keep)
  {
    if ps == [] then [] else Tagged(ps[0], keep) + StagesWhere(ps[1..], keep)
  }

  /** Every entry is a kept stage of one of the projects, tagged with that project. */
  lemma {:induction false} StagesWhereSound(ps: seq<Project>, keep: Stage -> bool)
    ensures forall k :: 0 <= k < |StagesWhere(ps, keep)| ==>
      keep(StagesWhere(ps, keep)[k].stage)
      && exists i :: 0 <= i < |ps| && FromProject(StagesWhere(ps, keep)[k], ps[i])
  {
    if ps != [] {
      StagesWhereSound(ps[1..], keep);
      var head := Tagged(ps[0], keep);
      var rest := StagesWhere(ps[1..], keep);
      var r := StagesWhere(ps, keep);
      forall k | 0 <= k < |r|
        ensures keep(r[k].stage) && exists i :: 0 <= i < |ps| && FromProject(r[k], ps[i])
      {
        if k < |head| {
          assert r[k] == head[k];
          assert FromProject(r[k], ps[0]);
        } else {
          assert r[k] == rest[k - |head|];
          var i :| 0 <= i < |ps[1..]| && FromProject(rest[k - |head|], ps[1..][i]);
          assert FromProject(r[k], ps[i + 1]);
        }
      }
    }
  }

  /** Every kept stage of every project appears, tagged with its project. */
  lemma {:induction false} StagesWhereComplete(ps: seq<Project>, keep: Stage -> bool, i: nat, j: nat)
    requires i < |ps| && j < |ps[i].stages| && keep(ps[i].stages[j])
    ensures StageOfProject(ps[i].stages[j], ps[i].name, ps[i].id) in StagesWhere(ps, keep)
  {
    var head := Tagged(ps[0], keep);
    var rest := StagesWhere(ps[1..], keep);
    assert StagesWhere(ps, keep) == head + rest;
    if i == 0 {
      var kept := Filter(ps[0].stages, keep);
      assert ps[0].stages[j] in kept;
      var m :| 0 <= m < |kept| && kept[m] == ps[0].stages[j];
      assert head[m] == StageOfProject(ps[0].stages[j], ps[0].name, ps[0].id);
    } else {
      StagesWhereComplete(ps[1..], keep, i - 1, j);
      assert ps[1..][i - 1] == ps[i];
    }
  }

  /** Collecting over two runs of projects is collecting over each and joining: entries stay grouped by project, in project order. */
  lemma {:induction false} StagesWhereAppend(a: seq<Project>, b: seq<Project>, keep: Stage -> bool)
    ensures StagesWhere(a + b, keep) == StagesWhere(a, keep) + StagesWhere(b, keep)
  {
    if a == [] {
      assert a + b == b;
    } else {
      assert (a + b)[0] == a[0];
      assert (a + b)[1..] == a[1..] + b;
      StagesWhereAppend(a[1..], b, keep);
    }
  }

  /** Counting by a test and by its negation covers every stage once. */
  lemma {:induction false} StageCountPartition(ps: seq<Project>, keep: Stage -> bool, drop: Stage -> bool)
    requires forall s :: drop(s) == !keep(s)
    ensures StageCount(ps, keep) + StageCount(ps, drop) == TotalStages(ps)
  {
    if ps != [] {
      FilterPartition(ps[0].stages, keep, drop);
      StageCountPartition(ps[1..], keep, drop);
    }
  }

  /** A weaker test counts at least as many stages. */
  lemma {:induction false} StageCountWeaker(ps: seq<Project>, p: Stage -> bool, q: Stage -> bool)
    requires forall s :: p(s) ==> q(s)
    ensures StageCount(ps, p) <= StageCount(ps, q)
  {
    if ps != [] {
      FilterWeaker(ps[0].stages, p, q);
      StageCountWeaker(ps[1..], p, q);
    }
  }

  // ---------------------------------------------------------------------
  // Average progress
  // ---------------------------------------------------------------------

  function SumProgress(ps: seq<Project>): int
  {
    if ps == [] then 0 else ps[0].progress + SumProgress(ps[1..])
  }

  predicate ProgressInRange(ps: seq<Project>)
  {
    forall k :: 0 <= k < |ps| ==> 0 <= ps[k].progress <= 100
  }

  /** The "Average Progress" card: `Math.round(sum / count)`, or 0 when there
      are no projects. With every progress a percentage, so is the average. */
  function AverageProgress(ps: seq<Project>): (r: int)
    ensures ps == [] ==> r == 0
    ensures ProgressInRange(ps) ==> 0 <= r <= 100
  {
    if |ps| > 0 then
      var n := |ps|;
      if ProgressInRange(ps) then
        SumProgressBounds(ps);
        RoundRatioMonotone(0, SumProgress(ps), n);
        RoundRatioMonotone(SumProgress(ps), 100 * n, n);
        RoundRatioExact(0, n);
        RoundRatioExact(100, n);
        RoundRatio(SumProgress(ps), n)
      else
        RoundRatio(SumProgress(ps), n)
    else
      0
  }

  lemma {:induction false} SumProgressBounds(ps: seq<Project>)
    requires ProgressInRange(ps)
    ensures 0 <= SumProgress(ps) <= 100 * |ps|
  {
    if ps != [] {
      SumProgressBounds(ps[1..]);
    }
  }

  /** When every project shows the same progress, the average is that value. */
  lemma {:induction false} AverageOfEqual(ps: seq<Project>, v: int)
    requires ps != []
    requires forall k :: 0 <= k < |ps| ==> ps[k].progress == v
    ensures AverageProgress(ps) == v
  {
    SumOfEqual(ps, v);
    RoundRatioExact(v, |ps|);
  }

  lemma {:induction false} SumOfEqual(ps: seq<Project>, v: int)
    requires forall k :: 0 <= k < |ps| ==> ps[k].progress == v
    ensures SumProgress(ps) == v * |ps|
  {
    if ps != [] {
      SumOfEqual(ps[1..], v);
    }
  }
}
