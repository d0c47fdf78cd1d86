/** The two project counts shown on the analytics dashboard
    (frontend/src/components/Chart.jsx): the number of projects whose status is
    exactly "Active" and the number whose status is exactly "Completed". */
module ProjectCounts {

  /** A project record, reduced to its name and the status string the counts compare. */
  datatype Project = Project(name: string, status: string)

  const Active: string := "Active"
  const Completed: string := "Completed"

  /** The projects whose status equals `status` exactly, in their original order,
      as Array.prototype.filter keeps them. */
  function WithStatus(projects: seq<Project>, status: string): (kept: seq<Project>)
    ensures |kept| <= |projects|
    ensures forall p :: p in kept ==> p in projects && p.status == status
    ensures forall p :: p in projects && p.status == status ==> p in kept
  {
    if projects == [] then []
    else if projects[0].status == status then [projects[0]] + WithStatus(projects[1..], status)
    else WithStatus(projects[1..], status)
  }

  /** The status of every project, in order. */
  function Statuses(projects: seq<Project>): seq<string>
  {
    seq(|projects|, i requires 0 <= i < |projects| => projects[i].status)
  }

  /** The length of the filtered list is the number of occurrences of `status`
      among the projects' statuses. */
  lemma {:induction false} CountIsOccurrences(projects: seq<Project>, status: string)
    ensures |WithStatus(projects, status)| == multiset(Statuses(projects))[status]
  {
    if projects != [] {
      CountIsOccurrences(projects[1..], status);
      assert Statuses(projects) == [projects[0].status] + Statuses(projects[1..]);
    }
  }

  /** Number of projects whose status is exactly "Active". */
  function ActiveCount(projects: seq<Project>): (n: nat)
    ensures n <= |projects|
    ensures n == multiset(Statuses(projects))[Active]
  {
    CountIsOccurrences(projects, Active);
    |WithStatus(projects, Active)|
  }

  /** Number of projects whose status is exactly "Completed". */
  function CompletedCount(projects: seq<Project>): (n: nat)
    ensures n <= |projects|
    ensures n == multiset(Statuses(projects))[Completed]
  {
    CountIsOccurrences(projects, Completed);
    |WithStatus(projects, Completed)|
  }

  /** No project is counted under two different statuses. */
  lemma {:induction false} DistinctStatusesDisjoint(projects: seq<Project>, a: string, b: string)
    requires a != b
    ensures |WithStatus(projects, a)| + |WithStatus(projects, b)| <= |projects|
  {
    if projects != [] {
      DistinctStatusesDisjoint(projects[1..], a, b);
    }
  }

  /** The active and completed counts together never exceed the number of projects. */
  lemma CountsBounded(projects: seq<Project>)
    ensures ActiveCount(projects) + CompletedCount(projects) <= |projects|
  {
    DistinctStatusesDisjoint(projects, Active, Completed);
  }
}
