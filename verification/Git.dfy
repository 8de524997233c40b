/** Commits and their ancestry. */
module Git {
  /** A commit id; "" is what a failed `rev-parse` reads as. */
  type Commit = string

  /** `reaches(a, b)`: `a` is `b` or one of its ancestors. */
  datatype Dag = Dag(reaches: (Commit, Commit) -> bool)

  ghost predicate Acyclic(dag: Dag) {
    && (forall a :: dag.reaches(a, a))
    && (forall a, b {:trigger dag.reaches(a, b), dag.reaches(b, a)} :: dag.reaches(a, b) && dag.reaches(b, a) ==> a == b)
    && (forall a, b, c {:trigger dag.reaches(a, b), dag.reaches(b, c)} ::
          dag.reaches(a, b) && dag.reaches(b, c) ==> dag.reaches(a, c))
  }
}
