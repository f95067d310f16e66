/** The four score dimensions every evaluation row and every aggregate
    carries, always under the keys "correctness", "format_adherence",
    "clarity" and "verbosity" (in that insertion order). */
module Metrics {

  datatype Scores = Scores(correctness: real, formatAdherence: real, clarity: real, verbosity: real)
  {
    /** `scores.values()`, in the dict's key order. */
    function Values(): (vs: seq<real>)
      ensures |vs| == 4
    {
      [correctness, formatAdherence, clarity, verbosity]
    }

    /** Every dimension lies in [0, 1]. */
    predicate InUnitRange() {
      forall i :: 0 <= i < 4 ==> 0.0 <= Values()[i] <= 1.0
    }

    function Plus(other: Scores): Scores {
      Scores(correctness + other.correctness, formatAdherence + other.formatAdherence,
             clarity + other.clarity, verbosity + other.verbosity)
    }

    /** `{k: self[k] - other[k] for k in other}`: the per-metric deltas. */
    function Minus(other: Scores): Scores {
      Scores(correctness - other.correctness, formatAdherence - other.formatAdherence,
             clarity - other.clarity, verbosity - other.verbosity)
    }

    /** `{k: v / n for k, v in self.items()}`. */
    function DividedBy(n: nat): Scores
      requires n > 0
    {
      Scores(correctness / n as real, formatAdherence / n as real,
             clarity / n as real, verbosity / n as real)
    }
  }

  /** The all-zero dict every aggregation starts from. */
  const Zero := Scores(0.0, 0.0, 0.0, 0.0)
}
