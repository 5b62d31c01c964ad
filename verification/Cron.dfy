/** Cron schedules as seen through the one question the engine asks: the next occurrence after an instant. */
module Cron {
  import opened Types
  import opened Sequences

  /** The next occurrence strictly after an instant, if there is one. */
  type Cron = Time -> Option<Time>

  /** The answers are those of one fixed set of instants: the next one lies later, and asking again from an
      instant before it gives the same answer. */
  ghost predicate Lawful(cron: Cron) {
    && (forall t :: cron(t).Some? ==> t < cron(t).value)
    && (forall t, u :: t < u && cron(t).None? ==> cron(u).None?)
    && (forall t, u :: t < u && cron(t).Some? && u < cron(t).value ==> cron(u) == cron(t))
  }

  predicate Occurs(cron: Cron, t: Time) {
    cron(t - 1) == Some(t)
  }

  ghost predicate OccursBetween(cron: Cron, a: Time, b: Time) {
    exists t :: a < t <= b && Occurs(cron, t)
  }

  /** The next occurrence is an occurrence, and none lies before it. */
  lemma NextIsFirst(cron: Cron, a: Time, t: Time)
    requires Lawful(cron) && a < t
    ensures Occurs(cron, t) ==> cron(a).Some? && cron(a).value <= t
    ensures cron(a) == Some(t) ==> Occurs(cron, t)
  {
  }

  lemma DueIffOccursBetween(cron: Cron, a: Time, b: Time)
    requires Lawful(cron)
    ensures cron(a).Some? && cron(a).value <= b <==> OccursBetween(cron, a, b)
  {
    if cron(a).Some? && cron(a).value <= b {
      NextIsFirst(cron, a, cron(a).value);
    }
    if t :| a < t <= b && Occurs(cron, t) {
      NextIsFirst(cron, a, t);
    }
  }

  /** The occurrences after `a` up to and including `b`, in order. */
  function Occurrences(cron: Cron, a: Time, b: Time): seq<Time>
    requires Lawful(cron)
    decreases b - a
  {
    if cron(a).Some? && cron(a).value <= b then [cron(a).value] + Occurrences(cron, cron(a).value, b) else []
  }

  /** The list holds each occurrence of the half-open interval exactly once, in ascending order. */
  lemma {:induction false} OccurrencesAreExact(cron: Cron, a: Time, b: Time)
    requires Lawful(cron)
    ensures forall t :: t in Occurrences(cron, a, b) <==> a < t <= b && Occurs(cron, t)
    ensures forall i, j :: 0 <= i < j < |Occurrences(cron, a, b)| ==> Occurrences(cron, a, b)[i] < Occurrences(cron, a, b)[j]
    decreases b - a
  {
    DueIffOccursBetween(cron, a, b);
    if cron(a).Some? && cron(a).value <= b {
      var first := cron(a).value;
      NextIsFirst(cron, a, first);
      OccurrencesAreExact(cron, first, b);
      var rest := Occurrences(cron, first, b);
      assert forall i :: 0 <= i < |rest| ==> rest[i] in rest;
      forall t | a < t <= b && Occurs(cron, t)
        ensures t == first || first < t
      {
        NextIsFirst(cron, a, t);
      }
    }
  }

  /** Adjacent intervals compose. */
  lemma {:induction false} OccurrencesCompose(cron: Cron, a: Time, b: Time, c: Time)
    requires Lawful(cron) && a <= b <= c
    ensures Occurrences(cron, a, c) == Occurrences(cron, a, b) + Occurrences(cron, b, c)
    decreases c - a
  {
    if cron(a).Some? && cron(a).value <= b {
      OccurrencesCompose(cron, cron(a).value, b, c);
    } else if a < b {
      assert cron(b) == cron(a) || cron(b).None?;
      assert Occurrences(cron, a, b) == [];
    } else {
      assert Occurrences(cron, a, b) == [];
    }
  }
}
