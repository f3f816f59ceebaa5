/** Half-open appointment intervals `[from, to)` and the overlap test of the availability check. */
module Overlap {
  /** Times are minutes; `from < to` is expected of callers but never validated. */
  datatype Interval = Interval(from: int, to: int)

  /** The comparison at the heart of the availability check: both bounds are strict. */
  predicate Overlaps(requested: Interval, existing: Interval)
  {
    requested.from < existing.to && requested.to > existing.from
  }

  /** A requested slot is available when no stored appointment overlaps it. */
  predicate Available(requested: Interval, existing: seq<Interval>)
  {
    forall i :: 0 <= i < |existing| ==> !Overlaps(requested, existing[i])
  }

  /** No two stored appointments overlap. */
  predicate Disjoint(ivs: seq<Interval>)
  {
    forall i, j :: 0 <= i < |ivs| && 0 <= j < |ivs| && i != j ==> !Overlaps(ivs[i], ivs[j])
  }

  lemma OverlapsSymmetric(a: Interval, b: Interval)
    ensures Overlaps(a, b) <==> Overlaps(b, a)
  {
  }

  /** Half-open: a slot touching an appointment at either end does not overlap it. */
  lemma TouchingDoesNotOverlap(requested: Interval, existing: Interval)
    requires requested.from == existing.to || requested.to == existing.from
    ensures !Overlaps(requested, existing)
  {
  }

  /** With no stored appointments every slot is available. */
  lemma AvailableWhenEmpty(requested: Interval)
    ensures Available(requested, [])
  {
  }

  /** Available exactly when every stored appointment ends by the start or starts at or after the end. */
  lemma AvailableIff(requested: Interval, existing: seq<Interval>)
    ensures Available(requested, existing) <==>
      forall e :: e in existing ==> e.to <= requested.from || e.from >= requested.to
  {
    if Available(requested, existing) {
      forall e | e in existing
        ensures e.to <= requested.from || e.from >= requested.to
      {
        var i :| 0 <= i < |existing| && existing[i] == e;
      }
    }
  }

  /** Availability against a concatenation is availability against both parts. */
  lemma AvailableConcat(requested: Interval, s: seq<Interval>, t: seq<Interval>)
    ensures Available(requested, s + t) <==> Available(requested, s) && Available(requested, t)
  {
    if Available(requested, s) && Available(requested, t) {
      forall i | 0 <= i < |s + t|
        ensures !Overlaps(requested, (s + t)[i])
      {
        if i >= |s| {
          assert (s + t)[i] == t[i - |s|];
        }
      }
    }
    if Available(requested, s + t) {
      forall i | 0 <= i < |s|
        ensures !Overlaps(requested, s[i])
      {
        assert (s + t)[i] == s[i];
      }
      forall i | 0 <= i < |t|
        ensures !Overlaps(requested, t[i])
      {
        assert (s + t)[|s| + i] == t[i];
      }
    }
  }

  /** The answer does not depend on the order of the stored appointments. */
  lemma AvailableOrderIndependent(requested: Interval, s: seq<Interval>, t: seq<Interval>)
    requires multiset(s) == multiset(t)
    ensures Available(requested, s) <==> Available(requested, t)
  {
    AvailableIff(requested, s);
    AvailableIff(requested, t);
    forall e
      ensures e in s <==> e in t
    {
      assert e in s <==> e in multiset(s);
      assert e in t <==> e in multiset(t);
    }
  }

  /** Booking a slot the check found available keeps the stored appointments pairwise disjoint. */
  lemma CheckedBookingKeepsDisjoint(ivs: seq<Interval>, slot: Interval)
    requires Disjoint(ivs)
    requires Available(slot, ivs)
    ensures Disjoint(ivs + [slot])
  {
    var all := ivs + [slot];
    forall i, j | 0 <= i < |all| && 0 <= j < |all| && i != j
      ensures !Overlaps(all[i], all[j])
    {
      if i == |ivs| {
        assert !Overlaps(slot, ivs[j]);
      } else if j == |ivs| {
        assert !Overlaps(slot, ivs[i]);
        OverlapsSymmetric(slot, ivs[i]);
      } else {
        assert all[i] == ivs[i] && all[j] == ivs[j];
      }
    }
  }

  /** Booking a slot that overlaps a stored appointment leaves two overlapping appointments. */
  lemma UncheckedBookingBreaksDisjoint(ivs: seq<Interval>, slot: Interval)
    requires !Available(slot, ivs)
    ensures !Disjoint(ivs + [slot])
  {
    var i :| 0 <= i < |ivs| && Overlaps(slot, ivs[i]);
    var all := ivs + [slot];
    assert all[|ivs|] == slot && all[i] == ivs[i];
    assert Overlaps(all[|ivs|], all[i]);
  }
}
