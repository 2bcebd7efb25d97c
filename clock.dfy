/**
 * A virtual clock for the pages' `setTimeout` choreography: a timeline is a
 * list of effects, each stamped with the millisecond at which it happens,
 * counted from the moment the sequence was triggered.
 */
module Clock {

  datatype Timed<A> = Timed(at: nat, effect: A)

  /** Effects are listed in the order in which they happen. */
  predicate Chronological<A>(events: seq<Timed<A>>) {
    forall i, j :: 0 <= i < j < |events| ==> events[i].at <= events[j].at
  }

  /** Every effect of the timeline happens between `lo` and `hi`. */
  predicate Within<A>(events: seq<Timed<A>>, lo: nat, hi: nat) {
    forall k :: 0 <= k < |events| ==> lo <= events[k].at <= hi
  }

  /** Two timelines in order, the first ending no later than the second begins, make one in order. */
  lemma ChronologicalConcat<A>(a: seq<Timed<A>>, b: seq<Timed<A>>, lo: nat, mid: nat, hi: nat)
    requires Chronological(a) && Chronological(b)
    requires Within(a, lo, mid) && Within(b, mid, hi)
    ensures Chronological(a + b)
  {
    forall i, j | 0 <= i < j < |a + b|
      ensures (a + b)[i].at <= (a + b)[j].at
    {
      if j < |a| {
        assert (a + b)[i] == a[i] && (a + b)[j] == a[j];
      } else if i >= |a| {
        assert (a + b)[i] == b[i - |a|] && (a + b)[j] == b[j - |a|];
      } else {
        assert (a + b)[i] == a[i] && (a + b)[j] == b[j - |a|];
      }
    }
  }

  /** Two timelines within the same bounds joined stay within them. */
  lemma WithinConcat<A>(a: seq<Timed<A>>, b: seq<Timed<A>>, lo: nat, hi: nat)
    requires Within(a, lo, hi) && Within(b, lo, hi)
    ensures Within(a + b, lo, hi)
  {
    forall k | 0 <= k < |a + b|
      ensures lo <= (a + b)[k].at <= hi
    {
      if k < |a| {
        assert (a + b)[k] == a[k];
      } else {
        assert (a + b)[k] == b[k - |a|];
      }
    }
  }

  /** The effects still due strictly after time `t`. */
  function DueAfter<A>(events: seq<Timed<A>>, t: nat): (r: seq<Timed<A>>)
    ensures |r| <= |events|
    ensures forall i :: 0 <= i < |r| ==> r[i] in events && r[i].at > t
    ensures forall i :: 0 <= i < |events| && events[i].at > t ==> events[i] in r
  {
    if events == [] then []
    else (if events[0].at > t then [events[0]] else []) + DueAfter(events[1..], t)
  }

  /** The effects that have happened by time `t`, in order. */
  function DueBy<A>(events: seq<Timed<A>>, t: nat): seq<Timed<A>>
  {
    if events == [] then []
    else (if events[0].at <= t then [events[0]] else []) + DueBy(events[1..], t)
  }

  /** What has happened by `t` is exactly the effects stamped no later than `t`. */
  lemma {:induction false} DueBySpec<A>(events: seq<Timed<A>>, t: nat)
    ensures |DueBy(events, t)| <= |events|
    ensures forall e :: e in DueBy(events, t) <==> e in events && e.at <= t
    decreases |events|
  {
    if events != [] {
      DueBySpec(events[1..], t);
      assert events == [events[0]] + events[1..];
    }
  }

  /** When exactly the first `k` effects are due by `t`, those are what has happened. */
  lemma {:induction false} DueByPrefix<A>(events: seq<Timed<A>>, t: nat, k: nat)
    requires k <= |events|
    requires forall i :: 0 <= i < k ==> events[i].at <= t
    requires forall i :: k <= i < |events| ==> events[i].at > t
    ensures DueBy(events, t) == events[..k]
    decreases |events|
  {
    if events != [] {
      var rest, j := events[1..], if k == 0 then 0 else k - 1;
      forall i | 0 <= i < j
        ensures rest[i].at <= t
      {
        assert rest[i] == events[i + 1];
      }
      forall i | j <= i < |rest|
        ensures rest[i].at > t
      {
        assert rest[i] == events[i + 1];
      }
      DueByPrefix(rest, t, j);
      if k != 0 {
        assert events[..k] == [events[0]] + rest[..j];
      }
    }
  }
}
