// Resend deadlines and the clock they are compared with, for both crates.
module Deadlines {
  import opened Protocol

  const RESEND_TIMEOUT := 5000 // milliseconds

  datatype Deadline = Deadline(at: nat, id: MsgId)

  // `readings` counts how often the clock has been read; reading k returns clock(k).
  type Clock = nat -> nat

  ghost predicate Monotone(clock: Clock) {
    forall i: nat, j: nat | i <= j :: clock(i) <= clock(j)
  }

  // The entries due at `now`.
  function Due(deadlines: seq<Deadline>, now: nat): nat {
    if deadlines == [] then 0
    else Due(deadlines[..|deadlines| - 1], now) + (if deadlines[|deadlines| - 1].at <= now then 1 else 0)
  }

  lemma DueSnoc(deadlines: seq<Deadline>, d: Deadline, now: nat)
    ensures Due(deadlines + [d], now) == Due(deadlines, now) + (if d.at <= now then 1 else 0)
  {
    assert (deadlines + [d])[..|deadlines|] == deadlines;
  }

  lemma {:induction false} DueCons(deadlines: seq<Deadline>, now: nat)
    requires deadlines != []
    ensures Due(deadlines, now) == Due(deadlines[1..], now) + (if deadlines[0].at <= now then 1 else 0)
    decreases |deadlines|
  {
    if |deadlines| > 1 {
      var init := deadlines[..|deadlines| - 1];
      DueCons(init, now);
      assert deadlines[1..][..|deadlines| - 2] == init[1..];
      assert deadlines == init + [deadlines[|deadlines| - 1]];
    }
  }

  // From reading `readings` on, the clock is not behind `now`.
  ghost predicate NotBehind(clock: Clock, readings: nat, now: nat) {
    forall k: nat | k >= readings :: clock(k) >= now
  }

  predicate Sorted(deadlines: seq<Deadline>) {
    forall i, j | 0 <= i < j < |deadlines| :: deadlines[i].at <= deadlines[j].at
  }

  predicate DistinctIds(deadlines: seq<Deadline>) {
    forall i, j | 0 <= i < j < |deadlines| :: deadlines[i].id != deadlines[j].id
  }
}
