/** Small shared vocabulary: Python's `None`-or-value, and "the first index that
    answered yes" over the bounded lists and attempt counters the tool scans
    (candidate URLs, dialog handlers, dialog buttons, click attempts). */
module Common {

  datatype Option<+T> = None | Some(value: T)

  /** The first index in `from..n` at which `p` holds. */
  function FirstHit(p: nat -> bool, n: nat, from: nat := 0): (r: Option<nat>)
    decreases n - from
    ensures r.Some? ==> from <= r.value < n && p(r.value)
  {
    if from >= n then None
    else if p(from) then Some(from)
    else FirstHit(p, n, from + 1)
  }

  /** Nothing before the reported hit satisfies `p`; no hit means nothing in
      `from..n` does. */
  lemma {:induction false} FirstHitFirst(p: nat -> bool, n: nat, from: nat := 0)
    ensures FirstHit(p, n, from).Some? ==> forall i :: from <= i < FirstHit(p, n, from).value ==> !p(i)
    ensures FirstHit(p, n, from).None? ==> forall i :: from <= i < n ==> !p(i)
    decreases n - from
  {
    if from < n && !p(from) {
      FirstHitFirst(p, n, from + 1);
    }
  }

  /** A hit with nothing before it is the one `FirstHit` reports. */
  lemma {:induction false} FirstHitIs(p: nat -> bool, n: nat, k: nat, from: nat := 0)
    requires from <= k < n && p(k)
    requires forall i :: from <= i < k ==> !p(i)
    ensures FirstHit(p, n, from) == Some(k)
    decreases k - from
  {
    if from < k {
      FirstHitIs(p, n, k, from + 1);
    }
  }

  /** No hit at all in `from..n`. */
  lemma {:induction false} FirstHitNone(p: nat -> bool, n: nat, from: nat := 0)
    requires forall i :: from <= i < n ==> !p(i)
    ensures FirstHit(p, n, from) == None
    decreases n - from
  {
    if from < n {
      FirstHitNone(p, n, from + 1);
    }
  }

  /** Scanning further never changes a hit already found. */
  lemma FirstHitLonger(p: nat -> bool, n: nat, m: nat)
    requires n <= m && FirstHit(p, n).Some?
    ensures FirstHit(p, m) == FirstHit(p, n)
  {
    FirstHitFirst(p, n);
    FirstHitIs(p, m, FirstHit(p, n).value);
  }
}
