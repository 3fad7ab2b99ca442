/** What the tool observes from the outside world, written as oracles, and the
    meaning of the three scans every copy of the tool repeats:

    - the reachability scan: `rounds` rounds, each probing the four candidate
      addresses of a FRITZ!Box in list order, stopping at the first HTTP 200;
    - a bounded click: up to `versuche` attempts to find an element and click it,
      directly or through JavaScript;
    - skipping the configuration dialog: two rounds, each waiting for `Button1`
      and clicking it. */
module Environment {
  import opened Common

  /** The addresses a FRITZ!Box answers on, in the order they are probed. */
  const CandidateUrls: seq<string> :=
    ["http://fritz.box", "http://192.168.178.1", "http://169.254.139.1", "http://169.254.1.1"]

  const DefaultUrl: string := "http://fritz.box"

  /** Rounds of the scan when the caller gives no count. */
  const DefaultScanRounds: nat := 20

  /** `probe(round, k)`: in that round the request to candidate `k` answered 200.
      Connection errors, timeouts and other statuses all read as `false`. */
  type Probe = (nat, nat) -> bool

  /** Step `t` of the scan is round `t / 4`, candidate `t % 4`. */
  predicate Answers(probe: Probe, t: nat) {
    probe(t / 4, t % 4)
  }

  /** The step at which the scan stops with a hit, if any. */
  function ScanStep(probe: Probe, rounds: nat): (r: Option<nat>)
    ensures r.Some? ==> r.value < 4 * rounds && Answers(probe, r.value)
  {
    var hit := (t: nat) => Answers(probe, t);
    assert forall u: nat :: hit(u) == Answers(probe, u);
    FirstHit(hit, 4 * rounds)
  }

  /** No step before the one the scan stops at answered; a scan without a
      hit saw no answer at all. */
  lemma ScanStepFirst(probe: Probe, rounds: nat)
    ensures ScanStep(probe, rounds).Some? ==> forall u: nat :: u < ScanStep(probe, rounds).value ==> !Answers(probe, u)
    ensures ScanStep(probe, rounds).None? ==> forall u: nat :: u < 4 * rounds ==> !Answers(probe, u)
  {
    var hit := (t: nat) => Answers(probe, t);
    assert forall u: nat :: hit(u) == Answers(probe, u);
    FirstHitFirst(hit, 4 * rounds);
  }

  /** The address the scan adopts, or `None` when no probe answered. */
  function ScanUrl(probe: Probe, rounds: nat): (r: Option<string>)
    ensures r.Some? <==> ScanStep(probe, rounds).Some?
    ensures r.Some? ==> r.value in CandidateUrls
  {
    match ScanStep(probe, rounds)
    case None => None
    case Some(t) => Some(CandidateUrls[t % 4])
  }

  lemma RoundAndIndex(round: nat, k: nat)
    requires k < 4
    ensures (4 * round + k) / 4 == round && (4 * round + k) % 4 == k
  {
  }

  /** The scan at round `round`, candidate `k`, having seen no answer before:
      an answer there is the one the whole scan reports. */
  lemma ScanHitAt(probe: Probe, rounds: nat, round: nat, k: nat)
    requires round < rounds && k < 4 && probe(round, k)
    requires forall u: nat :: u < 4 * round + k ==> !Answers(probe, u)
    ensures ScanStep(probe, rounds) == Some(4 * round + k)
    ensures ScanUrl(probe, rounds) == Some(CandidateUrls[k])
  {
    RoundAndIndex(round, k);
    FirstHitIs((t: nat) => Answers(probe, t), 4 * rounds, 4 * round + k);
  }

  /** Scanning for more rounds adopts the same address once one answered. */
  lemma ScanMoreRounds(probe: Probe, rounds: nat, more: nat)
    requires rounds <= more && ScanStep(probe, rounds).Some?
    ensures ScanStep(probe, more) == ScanStep(probe, rounds)
    ensures ScanUrl(probe, more) == ScanUrl(probe, rounds)
  {
    FirstHitLonger((t: nat) => Answers(probe, t), 4 * rounds, 4 * more);
  }

  /** The first candidate wins within a round: an address later in the list is
      adopted only if every earlier one stayed silent in that round. */
  lemma ScanPrefersEarlierCandidates(probe: Probe, rounds: nat, k: nat)
    requires ScanStep(probe, rounds).Some? && ScanStep(probe, rounds).value % 4 == k
    ensures forall j: nat :: j < k ==> !probe(ScanStep(probe, rounds).value / 4, j)
  {
    var t := ScanStep(probe, rounds).value;
    ScanStepFirst(probe, rounds);
    forall j: nat | j < k
      ensures !probe(t / 4, j)
    {
      RoundAndIndex(t / 4, j);
      assert 4 * (t / 4) + j < t;
      assert !Answers(probe, 4 * (t / 4) + j);
    }
  }

  // ----- bounded clicks -----

  /** One attempt of `klicken`: the wait for the element failed; or the element
      was found and the direct click worked; or the direct click raised and the
      JavaScript click worked; or both clicks raised (the attempt then counts as
      failed, like a missing element). */
  datatype ClickAttempt = NotFound | Clicked | ClickedByScript | ScriptFailed

  predicate Succeeds(a: ClickAttempt) {
    a.Clicked? || a.ClickedByScript?
  }

  /** The attempt at which `klicken` returns True, given the driver is alive:
      the first of attempts `from..versuche` that succeeds. */
  function FirstClick(attempts: nat -> ClickAttempt, versuche: nat, from: nat := 0): (r: Option<nat>)
    decreases versuche - from
    ensures r.Some? ==> from <= r.value < versuche && Succeeds(attempts(r.value))
  {
    if from >= versuche then None
    else if Succeeds(attempts(from)) then Some(from)
    else FirstClick(attempts, versuche, from + 1)
  }

  /** A successful attempt with only failures before it is the one reported. */
  lemma {:induction false} FirstClickAt(attempts: nat -> ClickAttempt, versuche: nat, i: nat, from: nat := 0)
    requires from <= i < versuche && Succeeds(attempts(i))
    requires forall j: nat :: from <= j < i ==> !Succeeds(attempts(j))
    ensures FirstClick(attempts, versuche, from) == Some(i)
    decreases i - from
  {
    if from < i {
      FirstClickAt(attempts, versuche, i, from + 1);
    }
  }

  /** Every attempt failed. */
  lemma {:induction false} NoClick(attempts: nat -> ClickAttempt, versuche: nat, from: nat := 0)
    requires forall j: nat :: from <= j < versuche ==> !Succeeds(attempts(j))
    ensures FirstClick(attempts, versuche, from) == None
    decreases versuche - from
  {
    if from < versuche {
      NoClick(attempts, versuche, from + 1);
    }
  }

  /** The attempt reported is preceded by failures only; no attempt reported
      means every attempt failed. */
  lemma {:induction false} FirstClickFirst(attempts: nat -> ClickAttempt, versuche: nat, from: nat := 0)
    ensures FirstClick(attempts, versuche, from).Some? ==>
              forall j: nat :: from <= j < FirstClick(attempts, versuche, from).value ==> !Succeeds(attempts(j))
    ensures FirstClick(attempts, versuche, from).None? ==> forall j: nat :: from <= j < versuche ==> !Succeeds(attempts(j))
    decreases versuche - from
  {
    if from < versuche && !Succeeds(attempts(from)) {
      FirstClickFirst(attempts, versuche, from + 1);
    }
  }

  /** More attempts can only turn a failed click into a successful one. */
  lemma MoreAttemptsNeverHurt(attempts: nat -> ClickAttempt, versuche: nat, more: nat)
    requires versuche <= more && FirstClick(attempts, versuche).Some?
    ensures FirstClick(attempts, more) == FirstClick(attempts, versuche)
  {
    FirstClickFirst(attempts, versuche);
    FirstClickAt(attempts, more, FirstClick(attempts, versuche).value);
  }

  // ----- skipping the configuration dialog -----

  /** One round of `skip_configuration`: `Button1` did not appear within the
      wait, or appeared and clicking it raised, or appeared and was clicked. */
  datatype ButtonRound = Absent | ClickRaises | Pressed

  /** The rounds `skip_configuration` runs before returning: both, or up to
      and including the first that raised. This and `SkipConfigured` are the
      reference definitions the two loop methods `skip_configuration`
      (models.py and fritz_steps.py) are proved equal to. */
  function SkipRoundsRun(rounds: nat -> ButtonRound): (r: nat)
    ensures 1 <= r <= 2
    ensures r == 2 <==> rounds(0).Pressed?
  {
    if rounds(0).Pressed? then 2 else 1
  }

  /** Returns True exactly when `Button1` was found and pressed in both
      rounds; stated as a quantifier over the rounds so that it reads apart
      from the loops it specifies. */
  function SkipConfigured(rounds: nat -> ButtonRound): (r: bool)
    ensures r <==> forall i: nat :: i < 2 ==> rounds(i).Pressed?
  {
    rounds(0).Pressed? && rounds(1).Pressed?
  }
}
