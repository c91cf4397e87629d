/** Read-only polling until every recorded provider id is gone
    (lifecycle.py, confirm_deletion). */
module DeletionPoll {
  import opened Common
  import opened LifecycleModel
  import opened Reconcile
  import opened PlanGate

  datatype Probe = Present | Absent | Raises

  // What the polling observes: one probe answer per round and address, the
  // clock at the start, and the clock read at the end of each round.
  datatype Observed = Observed(probe: (nat, string) -> Probe, started: real, clock: nat -> real)

  // Each sleep advances the monotonic clock by at least the interval.
  ghost predicate SleepsAdvance(o: Observed, interval: real) {
    && o.clock(0) >= o.started
    && forall k: nat :: o.clock(k + 1) >= o.clock(k) + interval
  }

  // The polling table is keyed by address, so a later resource replaces an
  // earlier one recorded under the same address.
  function PollTable(resources: seq<Resource>): map<string, Ref> {
    if resources == [] then map[]
    else
      var n := |resources| - 1;
      PollTable(resources[..n])[resources[n].address := RefOf(resources[n])]
  }

  // Addresses not yet probed absent when k rounds are over.
  function Left(addresses: set<string>, o: Observed, k: nat): set<string> {
    set a | a in addresses && forall j: nat | j < k :: !Answers(o, j, a, Absent)
  }

  predicate Answers(o: Observed, round: nat, address: string, answer: Probe) {
    o.probe(round, address) == answer
  }

  lemma ClockAdvanced(o: Observed, interval: real, k: nat)
    requires SleepsAdvance(o, interval) && interval > 0.0
    ensures o.clock(k) - o.started >= k as real * interval
  {
    if k > 0 {
      ClockAdvanced(o, interval, k - 1);
      assert (k as real) * interval == ((k - 1) as real) * interval + interval;
    }
  }

  lemma Quotient(x: real, y: real, q: real)
    requires y > 0.0 && x * y <= q * y
    ensures x <= q
  {
  }

  lemma RoundsWithin(k: nat, interval: real, timeout: real)
    requires interval > 0.0 && timeout >= 0.0 && k as real * interval <= timeout
    ensures k <= (timeout / interval).Floor
  {
    assert timeout / interval * interval == timeout;
    Quotient(k as real, interval, timeout / interval);
  }

  // The table polls a resource exactly when no later resource under the same
  // address has another provider reference.
  lemma {:induction false} TableHolds(resources: seq<Resource>)
    ensures PollTable(resources).Keys == set r | r in resources :: r.address
    ensures (forall r :: r in resources ==> PollTable(resources)[r.address] == RefOf(r)) <==>
            (forall r, s :: r in resources && s in resources && r.address == s.address ==> RefOf(r) == RefOf(s))
  {
    if resources != [] {
      var n := |resources| - 1;
      var front, last := resources[..n], resources[n];
      TableHolds(front);
      assert forall r :: r in resources <==> r in front || r == last;
      assert forall a :: a != last.address && a in PollTable(front) ==> PollTable(resources)[a] == PollTable(front)[a];
      if forall r, s :: r in resources && s in resources && r.address == s.address ==> RefOf(r) == RefOf(s) {
        forall r | r in resources ensures PollTable(resources)[r.address] == RefOf(r) {
        }
      }
    }
  }

  // An address recorded twice under different ids: the first id is never polled.
  lemma ShadowedIdIsNotPolled(address: string, id: string, other: string)
    requires id != other
    ensures var r := Resource(address, INSTANCE, id, "", "", []);
            var s := Resource(address, INSTANCE, other, "", "", []);
            PollTable([r, s])[address] != RefOf(r) && |PollTable([r, s])| == 1
  {
    var r := Resource(address, INSTANCE, id, "", "", []);
    var s := Resource(address, INSTANCE, other, "", "", []);
    assert [r, s][..1] == [r] && [r][..0] == [];
    assert PollTable([r]) == map[address := RefOf(r)];
    assert PollTable([r, s]) == map[address := RefOf(s)];
  }

  lemma LeftStep(addresses: set<string>, o: Observed, k: nat)
    ensures Left(addresses, o, k + 1) == set a | a in Left(addresses, o, k) && !Answers(o, k, a, Absent)
  {
  }

  ghost predicate SomeRaise(addresses: set<string>, o: Observed, round: nat) {
    exists a :: a in addresses && Answers(o, round, a, Raises)
  }

  // One round over the addresses still in the table.
  method PollRound(remaining: map<string, Ref>, o: Observed, round: nat)
    returns (after: map<string, Ref>, raised: bool)
    ensures raised ==> SomeRaise(remaining.Keys, o, round)
    ensures !raised ==> after.Keys == set a | a in remaining && !Answers(o, round, a, Absent)
  {
    after, raised := remaining, false;
    var work := remaining.Keys;
    while work != {}
      invariant work <= remaining.Keys
      invariant after.Keys == set a | a in remaining && (a in work || !Answers(o, round, a, Absent))
    {
      var address :| address in work;
      work := work - {address};
      var answer := o.probe(round, address);
      if answer == Raises {
        assert Answers(o, round, address, Raises);
        return after, true;
      }
      if answer == Absent {
        after := after - {address};
      }
    }
  }

  // Round k neither emptied the table nor passed the window.
  ghost predicate Continues(addresses: set<string>, o: Observed, k: nat, timeout: real) {
    Left(addresses, o, k + 1) != {} && o.clock(k) - o.started <= timeout
  }

  // No round before the last one could have ended the polling.
  ghost predicate KeptPolling(addresses: set<string>, o: Observed, rounds: nat, timeout: real) {
    forall k: nat :: k < rounds ==> Continues(addresses, o, k, timeout)
  }

  // How the polling of a table can end after the given number of rounds.
  ghost predicate TableEnds(
    keys: set<string>, o: Observed, interval: real, timeout: real, failure: Option<Refusal>, rounds: nat)
    requires interval > 0.0
  {
    && rounds <= (timeout / interval).Floor + 2
    && KeptPolling(keys, o, if rounds == 0 then 0 else rounds - 1, timeout)
    && match failure
       case None => Left(keys, o, rounds) == {}
       case Some(NotConfirmed) => rounds > 0 && Left(keys, o, rounds) != {} && o.clock(rounds - 1) - o.started > timeout
       case Some(ProbeFailed) => rounds > 0 && SomeRaise(Left(keys, o, rounds - 1), o, rounds - 1)
       case _ => false
  }

  lemma NothingPolled(keys: set<string>, o: Observed)
    ensures Left(keys, o, 0) == keys
  {
  }

  lemma KeptOn(keys: set<string>, o: Observed, k: nat, timeout: real)
    requires KeptPolling(keys, o, k, timeout)
    requires Left(keys, o, k + 1) != {} && o.clock(k) - o.started <= timeout
    ensures KeptPolling(keys, o, k + 1, timeout)
  {
  }

  method PollUntilGone(table: map<string, Ref>, o: Observed, interval: real, timeout: real)
    returns (failure: Option<Refusal>, rounds: nat)
    requires interval > 0.0 && timeout >= 0.0 && SleepsAdvance(o, interval)
    ensures TableEnds(table.Keys, o, interval, timeout, failure, rounds)
  {
    hide Answers, SleepsAdvance, SomeRaise, Continues, Left;
    rounds := 0;
    RoundsWithin(0, interval, timeout);
    var remaining := table;
    ghost var keys := table.Keys;
    ghost var bound := (timeout / interval).Floor + 2;
    NothingPolled(keys, o);
    while remaining != map[]
      invariant remaining.Keys == Left(keys, o, rounds)
      invariant remaining == map[] ==> rounds == 0
      invariant KeptPolling(keys, o, rounds, timeout)
      invariant rounds <= bound - 1
      decreases bound - rounds
    {
      var raised: bool;
      remaining, raised := PollRound(remaining, o, rounds);
      LeftStep(keys, o, rounds);
      rounds := rounds + 1;
      if raised {
        return Some(ProbeFailed), rounds;
      }
      if remaining == map[] {
        break;
      }
      assert remaining.Keys != {};
      if o.clock(rounds - 1) - o.started > timeout {
        return Some(NotConfirmed), rounds;
      }
      ClockAdvanced(o, interval, rounds - 1);
      RoundsWithin(rounds - 1, interval, timeout);
      KeptOn(keys, o, rounds - 1, timeout);
    }
    failure := None;
  }

  // How a confirmation over the recorded resources can end.
  ghost predicate PollEnds(
    resources: seq<Resource>, o: Observed, interval: real, timeout: real, outcome: Result<nat, Refusal>, rounds: nat)
    requires interval > 0.0
  {
    if exists r :: r in resources && r.kind !in {INSTANCE, FIREWALL} then outcome == Err(UnknownKind) && rounds == 0
    else
      && (outcome.Ok? ==> outcome.value == |resources|)
      && TableEnds(
           PollTable(resources).Keys, o, interval, timeout, if outcome.Ok? then None else Some(outcome.error), rounds)
  }

  method ConfirmDeletion(resources: seq<Resource>, o: Observed, interval: real, timeout: real)
    returns (outcome: Result<nat, Refusal>, rounds: nat)
    requires interval > 0.0 && timeout >= 0.0 && SleepsAdvance(o, interval)
    ensures PollEnds(resources, o, interval, timeout, outcome, rounds)
  {
    hide TableEnds, PollTable;
    if exists r :: r in resources && r.kind !in {INSTANCE, FIREWALL} {
      return Err(UnknownKind), 0;
    }
    var failure: Option<Refusal>;
    failure, rounds := PollUntilGone(PollTable(resources), o, interval, timeout);
    outcome := if failure.None? then Ok(|resources|) else Err(failure.value);
  }

  // With distinct addresses a confirmed deletion means that every recorded
  // provider reference was probed absent.
  lemma ConfirmedMeansAllAbsent(resources: seq<Resource>, o: Observed, rounds: nat)
    requires forall i, j :: 0 <= i < j < |resources| ==> resources[i].address != resources[j].address
    requires Left(PollTable(resources).Keys, o, rounds) == {}
    ensures forall r :: r in resources ==>
              (r.address, RefOf(r)) in PollTable(resources).Items
              && exists k: nat :: k < rounds && Answers(o, k, r.address, Absent)
  {
    TableHolds(resources);
    forall r | r in resources
      ensures (r.address, RefOf(r)) in PollTable(resources).Items
      ensures exists k: nat :: k < rounds && Answers(o, k, r.address, Absent)
    {
      assert r.address !in Left(PollTable(resources).Keys, o, rounds);
    }
  }
}
