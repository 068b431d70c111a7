/** The time lock over whole runs: what a payout answers to, and that nothing is paid twice. */
module RegistryTimeLock {
  import opened Base
  import opened Registry
  import opened RegistrySafety

  /** An event of the unstaking life of a node. */
  predicate Touches(e: Event, n: Address) {
    (e.Unstaked? || e.Finalized? || e.Forfeited?) && e.node == n
  }

  /** What each event may be, given the log before it. */
  ghost predicate Lawful(prior: seq<Event>, e: Event) {
    match e
    case Unstaked(_, a, u, at) => a > 0 && u == at + PeriodInLog(prior)
    case Finalized(n, a, at) =>
      var p := PendingInLog(prior, n);
      p.Some? && p.value.amount == a && at >= p.value.unlocksAt
    case Forfeited(_, a, _) => a >= 0
    case _ => true
  }

  ghost predicate LawfulLog(log: seq<Event>) {
    forall i :: 0 <= i < |log| ==> Lawful(log[..i], log[i])
  }

  lemma LawfulStep(w: World, following: World, n: Address)
    requires Booked(w, following, n) && LocksMatchLog(w) && LawfulLog(w.log) && PeriodInLog(w.log) == w.reg.lockPeriod
    ensures LawfulLog(following.log)
  {
    var next := following.log;
    if next != w.log {
      var e := next[|w.log|];
      assert next == w.log + [e];
      if e.Finalized? {
        assert PendingInLog(w.log, e.node) == Some(w.reg.locks[e.node]);
      }
      forall i | 0 <= i < |next|
        ensures Lawful(next[..i], next[i])
      {
        if i < |w.log| {
          assert next[..i] == w.log[..i] && next[i] == w.log[i];
        } else {
          assert next[..i] == w.log;
        }
      }
    }
  }

  lemma {:induction false} RunIsLawful(w0: World, txs: seq<Tx>)
    requires AtDeployment(w0) && AllLegitimate(w0.reg.self, txs)
    ensures LawfulLog(Run(w0, txs).log)
  {
    if txs != [] {
      var w, tx := Run(w0, txs[..|txs| - 1]), txs[|txs| - 1];
      RunIsLawful(w0, txs[..|txs| - 1]);
      RunIsSolid(w0, txs[..|txs| - 1]);
      EveryStepGood(w, tx);
      LawfulStep(w, Apply(w, tx), Actor(tx.call));
    }
  }

  ghost predicate QuietBetween(log: seq<Event>, lo: int, hi: int, n: Address) {
    forall k :: lo < k < hi && 0 <= k < |log| ==> !Touches(log[k], n)
  }

  /** A pending entry comes from the node's last unstake, and nothing has touched the node since. */
  lemma {:induction false} PendingOrigin(log: seq<Event>, n: Address) returns (j: nat)
    requires PendingInLog(log, n).Some?
    ensures j < |log| && log[j].Unstaked? && log[j].node == n
    ensures PendingInLog(log, n) == Some(LockEntry(n, log[j].amount, log[j].unlocksAt))
    ensures QuietBetween(log, j, |log|, n)
  {
    var last := |log| - 1;
    if Touches(log[last], n) {
      j := last;
    } else {
      j := PendingOrigin(log[..last], n);
      assert forall k :: j < k < last ==> log[..last][k] == log[k];
    }
  }

  /** A payout at `i` answers to the unstake at `j`. */
  ghost predicate Pays(log: seq<Event>, i: int, j: int) {
    && 0 <= j < i < |log|
    && log[i].Finalized? && log[j].Unstaked? && log[j].node == log[i].node
    && log[j].amount == log[i].amount
    && log[i].at >= log[j].unlocksAt == log[j].at + PeriodInLog(log[..j])
    && QuietBetween(log, j, i, log[i].node)
  }

  /** Every payout of every run is exactly the node's latest unstake, at least the lock period
      later, with no slash, payout or other unstake of that node in between. */
  lemma {:induction false} PayoutsRespectLock(w0: World, txs: seq<Tx>, i: int)
    requires AtDeployment(w0) && AllLegitimate(w0.reg.self, txs)
    requires 0 <= i < |Run(w0, txs).log| && Run(w0, txs).log[i].Finalized?
    ensures exists j :: Pays(Run(w0, txs).log, i, j)
  {
    RunIsLawful(w0, txs);
    var log := Run(w0, txs).log;
    assert Lawful(log[..i], log[i]);
    var j := PendingOrigin(log[..i], log[i].node);
    assert Lawful(log[..j], log[j]);
    assert forall k :: j < k < i ==> log[..i][k] == log[k];
    assert Pays(log, i, j);
  }

  /** The answer is unique both ways: one payout for an unstake, one unstake for a payout. */
  lemma PaysOneToOne(log: seq<Event>, i: int, i': int, j: int, j': int)
    requires Pays(log, i, j) && Pays(log, i', j')
    ensures i == i' <==> j == j'
  {
  }

  /** Two payouts of a run, of one node or of two, answer to two different unstakes. */
  lemma {:induction false} NothingPaidTwice(w0: World, txs: seq<Tx>, i: int, i': int)
    requires AtDeployment(w0) && AllLegitimate(w0.reg.self, txs)
    requires 0 <= i < i' < |Run(w0, txs).log|
    requires Run(w0, txs).log[i].Finalized? && Run(w0, txs).log[i'].Finalized?
    ensures exists j, j' :: j != j' && Pays(Run(w0, txs).log, i, j)
                                    && Pays(Run(w0, txs).log, i', j')
  {
    var log := Run(w0, txs).log;
    PayoutsRespectLock(w0, txs, i);
    PayoutsRespectLock(w0, txs, i');
    var j :| Pays(log, i, j);
    var j' :| Pays(log, i', j');
    PaysOneToOne(log, i, i', j, j');
  }

  /** `initialize` fixes the period: every unstake after it waits exactly the configured time. */
  lemma {:induction false} PeriodFixed(w: World, txs: seq<Tx>, j: nat)
    requires MoneyInvariant(w.reg) && w.reg.council.Some? && AllLegitimate(w.reg.self, txs)
    requires PeriodInLog(w.log) == w.reg.lockPeriod && |w.log| <= j <= |Run(w, txs).log|
    ensures PeriodInLog(Run(w, txs).log[..j]) == w.reg.lockPeriod
    ensures PeriodInLog(Run(w, txs).log) == Run(w, txs).reg.lockPeriod
  {
    if txs == [] {
      assert w.log[..j] == w.log;
    } else {
      var mid, tx := Run(w, txs[..|txs| - 1]), txs[|txs| - 1];
      var next := Apply(mid, tx);
      StatusRun(w, txs[..|txs| - 1]);
      EveryStepGood(mid, tx);
      LogGrows(w, txs[..|txs| - 1]);
      PeriodFixed(w, txs[..|txs| - 1], if j <= |mid.log| then j else |mid.log|);
      if next.log != mid.log {
        Appended(mid.log, next.log[|mid.log|]);
      }
      if j <= |mid.log| {
        assert next.log[..j] == mid.log[..j];
      } else {
        assert next.log[..j] == next.log;
      }
    }
  }

  lemma {:induction false} LogGrows(w: World, txs: seq<Tx>)
    requires MoneyInvariant(w.reg) && w.reg.council.Some? && AllLegitimate(w.reg.self, txs)
    ensures w.log <= Run(w, txs).log
  {
    if txs != [] {
      StatusRun(w, txs[..|txs| - 1]);
      LogGrows(w, txs[..|txs| - 1]);
      EveryStepGood(Run(w, txs[..|txs| - 1]), txs[|txs| - 1]);
    }
  }

  /** Read off the log: no amount is lost to overwriting exactly when the node never unstakes while
      an earlier unstake of its own is pending. */
  lemma {:induction false} OverwrittenZeroInLog(log: seq<Event>, n: Address)
    requires LawfulLog(log)
    ensures AccountOf(log, Some(n)).overwritten >= 0
    ensures AccountOf(log, Some(n)).overwritten == 0 <==>
            forall i :: 0 <= i < |log| && log[i].Unstaked? && log[i].node == n ==> PendingInLog(log[..i], n).None?
  {
    if log != [] {
      var prior := log[..|log| - 1];
      assert forall i :: 0 <= i < |prior| ==> prior[..i] == log[..i];
      OverwrittenZeroInLog(prior, n);
      if PendingInLog(prior, n).Some? {
        var j := PendingOrigin(prior, n);
        assert Lawful(prior[..j], prior[j]);
      }
      assert forall i :: 0 <= i < |log| ==> i < |prior| || log[..i] == prior;
      assert forall i :: 0 <= i < |prior| ==> log[i] == prior[i];
    }
  }

  lemma {:induction false} NothingNegative(log: seq<Event>, n: Address)
    requires LawfulLog(log)
    ensures var acc := AccountOf(log, Some(n)); acc.paid >= 0 && acc.forfeited >= 0
  {
    if log != [] {
      var prior := log[..|log| - 1];
      assert forall i :: 0 <= i < |prior| ==> prior[..i] == log[..i];
      NothingNegative(prior, n);
      var e := log[|log| - 1];
      assert Lawful(prior, e);
      if e.Finalized? {
        var j := PendingOrigin(prior, e.node);
        assert Lawful(prior[..j], prior[j]);
      }
    }
  }

  /** No node ever takes out more than it put in, whatever it overwrote or forfeited on the way. */
  lemma {:induction false} NobodyOverpaid(w0: World, txs: seq<Tx>, n: Address)
    requires AtDeployment(w0) && AllLegitimate(w0.reg.self, txs)
    ensures var w := Run(w0, txs);
            var acc := AccountOf(w.log, Some(n));
            0 <= acc.paid <= acc.staked - CurrentStake(w.reg.nodes, n) - Pending(w.reg.locks, n)
            && acc.paid <= acc.staked
  {
    NodeConservation(w0, txs, n);
    RunIsSolid(w0, txs);
    RunIsLawful(w0, txs);
    var log := Run(w0, txs).log;
    NothingNegative(log, n);
    OverwrittenZeroInLog(log, n);
  }
}
