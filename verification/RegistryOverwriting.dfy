/** Unstaking over a pending entry: when a call loses money, and a run that does. */
module RegistryOverwriting {
  import opened Base
  import opened Council
  import opened Registry
  import opened RegistrySafety

  ghost function Overwritten(w: World, n: Address): int {
    AccountOf(w.log, Some(n)).overwritten
  }

  /** A completed unstake by a node whose lock entry is still stored: what a caller can see beforehand. */
  predicate Overwrites(w: World, tx: Tx, n: Address) {
    && tx.call.CallUnstake? && tx.call.node == n
    && n in w.reg.locks && Unstake(w, tx.env, n, tx.call.amount).Done?
  }

  /** One completed unstake loses exactly the amount of the stored entry. */
  lemma {:induction false} UnstakeOverwritesIff(w0: World, txs: seq<Tx>, env: Env, n: Address, a: I128)
    requires AtDeployment(w0) && AllLegitimate(w0.reg.self, txs)
    requires Unstake(Run(w0, txs), env, n, a).Done?
    ensures var w := Run(w0, txs);
            var next := Unstake(w, env, n, a).world;
            && Overwritten(next, n) == Overwritten(w, n) + Pending(w.reg.locks, n)
            && (Overwritten(next, n) > Overwritten(w, n) <==> n in w.reg.locks)
  {
    RunIsSolid(w0, txs);
    var w := Run(w0, txs);
    Appended(w.log, Unstake(w, env, n, a).world.log[|w.log|]);
    assert PendingInLog(w.log, n) == if n in w.reg.locks then Some(w.reg.locks[n]) else None;
  }

  /** No other event is an unstake of this node. */
  lemma OtherCallsKeep(w: World, tx: Tx, n: Address)
    requires MoneyInvariant(w.reg) && Legitimate(w.reg.self, tx)
    requires !(tx.call.CallUnstake? && tx.call.node == n && Unstake(w, tx.env, n, tx.call.amount).Done?)
    ensures Overwritten(Apply(w, tx), n) == Overwritten(w, n)
  {
    EveryStepGood(w, tx);
    var next := Apply(w, tx);
    if next.log != w.log {
      Appended(w.log, next.log[|w.log|]);
    }
  }

  lemma OverwriteStep(w0: World, txs: seq<Tx>, tx: Tx, n: Address)
    requires AtDeployment(w0) && AllLegitimate(w0.reg.self, txs) && Legitimate(w0.reg.self, tx)
    ensures var w := Run(w0, txs);
            && Overwritten(Apply(w, tx), n) >= Overwritten(w, n)
            && (Overwritten(Apply(w, tx), n) > Overwritten(w, n) <==> Overwrites(w, tx, n))
  {
    var w := Run(w0, txs);
    RunIsSolid(w0, txs);
    if tx.call.CallUnstake? && tx.call.node == n && Unstake(w, tx.env, n, tx.call.amount).Done? {
      UnstakeOverwritesIff(w0, txs, tx.env, n, tx.call.amount);
    } else {
      OtherCallsKeep(w, tx, n);
    }
  }

  ghost predicate NeverOverwrites(w0: World, txs: seq<Tx>, n: Address) {
    forall i :: 0 <= i < |txs| ==> !Overwrites(Run(w0, txs[..i]), txs[i], n)
  }

  lemma NeverSplits(w0: World, txs: seq<Tx>, n: Address)
    requires txs != []
    ensures var init := txs[..|txs| - 1];
            NeverOverwrites(w0, txs, n) <==>
            NeverOverwrites(w0, init, n) && !Overwrites(Run(w0, init), txs[|txs| - 1], n)
  {
    var init := txs[..|txs| - 1];
    assert forall i :: 0 <= i < |init| ==> init[..i] == txs[..i] && init[i] == txs[i];
    if NeverOverwrites(w0, init, n) && !Overwrites(Run(w0, init), txs[|txs| - 1], n) {
      forall i | 0 <= i < |txs|
        ensures !Overwrites(Run(w0, txs[..i]), txs[i], n)
      {
        if i < |init| {
          assert !Overwrites(Run(w0, init[..i]), init[i], n);
        }
      }
    }
  }

  /** Over a whole run a node loses nothing to overwriting exactly when none of its completed
      unstakes found an entry in the lock store. */
  lemma {:induction false} OverwrittenZeroIff(w0: World, txs: seq<Tx>, n: Address)
    requires AtDeployment(w0) && AllLegitimate(w0.reg.self, txs)
    ensures Overwritten(Run(w0, txs), n) >= 0
    ensures Overwritten(Run(w0, txs), n) == 0 <==> NeverOverwrites(w0, txs, n)
  {
    if txs != [] {
      var init := txs[..|txs| - 1];
      OverwrittenZeroIff(w0, init, n);
      OverwriteStep(w0, init, txs[|txs| - 1], n);
      NeverSplits(w0, txs, n);
    }
  }

  // ---- A run that overwrites ----

  const NODE := Address(1)
  const ENV := Env(0, 0, {NODE})

  function Setup(): seq<Tx> {
    [ Tx(ENV, CallInitialize(AdminCouncil([Address(2)], 1), 1, 10)),
      Tx(ENV, CallRegister(NODE, Metadata("", 0, 0))),
      Tx(ENV, CallStake(NODE, 3)),
      Tx(ENV, CallUnstake(NODE, 1)) ]
  }

  function Start(): World {
    World(Deployed(Address(0), true), map[NODE := 3], [])
  }

  lemma SetupRun()
    ensures var w := Run(Start(), Setup());
            && w.log == [Configured(10), Staked(NODE, 3), Unstaked(NODE, 1, 10, 0)]
            && w.reg.locks == map[NODE := LockEntry(NODE, 1, 10)]
            && Unstake(w, ENV, NODE, 1).Done?
  {
    var w0, txs := Start(), Setup();
    assert txs == [] + [txs[0]] + [txs[1]] + [txs[2]] + [txs[3]];
    RunAppend(w0, [], txs[0]);
    RunAppend(w0, [] + [txs[0]], txs[1]);
    RunAppend(w0, [] + [txs[0]] + [txs[1]], txs[2]);
    RunAppend(w0, [] + [txs[0]] + [txs[1]] + [txs[2]], txs[3]);
    var w3 := Apply(Apply(Apply(w0, txs[0]), txs[1]), txs[2]);
    assert w3.log == [Configured(10), Staked(NODE, 3)] && w3.reg.locks == map[];
    assert w3.reg.nodes[NODE] == Node(NODE, 3, Active, Metadata("", 0, 0), 0, 0);
  }

  /** Register, stake 3, unstake 1: one more unstake of 1 completes and loses the first one. */
  lemma OverwritingHappens()
    ensures var w := Run(Start(), Setup());
            && AtDeployment(Start()) && AllLegitimate(Start().reg.self, Setup())
            && Overwrites(w, Tx(ENV, CallUnstake(NODE, 1)), NODE)
            && Overwritten(w, NODE) == 0
            && Overwritten(Unstake(w, ENV, NODE, 1).world, NODE) == 1
  {
    SetupRun();
    var l1 := [Configured(10)];
    var l2 := [Configured(10), Staked(NODE, 3)];
    var l3 := [Configured(10), Staked(NODE, 3), Unstaked(NODE, 1, 10, 0)];
    assert l1[..0] == [] && l2[..1] == l1 && l3[..2] == l2;
    assert PendingInLog(l1, NODE) == None && AccountOf(l1, Some(NODE)).overwritten == 0;
    assert PendingInLog(l2, NODE) == None && AccountOf(l2, Some(NODE)).overwritten == 0;
    UnstakeOverwritesIff(Start(), Setup(), ENV, NODE, 1);
  }
}
