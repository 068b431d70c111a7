/** What calls made before `initialize` leave behind: when the node count and the statuses are right after it. */
module RegistryStatus {
  import opened Base
  import opened Council
  import opened Registry
  import opened RegistrySafety

  /** Until `initialize`, the minimum is zero: nobody is slashed, and any stake makes a node Active. */
  ghost predicate EarlySound(reg: State) {
    reg.council.None? ==>
      && reg.minStake == 0
      && forall n :: n in reg.nodes ==> EarlyNode(reg.nodes[n])
  }

  predicate EarlyNode(node: Node) {
    node.status != Slashed && (node.status == Inactive ==> node.stake == 0)
  }

  lemma EarlyStep(w: World, tx: Tx)
    requires MoneyInvariant(w.reg) && EarlySound(w.reg)
    ensures EarlySound(Apply(w, tx).reg)
  {
    assert forall n :: n in w.reg.nodes ==> NodeSound(w.reg, n);
  }

  lemma {:induction false} EarlyRun(w0: World, txs: seq<Tx>)
    requires AtDeployment(w0) && AllLegitimate(w0.reg.self, txs)
    ensures EarlySound(Run(w0, txs).reg)
  {
    if txs != [] {
      EarlyRun(w0, txs[..|txs| - 1]);
      RunIsSolid(w0, txs[..|txs| - 1]);
      EarlyStep(Run(w0, txs[..|txs| - 1]), txs[|txs| - 1]);
    }
  }

  /** An Active node whose stake is below a minimum about to be set. */
  predicate ActiveBelow(reg: State, n: Address, minStake: I128) {
    n in reg.nodes && reg.nodes[n].status == Active && reg.nodes[n].stake < minStake
  }

  /** `initialize` on a contract that anyone may have called before completes exactly when it has not
      completed yet and its arguments are valid. From then on, in every run, the node count is short
      by exactly the number of early registrations, and every node is Active exactly when its stake
      reaches the minimum, unless it was Active below that minimum when `initialize` was called. */
  lemma {:induction false} AfterInitialize(w0: World, early: seq<Tx>, council: AdminCouncil, minStake: I128,
                                           lockPeriod: U32, txs: seq<Tx>, n: Address)
    requires AtDeployment(w0) && AllLegitimate(w0.reg.self, early) && AllLegitimate(w0.reg.self, txs)
    ensures var before := Run(w0, early);
            var o := Initialize(before, council, minStake, lockPeriod);
            && (o.Done? <==> before.reg.council.None? && Accepted(council) && minStake > 0 && lockPeriod > 0)
            && (o.Done? ==>
                  var reg := Run(o.world, txs).reg;
                  && reg.council == Some(council) && reg.minStake == minStake && reg.lockPeriod == lockPeriod
                  && reg.nodeCount == |reg.nodes| - |before.reg.nodes|
                  && (!ActiveBelow(before.reg, n, minStake) ==> NodeCurrent(reg, n)))
  {
    RunIsSolid(w0, early);
    var before := Run(w0, early);
    var o := Initialize(before, council, minStake, lockPeriod);
    if o.Done? {
      InitializeStep(before, council, minStake, lockPeriod);
      StatusRun(o.world, txs);
      EarlyRun(w0, early);
      assert n in before.reg.nodes ==> NodeSound(before.reg, n);
      assert NodeCurrent(o.world.reg, n) <==> !ActiveBelow(before.reg, n, minStake);
    }
  }

  /** In every run from here, every node is Active exactly when its stake reaches the minimum. */
  ghost predicate StatusesRight(w: World) {
    forall txs, n :: AllLegitimate(w.reg.self, txs) ==> NodeCurrent(Run(w, txs).reg, n)
  }

  /** The statuses are right in every run after `initialize` exactly when no node was Active below
      the new minimum at the call. A node for which this fails is wrong at once. */
  lemma {:induction false} StatusRightIff(w0: World, early: seq<Tx>, council: AdminCouncil, minStake: I128,
                                          lockPeriod: U32)
    requires AtDeployment(w0) && AllLegitimate(w0.reg.self, early)
    requires Initialize(Run(w0, early), council, minStake, lockPeriod).Done?
    ensures var w := Initialize(Run(w0, early), council, minStake, lockPeriod).world;
            && (forall n :: NodeCurrent(w.reg, n) <==> !ActiveBelow(Run(w0, early).reg, n, minStake))
            && (StatusesRight(w) <==> forall n :: !ActiveBelow(Run(w0, early).reg, n, minStake))
  {
    var before := Run(w0, early);
    var w := Initialize(before, council, minStake, lockPeriod).world;
    RunIsSolid(w0, early);
    EarlyRun(w0, early);
    forall n
      ensures NodeCurrent(w.reg, n) <==> !ActiveBelow(before.reg, n, minStake)
    {
      assert n in before.reg.nodes ==> NodeSound(before.reg, n);
    }
    if forall n :: !ActiveBelow(before.reg, n, minStake) {
      forall txs, n | AllLegitimate(w.reg.self, txs)
        ensures NodeCurrent(Run(w, txs).reg, n)
      {
        AfterInitialize(w0, early, council, minStake, lockPeriod, txs, n);
      }
    } else {
      var n :| ActiveBelow(before.reg, n, minStake);
      var none: seq<Tx> := [];
      assert AllLegitimate(w.reg.self, none) && !NodeCurrent(Run(w, none).reg, n);
    }
  }

  /** The count of a run is right exactly when nobody registered before `initialize`. */
  lemma {:induction false} CountRightIffNobodyEarly(w0: World, early: seq<Tx>, council: AdminCouncil, minStake: I128,
                                                    lockPeriod: U32, txs: seq<Tx>)
    requires AtDeployment(w0) && AllLegitimate(w0.reg.self, early) && AllLegitimate(w0.reg.self, txs)
    requires Initialize(Run(w0, early), council, minStake, lockPeriod).Done?
    ensures var reg := Run(Initialize(Run(w0, early), council, minStake, lockPeriod).world, txs).reg;
            reg.nodeCount == |reg.nodes| <==> Run(w0, early).reg.nodes == map[]
  {
    AfterInitialize(w0, early, council, minStake, lockPeriod, txs, w0.reg.self);
    var nodes := Run(w0, early).reg.nodes;
    if |nodes| == 0 {
      assert nodes.Keys == {};
    }
  }

  /** A concrete early registration and stake: `initialize` then leaves the count at zero with one
      node, and that node Active below the minimum. */
  lemma EarlyRegistrationMiscounts()
    ensures exists w: World, env: Env, n: Address, d: Metadata, c: AdminCouncil ::
              var registered := Register(w, env, n, d);
              && AtDeployment(w) && registered.Done?
              && Stake(registered.world, env, n, 1).Done?
              && var o := Initialize(Stake(registered.world, env, n, 1).world, c, 5, 1);
                 o.Done? && o.world.reg.nodeCount == 0 && |o.world.reg.nodes| == 1 && !NodeCurrent(o.world.reg, n)
  {
    var n := Address(1);
    var w := World(Deployed(Address(0), true), map[n := 1], []);
    var env := Env(0, 0, {n});
    var d := Metadata("", 0, 0);
    var c := AdminCouncil([Address(2)], 1);
    var registered := Register(w, env, n, d);
    var staked := Stake(registered.world, env, n, 1);
    var o := Initialize(staked.world, c, 5, 1);
    assert o.world.reg.nodes.Keys == {n};
    assert |o.world.reg.nodes| == |o.world.reg.nodes.Keys|;
    assert AtDeployment(w) && !NodeCurrent(o.world.reg, n);
  }
}
