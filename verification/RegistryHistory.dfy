/** The registry against its transactions: what is stored is what completed calls said, and when. */
module RegistryHistory {
  import opened Base
  import opened Token
  import opened Registry
  import opened RegistrySafety

  ghost predicate Unstakes(w: World, tx: Tx, n: Address) {
    tx.call.CallUnstake? && tx.call.node == n && Unstake(w, tx.env, n, tx.call.amount).Done?
  }

  ghost predicate Finalizes(w: World, tx: Tx, n: Address) {
    tx.call == CallFinalize(n) && FinalizeUnstake(w, tx.env, n).Done?
  }

  ghost predicate Slashes(w: World, tx: Tx, n: Address) {
    tx.call == CallSlash(n) && Slash(w, tx.env, n).Done?
  }

  ghost predicate Reinstates(w: World, tx: Tx, n: Address) {
    tx.call == CallReinstate(n) && Reinstate(w, tx.env, n).Done?
  }

  lemma Prefixes(txs: seq<Tx>)
    requires txs != []
    ensures var init := txs[..|txs| - 1];
            forall k :: 0 <= k < |init| ==> init[..k] == txs[..k] && init[k] == txs[k]
  {
  }

  // ---- The log ----

  /** What a transaction adds to the log, told from the call, the time it lands, and what it finds. */
  ghost function Published(w: World, tx: Tx): seq<Event> {
    match tx.call
    case CallInitialize(c, m, p) => if Initialize(w, c, m, p).Done? then [Configured(p)] else []
    case CallStake(n, a) => if Stake(w, tx.env, n, a).Done? then [Staked(n, a)] else []
    case CallUnstake(n, a) =>
      if Unstake(w, tx.env, n, a).Done?
      then [Unstaked(n, a, tx.env.timestamp + w.reg.lockPeriod, tx.env.timestamp)] else []
    case CallFinalize(n) =>
      if FinalizeUnstake(w, tx.env, n).Done? then [Finalized(n, Pending(w.reg.locks, n), tx.env.timestamp)] else []
    case CallSlash(n) =>
      if Slash(w, tx.env, n).Done?
      then [Forfeited(n, CurrentStake(w.reg.nodes, n) + Pending(w.reg.locks, n), tx.env.timestamp)] else []
    case TokenTransfer(from, to, a) =>
      if to == w.reg.self && Transfer(w.bal, from, to, a).Some? then [Received(a)] else []
    case TokenMint(to, a) => if to == w.reg.self && Mint(w.bal, to, a).Some? then [Received(a)] else []
    case _ => []
  }

  ghost function History(w0: World, txs: seq<Tx>): seq<Event> {
    if txs == [] then []
    else History(w0, txs[..|txs| - 1]) + Published(Run(w0, txs[..|txs| - 1]), txs[|txs| - 1])
  }

  lemma PublishedIsLogged(w: World, tx: Tx)
    ensures Apply(w, tx).log == w.log + Published(w, tx)
  {
  }

  /** Everything proved about the log is about the completed transactions, their amounts and times. */
  lemma {:induction false} LogIsHistory(w0: World, txs: seq<Tx>)
    requires AtDeployment(w0)
    ensures Run(w0, txs).log == History(w0, txs)
  {
    if txs != [] {
      LogIsHistory(w0, txs[..|txs| - 1]);
      PublishedIsLogged(Run(w0, txs[..|txs| - 1]), txs[|txs| - 1]);
    }
  }

  // ---- The lock ----

  ghost predicate TouchesLock(w: World, tx: Tx, n: Address) {
    Unstakes(w, tx, n) || Finalizes(w, tx, n) || Slashes(w, tx, n)
  }

  ghost predicate Quiet(w0: World, txs: seq<Tx>, lo: int, hi: int, n: Address) {
    forall k :: lo < k < hi && 0 <= k < |txs| ==> !TouchesLock(Run(w0, txs[..k]), txs[k], n)
  }

  lemma UntouchedLock(w: World, tx: Tx, n: Address)
    requires !TouchesLock(w, tx, n)
    ensures n in Apply(w, tx).reg.locks <==> n in w.reg.locks
    ensures n in w.reg.locks ==> Apply(w, tx).reg.locks[n] == w.reg.locks[n]
  {
  }

  lemma FreedLock(w: World, tx: Tx, n: Address)
    ensures Finalizes(w, tx, n) || Slashes(w, tx, n) ==> n !in Apply(w, tx).reg.locks
  {
  }

  lemma QuietExtends(w0: World, txs: seq<Tx>, i: int, n: Address)
    requires txs != [] && Quiet(w0, txs[..|txs| - 1], i, |txs| - 1, n)
    requires !TouchesLock(Run(w0, txs[..|txs| - 1]), txs[|txs| - 1], n)
    ensures Quiet(w0, txs, i, |txs|, n)
  {
    var init := txs[..|txs| - 1];
    Prefixes(txs);
    forall k | i < k < |txs| && 0 <= k < |txs|
      ensures !TouchesLock(Run(w0, txs[..k]), txs[k], n)
    {
      assert k < |init| ==> !TouchesLock(Run(w0, init[..k]), init[k], n);
    }
  }

  /** A stored entry comes from that node's last completed unstake, and unlocks the period in force
      after the ledger time of that call. */
  lemma {:induction false} LockOrigin(w0: World, txs: seq<Tx>, n: Address) returns (i: nat)
    requires AtDeployment(w0) && n in Run(w0, txs).reg.locks
    ensures i < |txs| && Unstakes(Run(w0, txs[..i]), txs[i], n)
    ensures Run(w0, txs).reg.locks[n].amount == txs[i].call.amount
    ensures Run(w0, txs).reg.locks[n].unlocksAt == txs[i].env.timestamp + Run(w0, txs[..i]).reg.lockPeriod
    ensures Quiet(w0, txs, i, |txs|, n)
  {
    var init, last := txs[..|txs| - 1], txs[|txs| - 1];
    var w := Run(w0, init);
    if Unstakes(w, last, n) {
      i := |init|;
    } else {
      FreedLock(w, last, n);
      UntouchedLock(w, last, n);
      i := LockOrigin(w0, init, n);
      QuietExtends(w0, txs, i, n);
      assert init[..i] == txs[..i];
    }
  }

  /** The payout of transaction `j` answers to the unstake of transaction `i`. */
  ghost predicate Answers(w0: World, txs: seq<Tx>, j: int, i: int, n: Address) {
    && 0 <= i < j < |txs|
    && Finalizes(Run(w0, txs[..j]), txs[j], n) && Unstakes(Run(w0, txs[..i]), txs[i], n)
    && FinalizeUnstake(Run(w0, txs[..j]), txs[j].env, n).value == txs[i].call.amount
    && txs[j].env.timestamp >= txs[i].env.timestamp + Run(w0, txs[..i]).reg.lockPeriod
    && Quiet(w0, txs, i, j, n)
  }

  /** Every completed `finalize_unstake` pays exactly the amount of that node's latest completed
      `unstake`, at a ledger time at least the period then in force after it. */
  lemma {:induction false} PaidAfterLock(w0: World, txs: seq<Tx>, j: nat, n: Address)
    requires AtDeployment(w0) && j < |txs| && Finalizes(Run(w0, txs[..j]), txs[j], n)
    ensures exists i :: Answers(w0, txs, j, i, n)
  {
    var prior := txs[..j];
    var i := LockOrigin(w0, prior, n);
    assert forall k :: 0 <= k < j ==> prior[..k] == txs[..k] && prior[k] == txs[k];
    assert Answers(w0, txs, j, i, n);
  }

  /** The same from the side of the unstake: whatever finalizes it next has waited. */
  lemma {:induction false} FinalizeWaits(w0: World, txs: seq<Tx>, i: nat, j: nat, n: Address)
    requires AtDeployment(w0) && i < j < |txs|
    requires Unstakes(Run(w0, txs[..i]), txs[i], n) && Finalizes(Run(w0, txs[..j]), txs[j], n)
    requires Quiet(w0, txs, i, j, n)
    ensures txs[j].env.timestamp >= txs[i].env.timestamp + Run(w0, txs[..i]).reg.lockPeriod
    ensures FinalizeUnstake(Run(w0, txs[..j]), txs[j].env, n).value == txs[i].call.amount
  {
    PaidAfterLock(w0, txs, j, n);
    var m :| Answers(w0, txs, j, m, n);
    assert TouchesLock(Run(w0, txs[..i]), txs[i], n) && TouchesLock(Run(w0, txs[..m]), txs[m], n);
  }

  /** Two completed payouts never answer to one unstake. */
  lemma AnswersOnce(w0: World, txs: seq<Tx>, j: int, j': int, i: int, n: Address, n': Address)
    requires j < j' && Answers(w0, txs, j, i, n)
    ensures !Answers(w0, txs, j', i, n')
  {
    assert TouchesLock(Run(w0, txs[..j]), txs[j], n);
  }

  // ---- Slashing ----

  predicate IsSlashed(w: World, n: Address) {
    n in w.reg.nodes && w.reg.nodes[n].status == Slashed
  }

  ghost predicate SlashStands(w0: World, txs: seq<Tx>, i: int, n: Address) {
    && 0 <= i < |txs| && Slashes(Run(w0, txs[..i]), txs[i], n)
    && forall k :: i < k < |txs| ==> !Reinstates(Run(w0, txs[..k]), txs[k], n)
  }

  lemma SlashedStep(w: World, tx: Tx, n: Address)
    ensures IsSlashed(Apply(w, tx), n) <==>
            Slashes(w, tx, n) || (IsSlashed(w, n) && !Reinstates(w, tx, n))
  {
  }

  lemma StandsAtLast(w0: World, txs: seq<Tx>, i: int, n: Address)
    requires txs != [] && SlashStands(w0, txs, i, n)
    ensures var init, last := txs[..|txs| - 1], txs[|txs| - 1];
            || Slashes(Run(w0, init), last, n)
            || (!Reinstates(Run(w0, init), last, n) && SlashStands(w0, init, i, n))
  {
    Prefixes(txs);
  }

  lemma StandsOn(w0: World, txs: seq<Tx>, i: int, n: Address)
    requires txs != [] && SlashStands(w0, txs[..|txs| - 1], i, n)
    requires !Reinstates(Run(w0, txs[..|txs| - 1]), txs[|txs| - 1], n)
    ensures SlashStands(w0, txs, i, n)
  {
    var init := txs[..|txs| - 1];
    Prefixes(txs);
    forall k | i < k < |txs|
      ensures !Reinstates(Run(w0, txs[..k]), txs[k], n)
    {
      assert k < |init| ==> !Reinstates(Run(w0, init[..k]), init[k], n);
    }
  }

  /** A node is Slashed exactly when a completed `slash` of it has had no completed reinstatement since. */
  lemma {:induction false} SlashedIff(w0: World, txs: seq<Tx>, n: Address)
    requires AtDeployment(w0)
    ensures IsSlashed(Run(w0, txs), n) <==> exists i :: SlashStands(w0, txs, i, n)
  {
    if txs != [] {
      var init := txs[..|txs| - 1];
      SlashedIff(w0, init, n);
      SlashedStep(Run(w0, init), txs[|txs| - 1], n);
      if i :| SlashStands(w0, txs, i, n) {
        StandsAtLast(w0, txs, i, n);
      }
      if Slashes(Run(w0, init), txs[|txs| - 1], n) {
        assert SlashStands(w0, txs, |init|, n);
      } else if i :| IsSlashed(Run(w0, txs), n) && SlashStands(w0, init, i, n) {
        StandsOn(w0, txs, i, n);
      }
    }
  }

  /** Until then it holds nothing and every attempt to stake or unstake is refused. */
  lemma {:induction false} SlashedRefused(w0: World, txs: seq<Tx>, i: int, env: Env, n: Address, a: I128)
    requires AtDeployment(w0) && AllLegitimate(w0.reg.self, txs) && SlashStands(w0, txs, i, n)
    requires n in env.auths
    ensures var w := Run(w0, txs);
            && IsSlashed(w, n) && w.reg.nodes[n].stake == 0 && n !in w.reg.locks
            && Stake(w, env, n, a) == Failed(NodeSlashed)
            && (a > 0 ==> Unstake(w, env, n, a) == Failed(NodeSlashed))
            && FinalizeUnstake(w, env, n) == Failed(NoPendingUnstake)
  {
    SlashedIff(w0, txs, n);
    RunIsSolid(w0, txs);
    assert NodeSound(Run(w0, txs).reg, n);
  }

  // ---- What a node says of itself ----

  datatype Profile = Profile(metadata: Metadata, registeredAt: U64, lastActive: U64)

  ghost predicate Acts(w: World, tx: Tx, n: Address) {
    match tx.call
    case CallStake(m, a) => m == n && Stake(w, tx.env, n, a).Done?
    case CallUnstake(m, a) => m == n && Unstake(w, tx.env, n, a).Done?
    case CallSlash(m) => m == n && Slash(w, tx.env, n).Done?
    case CallReinstate(m) => m == n && Reinstate(w, tx.env, n).Done?
    case _ => false
  }

  /** Read off the transactions: the metadata last accepted, the time of registration, and the time
      of the last change of stake or standing. */
  ghost function ProfileIn(w0: World, txs: seq<Tx>, n: Address): Option<Profile> {
    if txs == [] then None else
      var w, tx := Run(w0, txs[..|txs| - 1]), txs[|txs| - 1];
      var prior, now := ProfileIn(w0, txs[..|txs| - 1], n), tx.env.timestamp;
      if tx.call.CallRegister? && tx.call.node == n && Register(w, tx.env, n, tx.call.metadata).Done?
      then Some(Profile(tx.call.metadata, now, now))
      else if prior.None? then None
      else if tx.call.CallUpdateMetadata? && tx.call.node == n && UpdateMetadata(w, tx.env, n, tx.call.metadata).Done?
      then Some(prior.value.(metadata := tx.call.metadata))
      else if Acts(w, tx, n) then Some(prior.value.(lastActive := now))
      else prior
  }

  function StoredProfile(w: World, n: Address): Option<Profile> {
    if n in w.reg.nodes
    then Some(Profile(w.reg.nodes[n].metadata, w.reg.nodes[n].registeredAt, w.reg.nodes[n].lastActive))
    else None
  }

  lemma ProfileStep(w: World, tx: Tx, n: Address)
    ensures var prior, now, stored := StoredProfile(w, n), tx.env.timestamp, StoredProfile(Apply(w, tx), n);
            if tx.call.CallRegister? && tx.call.node == n && Register(w, tx.env, n, tx.call.metadata).Done?
            then stored == Some(Profile(tx.call.metadata, now, now))
            else if prior.None? then stored == None
            else if tx.call.CallUpdateMetadata? && tx.call.node == n
                    && UpdateMetadata(w, tx.env, n, tx.call.metadata).Done?
            then stored == Some(prior.value.(metadata := tx.call.metadata))
            else if Acts(w, tx, n) then stored == Some(prior.value.(lastActive := now))
            else stored == prior
  {
  }

  lemma {:induction false} ProfileIsHistory(w0: World, txs: seq<Tx>, n: Address)
    requires AtDeployment(w0)
    ensures StoredProfile(Run(w0, txs), n) == ProfileIn(w0, txs, n)
  {
    if txs != [] {
      ProfileIsHistory(w0, txs[..|txs| - 1], n);
      ProfileStep(Run(w0, txs[..|txs| - 1]), txs[|txs| - 1], n);
    }
  }
}
