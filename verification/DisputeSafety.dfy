/** What every run of the dispute resolver keeps, when each call completes, and who wins. */
module DisputeSafety {
  import opened Base
  import opened MapSum
  import opened Council
  import opened Dispute

  // ---- Invariant ----

  /** The only winner the stored proofs allow: the initiator by default or with the lower or equal
      sequence, the respondent otherwise. */
  function Winner(c: Case): Address {
    if c.respondentProof.Some? && c.respondentProof.value.sequence < c.initiatorProof.sequence
    then c.respondent else c.initiator
  }

  ghost predicate CaseSound(s: State, id: U64)
    requires id in s.disputes
  {
    var c := s.disputes[id];
    && c.id == id && c.initiator != c.respondent
    && c.status != Expired
    && (c.status == Open ==> c.respondentProof.None?)
    && (c.status == Responded ==> c.respondentProof.Some?)
    && (id in s.rulings <==> c.status == Resolved)
    && c.tx in s.txIndex && s.txIndex[c.tx] == id
  }

  /** A ruling names both parties, and the winner is the one the frozen proofs decide. */
  ghost predicate RulingSound(s: State, id: U64)
    requires id in s.rulings
  {
    && id in s.disputes
    && var c, r := s.disputes[id], s.rulings[id];
       && r.id == id && r.winner == Winner(c)
       && r.loser == (if r.winner == c.initiator then c.respondent else c.initiator)
       && r.reason == (if c.respondentProof.None? then NoResponse
                       else if r.winner == c.initiator then InitiatorNotLater else RespondentEarlier)
  }

  ghost predicate DisputeInvariant(s: State) {
    && (s.council.Some? ==> Accepted(s.council.value) && s.window > 0)
    && (forall id: U64 :: id in s.disputes <==> 1 <= id <= s.count)
    && (forall id :: id in s.disputes ==> CaseSound(s, id))
    && (forall id :: id in s.rulings ==> RulingSound(s, id))
    && (forall tx :: tx in s.txIndex ==> s.txIndex[tx] in s.disputes && s.disputes[s.txIndex[tx]].tx == tx)
  }

  // ---- What no later step undoes ----

  function Rank(c: Case): int {
    match c.status
    case Open => 2
    case Responded => 1
    case Resolved => 0
    case Expired => 0
  }

  predicate CaseContinues(c: Case, d: Case) {
    && d.id == c.id && d.tx == c.tx && d.initiator == c.initiator && d.respondent == c.respondent
    && d.initiatorProof == c.initiatorProof && d.resolveBy == c.resolveBy && d.raisedAt == c.raisedAt
    && Rank(d) <= Rank(c)
    && (c.status != Open ==> d.respondentProof == c.respondentProof)
    && (c.status == Resolved ==> d.status == Resolved)
  }

  ghost predicate Continues(a: State, b: State) {
    && a.keys == b.keys && a.count <= b.count
    && (a.council.Some? ==> b.council == a.council && b.window == a.window)
    && (forall id :: id in a.disputes ==> id in b.disputes && CaseContinues(a.disputes[id], b.disputes[id]))
    && (forall id :: id in a.rulings ==> id in b.rulings && b.rulings[id] == a.rulings[id])
    && (forall tx :: tx in a.txIndex ==> tx in b.txIndex && b.txIndex[tx] == a.txIndex[tx])
  }

  ghost function RankSum(s: State): int {
    SumBy(s.disputes, Rank)
  }

  ghost predicate GoodStep(a: State, b: State, progress: nat) {
    && DisputeInvariant(b) && Continues(a, b)
    && progress + RankSum(b) - 2 * b.count <= RankSum(a) - 2 * a.count
  }

  /** `b` is `a` with one case rewritten or added, and perhaps ruled on. */
  ghost predicate Rewritten(a: State, b: State, id: U64) {
    && b.keys == a.keys && b.council == a.council && b.window == a.window
    && id in b.disputes && CaseSound(b, id)
    && b.disputes == a.disputes[id := b.disputes[id]]
    && (b.rulings == a.rulings || (id in b.rulings && b.rulings == a.rulings[id := b.rulings[id]]))
    && id !in a.rulings && (id in b.rulings ==> RulingSound(b, id))
    && if id in a.disputes
       then b.txIndex == a.txIndex && b.count == a.count && CaseContinues(a.disputes[id], b.disputes[id])
       else id == b.count == a.count + 1 && b.disputes[id].tx !in a.txIndex
            && b.txIndex == a.txIndex[b.disputes[id].tx := id]
  }

  lemma RewriteKeepsCases(a: State, b: State, id: U64)
    requires DisputeInvariant(a) && Rewritten(a, b, id)
    ensures forall j :: j in b.disputes ==> CaseSound(b, j)
    ensures forall j :: j in b.rulings ==> RulingSound(b, j)
  {
    forall j | j in b.disputes
      ensures CaseSound(b, j)
    {
      if j != id {
        assert CaseSound(a, j);
      }
    }
    forall j | j in b.rulings
      ensures RulingSound(b, j)
    {
      if j != id {
        assert RulingSound(a, j);
      }
    }
  }

  lemma RewriteKeepsIndex(a: State, b: State, id: U64)
    requires DisputeInvariant(a) && Rewritten(a, b, id)
    ensures forall j: U64 :: j in b.disputes <==> 1 <= j <= b.count
    ensures forall tx :: tx in b.txIndex ==> b.txIndex[tx] in b.disputes && b.disputes[b.txIndex[tx]].tx == tx
  {
  }

  lemma RewriteContinues(a: State, b: State, id: U64)
    requires DisputeInvariant(a) && Rewritten(a, b, id)
    ensures Continues(a, b)
  {
  }

  lemma RewriteKeeps(a: State, b: State, id: U64)
    requires DisputeInvariant(a) && Rewritten(a, b, id)
    ensures DisputeInvariant(b) && Continues(a, b)
    ensures RankSum(b) == RankSum(a) + Rank(b.disputes[id]) - if id in a.disputes then Rank(a.disputes[id]) else 0
  {
    SumByUpdate(a.disputes, Rank, id, b.disputes[id]);
    RewriteKeepsCases(a, b, id);
    RewriteKeepsIndex(a, b, id);
    RewriteContinues(a, b, id);
  }

  lemma RaiseStep(s: State, env: Env, i: Address, r: Address, tx: TxId, p: Proof)
    requires DisputeInvariant(s)
    ensures GoodStep(s, WorldAfter(s, Raise(s, env, i, r, tx, p)), 0)
  {
    var o := Raise(s, env, i, r, tx, p);
    if o.Done? {
      assert o.value !in s.disputes;
      RewriteKeeps(s, o.world, o.value);
    }
  }

  lemma RespondStep(s: State, env: Env, party: Address, id: U64, p: Proof)
    requires DisputeInvariant(s)
    ensures var o := Respond(s, env, party, id, p);
            GoodStep(s, WorldAfter(s, o), if o.Done? then 1 else 0)
  {
    var o := Respond(s, env, party, id, p);
    if o.Done? {
      assert CaseSound(s, id);
      RewriteKeeps(s, o.world, id);
    }
  }

  lemma ResolveStep(s: State, verify: Verifier, env: Env, id: U64)
    requires DisputeInvariant(s)
    ensures var o := Resolve(s, verify, env, id);
            GoodStep(s, WorldAfter(s, o), if o.Done? then 1 else 0)
  {
    var o := Resolve(s, verify, env, id);
    if o.Done? {
      assert CaseSound(s, id);
      RewriteKeeps(s, o.world, id);
    }
  }

  lemma ReconfigureKeeps(a: State, b: State)
    requires DisputeInvariant(a)
    requires b == a.(council := b.council, window := b.window)
    requires b.council.Some? ==> Accepted(b.council.value) && b.window > 0
    ensures DisputeInvariant(b)
  {
    forall j | j in b.disputes
      ensures CaseSound(b, j)
    {
      assert CaseSound(a, j);
    }
    forall j | j in b.rulings
      ensures RulingSound(b, j)
    {
      assert RulingSound(a, j);
    }
  }

  lemma InitializeStep(s: State, c: AdminCouncil, window: U32)
    requires DisputeInvariant(s)
    ensures GoodStep(s, WorldAfter(s, Initialize(s, c, window)), 0)
  {
    ReconfigureKeeps(s, WorldAfter(s, Initialize(s, c, window)));
  }

  lemma EveryStepGood(s: State, verify: Verifier, tx: Tx)
    requires DisputeInvariant(s)
    ensures GoodStep(s, Apply(s, verify, tx), Progress(s, verify, tx))
  {
    match tx.call
    case CallInitialize(c, w) => InitializeStep(s, c, w);
    case CallRaise(i, r, t, p) => RaiseStep(s, tx.env, i, r, t, p);
    case CallRespond(party, id, p) => RespondStep(s, tx.env, party, id, p);
    case CallResolve(id) => ResolveStep(s, verify, tx.env, id);
  }

  lemma ContinuesChain(a: State, b: State, c: State)
    requires Continues(a, b) && Continues(b, c)
    ensures Continues(a, c)
  {
  }

  // ---- Every run ----

  /** From any sound state: the invariant holds on, parties, deadlines and given proofs stand, rulings
      are final, and responses and resolutions are paid for by the rank. */
  lemma {:induction false} RunIsSound(s0: State, verify: Verifier, txs: seq<Tx>)
    requires DisputeInvariant(s0)
    ensures GoodStep(s0, Run(s0, verify, txs), TotalProgress(s0, verify, txs))
  {
    if txs != [] {
      var s, tx := Run(s0, verify, txs[..|txs| - 1]), txs[|txs| - 1];
      RunIsSound(s0, verify, txs[..|txs| - 1]);
      EveryStepGood(s, verify, tx);
      ContinuesChain(s0, s, Apply(s, verify, tx));
    }
  }

  /** From deployment, at most two completed responses and resolutions for each dispute ever raised. */
  lemma {:induction false} ProgressBounded(keys: map<Address, PublicKey>, verify: Verifier, txs: seq<Tx>)
    ensures DisputeInvariant(Run(Deployed(keys), verify, txs))
    ensures TotalProgress(Deployed(keys), verify, txs) <= 2 * Run(Deployed(keys), verify, txs).count
  {
    RunIsSound(Deployed(keys), verify, txs);
    var s := Run(Deployed(keys), verify, txs);
    SumByNonNegative(s.disputes, Rank);
  }

  /** The index maps a transaction to a dispute exactly when that dispute is about it, so each
      transaction has at most one dispute and each dispute is found. */
  lemma {:induction false} IndexIsBijection(keys: map<Address, PublicKey>, verify: Verifier, txs: seq<Tx>,
                                           tx: TxId, id: U64)
    ensures var s := Run(Deployed(keys), verify, txs);
            && (tx in s.txIndex && s.txIndex[tx] == id <==> id in s.disputes && s.disputes[id].tx == tx)
            && (id in s.disputes <==> 1 <= id <= s.count)
  {
    ProgressBounded(keys, verify, txs);
    var s := Run(Deployed(keys), verify, txs);
    assert id in s.disputes ==> CaseSound(s, id);
  }

  // ---- When calls complete ----

  ghost predicate BothVerify(s: State, verify: Verifier, c: Case) {
    && c.respondentProof.Some? && c.initiator in s.keys && c.respondent in s.keys
    && verify(s.keys[c.initiator], c.initiatorProof.chainHash, c.initiatorProof.signature)
    && verify(s.keys[c.respondent], c.respondentProof.value.chainHash, c.respondentProof.value.signature)
  }

  /** All outcomes of `resolve` in a reachable state. `NotResponded`, `InvalidProofSignature` and
      the two rulings for a single valid proof cannot occur. */
  lemma {:induction false} ResolveExactly(keys: map<Address, PublicKey>, verify: Verifier, txs: seq<Tx>,
                                         env: Env, id: U64)
    ensures var s := Run(Deployed(keys), verify, txs);
            var o := Resolve(s, verify, env, id);
            && (o == Failed(DisputeNotFound) <==> id !in s.disputes)
            && (id in s.disputes ==>
                  var c := s.disputes[id];
                  && (o.Done? <==> || (c.status == Open && env.sequence > c.resolveBy)
                                   || (c.status == Responded && BothVerify(s, verify, c)))
                  && (o == Failed(DisputeAlreadyResolved) <==> c.status == Resolved)
                  && (o == Failed(ResolutionWindowActive) <==> c.status == Open && env.sequence <= c.resolveBy)
                  && (o == Aborted <==> c.status == Responded && !BothVerify(s, verify, c)))
            && o != Failed(NotResponded) && o != Failed(InvalidProofSignature)
            && (o.Done? ==> o.value.reason in {NoResponse, InitiatorNotLater, RespondentEarlier})
  {
    ProgressBounded(keys, verify, txs);
    var s := Run(Deployed(keys), verify, txs);
    assert id in s.disputes ==> CaseSound(s, id);
  }

  /** No race on an open dispute: at any ledger sequence exactly one of a timely response by its
      respondent and a default resolution completes. */
  lemma RespondOrDefault(s: State, verify: Verifier, answerEnv: Env, resolveEnv: Env, id: U64, proof: Proof)
    requires id in s.disputes && s.disputes[id].status == Open
    requires s.disputes[id].respondent in answerEnv.auths && answerEnv.sequence == resolveEnv.sequence
    ensures Respond(s, answerEnv, s.disputes[id].respondent, id, proof).Done? <==>
            !Resolve(s, verify, resolveEnv, id).Done?
  {
  }

  /** Once a dispute is answered, its outcome no longer depends on time, caller or other disputes:
      in every continuation a ruling, if there is one, is for the winner of the frozen proofs. */
  lemma {:induction false} VerdictFixed(s: State, verify: Verifier, txs: seq<Tx>, id: U64)
    requires DisputeInvariant(s) && id in s.disputes && s.disputes[id].status == Responded
    ensures var later := Run(s, verify, txs);
            && id in later.disputes && later.disputes[id].status in {Responded, Resolved}
            && later.disputes[id].respondentProof == s.disputes[id].respondentProof
            && (id in later.rulings <==> later.disputes[id].status == Resolved)
            && (id in later.rulings ==> later.rulings[id].winner == Winner(s.disputes[id]))
  {
    RunIsSound(s, verify, txs);
    var later := Run(s, verify, txs);
    assert CaseContinues(s.disputes[id], later.disputes[id]);
    assert CaseSound(later, id);
    assert id in later.rulings ==> RulingSound(later, id);
  }

  lemma RulingNamesBoth(s: State, id: U64)
    requires id in s.rulings && RulingSound(s, id) && CaseSound(s, id)
    ensures {s.rulings[id].winner, s.rulings[id].loser} == {s.disputes[id].initiator, s.disputes[id].respondent}
    ensures s.rulings[id].winner != s.rulings[id].loser
  {
  }

  /** A ruling, once issued, is the same in every continuation, with two different parties in it. */
  lemma {:induction false} RulingFinal(s: State, verify: Verifier, txs: seq<Tx>, id: U64)
    requires DisputeInvariant(s) && id in s.rulings
    ensures var later := Run(s, verify, txs);
            && id in later.rulings && later.rulings[id] == s.rulings[id]
            && id in s.disputes
            && {s.rulings[id].winner, s.rulings[id].loser} == {s.disputes[id].initiator, s.disputes[id].respondent}
            && s.rulings[id].winner != s.rulings[id].loser
  {
    assert RulingSound(s, id) && CaseSound(s, id);
    RulingNamesBoth(s, id);
    RunIsSound(s, verify, txs);
  }

  lemma UnverifiedStep(s: State, verify: Verifier, tx: Tx, id: U64)
    requires id in s.disputes && id <= s.count && s.disputes[id].status == Responded
    requires !BothVerify(s, verify, s.disputes[id])
    ensures var next := Apply(s, verify, tx);
            next.keys == s.keys && id in next.disputes && next.disputes[id] == s.disputes[id]
  {
  }

  lemma {:induction false} UnverifiedStays(s: State, verify: Verifier, txs: seq<Tx>, id: U64)
    requires DisputeInvariant(s) && id in s.disputes && s.disputes[id].status == Responded
    requires !BothVerify(s, verify, s.disputes[id])
    ensures var later := Run(s, verify, txs);
            later.keys == s.keys && id in later.disputes && later.disputes[id] == s.disputes[id]
  {
    if txs != [] {
      var mid := Run(s, verify, txs[..|txs| - 1]);
      UnverifiedStays(s, verify, txs[..|txs| - 1], id);
      assert id <= mid.count by {
        RunIsSound(s, verify, txs[..|txs| - 1]);
      }
      UnverifiedStep(mid, verify, txs[|txs| - 1], id);
    }
  }

  lemma UnverifiedNeverRuled(s: State, verify: Verifier, txs: seq<Tx>, id: U64)
    requires DisputeInvariant(s) && id in s.disputes && s.disputes[id].status == Responded
    requires !BothVerify(s, verify, s.disputes[id])
    ensures id !in Run(s, verify, txs).rulings
  {
    UnverifiedStays(s, verify, txs, id);
    RunIsSound(s, verify, txs);
    assert CaseSound(Run(s, verify, txs), id);
  }

  lemma VerifiedResolves(s: State, verify: Verifier, id: U64) returns (txs: seq<Tx>)
    requires id in s.disputes && s.disputes[id].status == Responded && BothVerify(s, verify, s.disputes[id])
    ensures id in Run(s, verify, txs).rulings
  {
    txs := [Tx(Env(0, 0, {}), CallResolve(id))];
    assert Run(s, verify, txs[..0]) == s;
  }

  /** An answered dispute can still get a ruling, by whatever later calls, exactly when both keys are
      registered and both signatures verify. Otherwise `resolve` panics forever, even when only
      one side's proof is bad. */
  lemma AnsweredResolvableIff(s: State, verify: Verifier, id: U64)
    requires DisputeInvariant(s) && id in s.disputes && s.disputes[id].status == Responded
    ensures (exists txs :: id in Run(s, verify, txs).rulings) <==> BothVerify(s, verify, s.disputes[id])
  {
    if BothVerify(s, verify, s.disputes[id]) {
      var txs := VerifiedResolves(s, verify, id);
      assert id in Run(s, verify, txs).rulings;
    } else {
      forall txs
        ensures id !in Run(s, verify, txs).rulings
      {
        UnverifiedNeverRuled(s, verify, txs, id);
      }
    }
  }

  // ---- A dispute one bad signature blocks ----

  const GOOD := Signature(1)
  const BAD := Signature(0)

  function OnlyGood(): Verifier {
    (key, hash, signature) => signature == GOOD
  }

  const PARTIES := map[Address(1) := PublicKey(1), Address(2) := PublicKey(2)]

  function Blocked(): seq<Tx> {
    var env := Env(0, 0, {Address(1), Address(2)});
    [ Tx(env, CallRaise(Address(1), Address(2), TxId(0), Proof(GOOD, Hash(0), 5))),
      Tx(env, CallRespond(Address(2), 1, Proof(BAD, Hash(0), 3))) ]
  }

  /** Both keys registered, the initiator's proof valid, the respondent's not: the initiator does not
      win, `resolve` panics for every caller at every time. */
  lemma OneBadSignatureBlocks(env: Env)
    ensures var s := Run(Deployed(PARTIES), OnlyGood(), Blocked());
            && DisputeInvariant(s) && s.keys == PARTIES
            && 1 in s.disputes && s.disputes[1].status == Responded && s.disputes[1].respondentProof.Some?
            && VerifyProof(OnlyGood(), PARTIES[Address(1)], s.disputes[1].initiatorProof) == Some(true)
            && VerifyProof(OnlyGood(), PARTIES[Address(2)], s.disputes[1].respondentProof.value) == None
            && Resolve(s, OnlyGood(), env, 1) == Aborted
  {
    var s0, txs := Deployed(PARTIES), Blocked();
    ProgressBounded(PARTIES, OnlyGood(), txs);
    assert txs == [] + [txs[0]] + [txs[1]];
    RunAppend(s0, OnlyGood(), [], txs[0]);
    RunAppend(s0, OnlyGood(), [] + [txs[0]], txs[1]);
  }
}
