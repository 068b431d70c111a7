/** Disputes against their transactions: who raised, answered and resolved each, with what, and when. */
module DisputeHistory {
  import opened Base
  import opened Council
  import opened Dispute
  import opened DisputeSafety

  // ---- When calls complete ----

  lemma InitializeExactly(s: State, council: AdminCouncil, window: U32)
    ensures var o := Initialize(s, council, window);
            && (o.Done? <==> s.council.None? && window > 0 && Accepted(council))
            && (o == Failed(AlreadyInitialized) <==> s.council.Some?)
            && (o == Failed(InvalidConfig) <==> s.council.None? && window == 0)
            && (o == Failed(InvalidCouncilConfig) <==> s.council.None? && window > 0 && !Accepted(council))
            && (o.Done? ==> o.world == s.(council := Some(council), window := window))
  {
  }

  /** Council and window of the completed `initialize` stay for good. */
  lemma {:induction false} AfterInitialize(keys: map<Address, PublicKey>, verify: Verifier, early: seq<Tx>,
                                           council: AdminCouncil, window: U32, txs: seq<Tx>)
    ensures var before := Run(Deployed(keys), verify, early);
            var o := Initialize(before, council, window);
            && (o.Done? <==> before.council.None? && window > 0 && Accepted(council))
            && (o.Done? ==> Run(o.world, verify, txs).council == Some(council)
                            && Run(o.world, verify, txs).window == window)
  {
    ProgressBounded(keys, verify, early);
    var before := Run(Deployed(keys), verify, early);
    if Initialize(before, council, window).Done? {
      InitializeStep(before, council, window);
      RunIsSound(Initialize(before, council, window).world, verify, txs);
    }
  }

  /** When `raise_dispute` completes in a sound state, and the case it opens. */
  lemma RaiseExactly(s: State, env: Env, initiator: Address, respondent: Address, tx: TxId, proof: Proof)
    requires DisputeInvariant(s)
    ensures var o := Raise(s, env, initiator, respondent, tx, proof);
            && (o.Done? <==> && initiator in env.auths && initiator != respondent && tx !in s.txIndex
                             && s.count < U64_MAX && env.sequence + s.window <= U32_MAX)
            && (o == Failed(InvalidRespondent) <==> initiator in env.auths && initiator == respondent)
            && (o == Failed(DuplicateDispute) <==>
                initiator in env.auths && initiator != respondent && tx in s.txIndex)
            && (o.Failed? ==> o.error in {InvalidRespondent, DuplicateDispute})
            && (o.Done? ==>
                  && o.value !in s.disputes && o.value in o.world.disputes
                  && o.world.disputes[o.value] == Case(o.value, tx, initiator, respondent, proof, None, Open,
                                                       env.timestamp, env.sequence + s.window)
                  && o.world.disputes - {o.value} == s.disputes
                  && o.world == s.(count := s.count + 1, disputes := o.world.disputes,
                                   txIndex := s.txIndex[tx := o.value]))
  {
  }

  /** Only the named respondent, signing, can answer, once and in time. */
  lemma RespondExactly(s: State, env: Env, party: Address, id: U64, p: Proof)
    ensures var o := Respond(s, env, party, id, p);
            && (o.Done? <==> && id in s.disputes && s.disputes[id].status == Open && s.disputes[id].respondent == party
                             && party in env.auths && env.sequence <= s.disputes[id].resolveBy)
            && (o == Failed(DisputeNotFound) <==> party in env.auths && id !in s.disputes)
            && (o == Failed(UnauthorizedRespondent) <==>
                party in env.auths && id in s.disputes && s.disputes[id].respondent != party)
            && (o == Failed(NotOpen) <==> && party in env.auths && id in s.disputes
                                          && s.disputes[id].respondent == party && s.disputes[id].status != Open)
            && (o == Failed(ResolutionWindowExpired) <==>
                && party in env.auths && id in s.disputes && s.disputes[id].respondent == party
                && s.disputes[id].status == Open && env.sequence > s.disputes[id].resolveBy)
            && (o.Done? ==>
                  && id in o.world.disputes
                  && o.world.disputes[id] == s.disputes[id].(respondentProof := Some(p), status := Responded)
                  && o.world.disputes - {id} == s.disputes - {id}
                  && o.world == s.(disputes := o.world.disputes))
  {
  }

  // ---- Where cases come from ----

  lemma Prefixes(txs: seq<Tx>)
    requires txs != []
    ensures var init := txs[..|txs| - 1];
            forall k :: 0 <= k < |init| ==> init[..k] == txs[..k] && init[k] == txs[k]
  {
  }

  /** The state the `k`-th transaction meets. */
  function At(keys: map<Address, PublicKey>, verify: Verifier, txs: seq<Tx>, k: nat): State
    requires k <= |txs|
  {
    Run(Deployed(keys), verify, txs[..k])
  }

  /** Transaction `i`, signed by the initiator, raised what is stored as this case. */
  predicate Raised(s: State, tx: Tx, id: U64, c: Case) {
    && tx.call == CallRaise(c.initiator, c.respondent, c.tx, c.initiatorProof) && c.initiator in tx.env.auths
    && Raise(s, tx.env, c.initiator, c.respondent, c.tx, c.initiatorProof).Done?
    && Raise(s, tx.env, c.initiator, c.respondent, c.tx, c.initiatorProof).value == id
    && c.raisedAt == tx.env.timestamp && c.resolveBy == tx.env.sequence + s.window
  }

  lemma RaisedStep(s: State, verify: Verifier, tx: Tx, id: U64)
    requires DisputeInvariant(s) && id in Apply(s, verify, tx).disputes && id !in s.disputes
    ensures Raised(s, tx, id, Apply(s, verify, tx).disputes[id])
  {
    OnlyRaiseAdds(s, verify, tx, id);
    RaiseExactly(s, tx.env, tx.call.initiator, tx.call.respondent, tx.call.tx, tx.call.proof);
  }

  lemma OnlyRaiseAdds(s: State, verify: Verifier, tx: Tx, id: U64)
    requires id in Apply(s, verify, tx).disputes && id !in s.disputes
    ensures tx.call.CallRaise?
  {
    match tx.call
    case CallResolve(which) => ResolveKeeps(s, verify, tx.env, which);
    case CallRespond(party, which, p) => RespondExactly(s, tx.env, party, which, p);
    case _ =>
  }

  /** `resolve` touches the status of its own dispute and its own ruling, nothing else. */
  lemma ResolveKeeps(s: State, verify: Verifier, env: Env, which: U64)
    ensures var o := Resolve(s, verify, env, which);
            o.Done? ==>
              && which in s.disputes && o.world.rulings == s.rulings[which := o.value]
              && o.world.disputes == s.disputes[which := s.disputes[which].(status := Resolved)]
              && o.value.resolvedAt == env.timestamp && s.disputes[which].status != Resolved
  {
  }

  predicate RaisedIn(keys: map<Address, PublicKey>, verify: Verifier, txs: seq<Tx>, i: nat, id: U64, c: Case) {
    i < |txs| && Raised(At(keys, verify, txs, i), txs[i], id, c)
  }

  lemma RaisedStays(keys: map<Address, PublicKey>, verify: Verifier, txs: seq<Tx>, i: nat, id: U64, c: Case, d: Case)
    requires txs != [] && RaisedIn(keys, verify, txs[..|txs| - 1], i, id, c) && CaseContinues(c, d)
    ensures RaisedIn(keys, verify, txs, i, id, d)
  {
    Prefixes(txs);
  }

  lemma CaseStays(s: State, verify: Verifier, tx: Tx, id: U64)
    requires DisputeInvariant(s) && id in s.disputes
    ensures id in Apply(s, verify, tx).disputes && CaseContinues(s.disputes[id], Apply(s, verify, tx).disputes[id])
  {
    EveryStepGood(s, verify, tx);
  }

  /** Every dispute was raised by its initiator, who signed for these parties, this transaction and
      this proof; its deadline is the window then in force after the ledger sequence of that call. */
  lemma {:induction false} RaisedByInitiator(keys: map<Address, PublicKey>, verify: Verifier, txs: seq<Tx>, id: U64)
    requires id in Run(Deployed(keys), verify, txs).disputes
    ensures exists i: nat :: RaisedIn(keys, verify, txs, i, id, Run(Deployed(keys), verify, txs).disputes[id])
  {
    var init, last := txs[..|txs| - 1], txs[|txs| - 1];
    var s := Run(Deployed(keys), verify, init);
    ProgressBounded(keys, verify, init);
    if id in s.disputes {
      RaisedByInitiator(keys, verify, init, id);
      var i: nat :| RaisedIn(keys, verify, init, i, id, s.disputes[id]);
      CaseStays(s, verify, last, id);
      RaisedStays(keys, verify, txs, i, id, s.disputes[id], Apply(s, verify, last).disputes[id]);
    } else {
      RaisedStep(s, verify, last, id);
      assert RaisedIn(keys, verify, txs, |init|, id, Apply(s, verify, last).disputes[id]);
    }
  }

  /** The transaction answered the dispute: signed by the respondent named in it, in time, with this proof. */
  predicate Answered(s: State, tx: Tx, id: U64, p: Proof) {
    && id in s.disputes && tx.call == CallRespond(s.disputes[id].respondent, id, p)
    && s.disputes[id].respondent in tx.env.auths && tx.env.sequence <= s.disputes[id].resolveBy
    && Respond(s, tx.env, s.disputes[id].respondent, id, p).Done?
  }

  predicate HasProof(s: State, id: U64, p: Proof) {
    id in s.disputes && s.disputes[id].respondentProof == Some(p)
  }

  lemma AnsweredStep(s: State, verify: Verifier, tx: Tx, id: U64, p: Proof)
    requires DisputeInvariant(s)
    ensures HasProof(Apply(s, verify, tx), id, p) <==> Answered(s, tx, id, p) || HasProof(s, id, p)
  {
    assert id in s.disputes ==> CaseSound(s, id);
    match tx.call
    case CallRaise(i, r, t, q) => RaiseExactly(s, tx.env, i, r, t, q);
    case CallRespond(party, which, q) => RespondExactly(s, tx.env, party, which, q);
    case CallResolve(which) => ResolveKeeps(s, verify, tx.env, which);
    case _ =>
  }

  /** A dispute holds a respondent's proof exactly when its named respondent submitted it in a
      completed, signed and timely `respond`. */
  lemma {:induction false} AnsweredIff(keys: map<Address, PublicKey>, verify: Verifier, txs: seq<Tx>, id: U64, p: Proof)
    ensures HasProof(Run(Deployed(keys), verify, txs), id, p) <==>
            exists j: nat :: j < |txs| && Answered(At(keys, verify, txs, j), txs[j], id, p)
  {
    if txs != [] {
      var init, last := txs[..|txs| - 1], txs[|txs| - 1];
      var s := Run(Deployed(keys), verify, init);
      ProgressBounded(keys, verify, init);
      AnsweredIff(keys, verify, init, id, p);
      AnsweredStep(s, verify, last, id, p);
      AnsweredSplits(keys, verify, txs, id, p);
    }
  }

  lemma AnsweredSplits(keys: map<Address, PublicKey>, verify: Verifier, txs: seq<Tx>, id: U64, p: Proof)
    requires txs != []
    ensures var init := txs[..|txs| - 1];
            (exists j: nat :: j < |txs| && Answered(At(keys, verify, txs, j), txs[j], id, p)) <==>
            || Answered(Run(Deployed(keys), verify, init), txs[|txs| - 1], id, p)
            || exists j: nat :: j < |init| && Answered(At(keys, verify, init, j), init[j], id, p)
  {
    var init := txs[..|txs| - 1];
    Prefixes(txs);
    assert At(keys, verify, txs, |init|) == Run(Deployed(keys), verify, init);
    if Answered(Run(Deployed(keys), verify, init), txs[|txs| - 1], id, p) {
      assert Answered(At(keys, verify, txs, |init|), txs[|init|], id, p);
    }
    if j: nat :| j < |init| && Answered(At(keys, verify, init, j), init[j], id, p) {
      assert Answered(At(keys, verify, txs, j), txs[j], id, p);
    }
    if j: nat :| j < |txs| && Answered(At(keys, verify, txs, j), txs[j], id, p) {
      assert j == |init| || Answered(At(keys, verify, init, j), init[j], id, p);
    }
  }

  /** The transaction resolved the dispute with this ruling, dated with its own ledger time. */
  predicate Issued(s: State, verify: Verifier, tx: Tx, id: U64, r: Ruling) {
    && tx.call == CallResolve(id)
    && Resolve(s, verify, tx.env, id).Done? && Resolve(s, verify, tx.env, id).value == r
    && r.resolvedAt == tx.env.timestamp
  }

  predicate HasRuling(s: State, id: U64, r: Ruling) {
    id in s.rulings && s.rulings[id] == r
  }

  lemma IssuedStep(s: State, verify: Verifier, tx: Tx, id: U64, r: Ruling)
    requires DisputeInvariant(s)
    ensures HasRuling(Apply(s, verify, tx), id, r) <==> Issued(s, verify, tx, id, r) || HasRuling(s, id, r)
  {
    assert id in s.disputes ==> CaseSound(s, id);
    assert id in s.rulings ==> RulingSound(s, id);
    match tx.call
    case CallResolve(which) => ResolveKeeps(s, verify, tx.env, which);
    case _ =>
  }

  /** A ruling is stored exactly when a completed `resolve` of that dispute returned it. */
  lemma {:induction false} IssuedIff(keys: map<Address, PublicKey>, verify: Verifier, txs: seq<Tx>, id: U64, r: Ruling)
    ensures HasRuling(Run(Deployed(keys), verify, txs), id, r) <==>
            exists k: nat :: k < |txs| && Issued(At(keys, verify, txs, k), verify, txs[k], id, r)
  {
    if txs != [] {
      var init, last := txs[..|txs| - 1], txs[|txs| - 1];
      var s := Run(Deployed(keys), verify, init);
      ProgressBounded(keys, verify, init);
      IssuedIff(keys, verify, init, id, r);
      IssuedStep(s, verify, last, id, r);
      IssuedSplits(keys, verify, txs, id, r);
    }
  }

  lemma IssuedSplits(keys: map<Address, PublicKey>, verify: Verifier, txs: seq<Tx>, id: U64, r: Ruling)
    requires txs != []
    ensures var init := txs[..|txs| - 1];
            (exists k: nat :: k < |txs| && Issued(At(keys, verify, txs, k), verify, txs[k], id, r)) <==>
            || Issued(Run(Deployed(keys), verify, init), verify, txs[|txs| - 1], id, r)
            || exists k: nat :: k < |init| && Issued(At(keys, verify, init, k), verify, init[k], id, r)
  {
    var init := txs[..|txs| - 1];
    Prefixes(txs);
    assert At(keys, verify, txs, |init|) == Run(Deployed(keys), verify, init);
    if Issued(Run(Deployed(keys), verify, init), verify, txs[|txs| - 1], id, r) {
      assert Issued(At(keys, verify, txs, |init|), verify, txs[|init|], id, r);
    }
    if k: nat :| k < |init| && Issued(At(keys, verify, init, k), verify, init[k], id, r) {
      assert Issued(At(keys, verify, txs, k), verify, txs[k], id, r);
    }
    if k: nat :| k < |txs| && Issued(At(keys, verify, txs, k), verify, txs[k], id, r) {
      assert k == |init| || Issued(At(keys, verify, init, k), verify, init[k], id, r);
    }
  }
}
