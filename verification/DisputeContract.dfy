/** The dispute resolver contract. */
module DisputeContract {
  import opened Base
  import opened Council
  import opened Dispute

  class DisputeResolver {
    const verify: Verifier
    var council: Option<AdminCouncil>
    var window: U32
    var count: U64
    var disputes: map<U64, Case>
    var txIndex: map<TxId, U64>
    var rulings: map<U64, Ruling>
    var keys: map<Address, PublicKey>

    function Store(): State
      reads this
    {
      State(council, window, count, disputes, txIndex, rulings, keys)
    }

    constructor(verify: Verifier, keys: map<Address, PublicKey>)
      ensures Store() == Deployed(keys) && this.verify == verify
    {
      this.verify, this.keys := verify, keys;
      council, window, count := None, 0, 0;
      disputes, txIndex, rulings := map[], map[], map[];
    }

    method InitializeContract(c: AdminCouncil, window: U32) returns (r: Reply<(), Error>)
      modifies this
      ensures var o := Initialize(old(Store()), c, window);
              r == ReplyOf(o) && Store() == WorldAfter(old(Store()), o)
    {
      if council.Some? {
        return Err(AlreadyInitialized);
      }
      if window == 0 {
        return Err(InvalidConfig);
      }
      if c.threshold == 0 || |c.members| < c.threshold {
        return Err(InvalidCouncilConfig);
      }
      council := Some(c);
      this.window := window;
      return Ok(());
    }

    /** The counter moves before the deadline is computed, so the host puts it back if that panics. */
    method RaiseDispute(env: Env, initiator: Address, respondent: Address, tx: TxId, proof: Proof)
      returns (r: Reply<U64, Error>)
      modifies this
      ensures var o := Raise(old(Store()), env, initiator, respondent, tx, proof);
              r == ReplyOf(o) && Store() == WorldAfter(old(Store()), o)
    {
      if initiator !in env.auths {
        return Panic;
      }
      if initiator == respondent {
        return Err(InvalidRespondent);
      }
      if tx in txIndex {
        return Err(DuplicateDispute);
      }
      if count == U64_MAX {
        return Panic;
      }
      var before := count;
      count := count + 1;
      var id := count;
      if env.sequence + window > U32_MAX {
        count := before;
        return Panic;
      }
      var resolveBy: U32 := env.sequence + window;
      disputes := disputes[id := Case(id, tx, initiator, respondent, proof, None, Open, env.timestamp, resolveBy)];
      txIndex := txIndex[tx := id];
      return Ok(id);
    }

    method RespondToDispute(env: Env, respondent: Address, id: U64, proof: Proof) returns (r: Reply<(), Error>)
      modifies this
      ensures var o := Respond(old(Store()), env, respondent, id, proof);
              r == ReplyOf(o) && Store() == WorldAfter(old(Store()), o)
    {
      if respondent !in env.auths {
        return Panic;
      }
      if id !in disputes {
        return Err(DisputeNotFound);
      }
      var dispute := disputes[id];
      if dispute.respondent != respondent {
        return Err(UnauthorizedRespondent);
      }
      if dispute.status != Open {
        return Err(NotOpen);
      }
      if env.sequence > dispute.resolveBy {
        return Err(ResolutionWindowExpired);
      }
      dispute := dispute.(respondentProof := Some(proof));
      dispute := dispute.(status := Responded);
      disputes := disputes[id := dispute];
      return Ok(());
    }

    method ResolveDispute(env: Env, id: U64) returns (r: Reply<Ruling, Error>)
      modifies this
      ensures var o := Resolve(old(Store()), verify, env, id);
              r == ReplyOf(o) && Store() == WorldAfter(old(Store()), o)
    {
      if id !in disputes {
        return Err(DisputeNotFound);
      }
      var dispute := disputes[id];
      if dispute.status == Resolved {
        return Err(DisputeAlreadyResolved);
      }
      if dispute.status == Open {
        if env.sequence <= dispute.resolveBy {
          return Err(ResolutionWindowActive);
        }
        var ruling := Ruling(id, dispute.initiator, dispute.respondent, NoResponse, env.timestamp);
        dispute := dispute.(status := Resolved);
        disputes := disputes[id := dispute];
        rulings := rulings[id := ruling];
        return Ok(ruling);
      }
      if dispute.status != Responded {
        return Err(NotResponded);
      }
      if dispute.respondentProof.None? {
        return Err(NotResponded);
      }
      var theirs := dispute.respondentProof.value;
      if dispute.initiator !in keys {
        return Panic;
      }
      if dispute.respondent !in keys {
        return Panic;
      }
      var ours := VerifyProof(verify, keys[dispute.initiator], dispute.initiatorProof);
      if ours.None? {
        return Panic;
      }
      var other := VerifyProof(verify, keys[dispute.respondent], theirs);
      if other.None? {
        return Panic;
      }
      var judged := Judge(id, dispute, theirs, ours.value, other.value, env.timestamp);
      if judged.None? {
        return Err(InvalidProofSignature);
      }
      var ruling := judged.value;
      dispute := dispute.(status := Resolved);
      disputes := disputes[id := dispute];
      rulings := rulings[id := ruling];
      return Ok(ruling);
    }
  }
}
