/** The dispute resolver as a value: disputes, the transaction index, rulings and the effect of each call. */
module Dispute {
  import opened Base
  import opened Council

  datatype TxId = TxId(bytes: nat)
  datatype PublicKey = PublicKey(bytes: nat)
  datatype Hash = Hash(bytes: nat)
  datatype Signature = Signature(bytes: nat)

  /** Whether a signature over a hash is valid for a key (Ed25519, section 5.1.7 of RFC 8032). */
  type Verifier = (PublicKey, Hash, Signature) -> bool

  datatype Proof = Proof(signature: Signature, chainHash: Hash, sequence: U64)

  datatype Status = Open | Responded | Resolved | Expired

  datatype Case = Case(id: U64, tx: TxId, initiator: Address, respondent: Address,
                       initiatorProof: Proof, respondentProof: Option<Proof>,
                       status: Status, raisedAt: U64, resolveBy: U64)

  datatype Reason = NoResponse | OnlyInitiatorValid | OnlyRespondentValid | InitiatorNotLater | RespondentEarlier

  datatype Ruling = Ruling(id: U64, winner: Address, loser: Address, reason: Reason, resolvedAt: U64)

  datatype Error =
    | DisputeNotFound | DisputeAlreadyResolved | NotResponded | InvalidProofSignature | InvalidConfig
    | InvalidCouncilConfig | DuplicateDispute | NotOpen | ResolutionWindowExpired
    | ResolutionWindowActive | AlreadyInitialized | InvalidRespondent | UnauthorizedRespondent

  /** Public keys are written outside the public interface, so `keys` never changes here. */
  datatype State = State(council: Option<AdminCouncil>, window: U32, count: U64,
                         disputes: map<U64, Case>, txIndex: map<TxId, U64>,
                         rulings: map<U64, Ruling>, keys: map<Address, PublicKey>)

  type Effect<R> = Outcome<State, R, Error>

  function Deployed(keys: map<Address, PublicKey>): State {
    State(None, 0, 0, map[], map[], map[], keys)
  }

  // ---- The public calls ----

  function Initialize(s: State, council: AdminCouncil, window: U32): Effect<()> {
    if s.council.Some? then Failed(AlreadyInitialized)
    else if window == 0 then Failed(InvalidConfig)
    else if !Accepted(council) then Failed(InvalidCouncilConfig)
    else Done(s.(council := Some(council), window := window), ())
  }

  /** The deadline is a 32-bit sum and panics when it does not fit. */
  function Raise(s: State, env: Env, initiator: Address, respondent: Address, tx: TxId, proof: Proof): Effect<U64> {
    if initiator !in env.auths then Aborted
    else if initiator == respondent then Failed(InvalidRespondent)
    else if tx in s.txIndex then Failed(DuplicateDispute)
    else if s.count == U64_MAX || env.sequence + s.window > U32_MAX then Aborted
    else
      var id: U64 := s.count + 1;
      var c := Case(id, tx, initiator, respondent, proof, None, Open, env.timestamp, env.sequence + s.window);
      Done(s.(count := id, disputes := s.disputes[id := c], txIndex := s.txIndex[tx := id]), id)
  }

  function Respond(s: State, env: Env, respondent: Address, id: U64, proof: Proof): Effect<()> {
    if respondent !in env.auths then Aborted
    else if id !in s.disputes then Failed(DisputeNotFound)
    else if s.disputes[id].respondent != respondent then Failed(UnauthorizedRespondent)
    else if s.disputes[id].status != Open then Failed(NotOpen)
    else if env.sequence > s.disputes[id].resolveBy then Failed(ResolutionWindowExpired)
    else
      var c := s.disputes[id].(respondentProof := Some(proof), status := Responded);
      Done(s.(disputes := s.disputes[id := c]), ())
  }

  /** `verify_proof` answers true or panics. */
  function VerifyProof(verify: Verifier, key: PublicKey, proof: Proof): (r: Option<bool>)
    ensures r != Some(false)
    ensures r == Some(true) <==> verify(key, proof.chainHash, proof.signature)
  {
    if verify(key, proof.chainHash, proof.signature) then Some(true) else None
  }

  /** The ruling tree, all four arms; `None` is the arm that rules for nobody. */
  function Judge(id: U64, c: Case, theirs: Proof, initiatorValid: bool, respondentValid: bool, at: U64)
    : (r: Option<Ruling>)
    ensures r.None? <==> !initiatorValid && !respondentValid
    ensures r.Some? ==> {r.value.winner, r.value.loser} == {c.initiator, c.respondent}
    ensures r.Some? && c.initiator != c.respondent ==>
              if r.value.winner == c.initiator then initiatorValid else respondentValid
    ensures initiatorValid && respondentValid && c.initiator != c.respondent ==>
              (r.value.winner == c.initiator <==> c.initiatorProof.sequence <= theirs.sequence)
  {
    match (initiatorValid, respondentValid)
    case (true, false) => Some(Ruling(id, c.initiator, c.respondent, OnlyInitiatorValid, at))
    case (false, true) => Some(Ruling(id, c.respondent, c.initiator, OnlyRespondentValid, at))
    case (true, true) =>
      if c.initiatorProof.sequence <= theirs.sequence
      then Some(Ruling(id, c.initiator, c.respondent, InitiatorNotLater, at))
      else Some(Ruling(id, c.respondent, c.initiator, RespondentEarlier, at))
    case (false, false) => None
  }

  function Ruled(s: State, id: U64, ruling: Ruling): State
    requires id in s.disputes
  {
    s.(disputes := s.disputes[id := s.disputes[id].(status := Resolved)], rulings := s.rulings[id := ruling])
  }

  function Resolve(s: State, verify: Verifier, env: Env, id: U64): Effect<Ruling> {
    if id !in s.disputes then Failed(DisputeNotFound)
    else
      var c := s.disputes[id];
      if c.status == Resolved then Failed(DisputeAlreadyResolved)
      else if c.status == Open then
        if env.sequence <= c.resolveBy then Failed(ResolutionWindowActive)
        else
          var ruling := Ruling(id, c.initiator, c.respondent, NoResponse, env.timestamp);
          Done(Ruled(s, id, ruling), ruling)
      else if c.status != Responded || c.respondentProof.None? then Failed(NotResponded)
      else if c.initiator !in s.keys || c.respondent !in s.keys then Aborted
      else
        var theirs := c.respondentProof.value;
        var ours := VerifyProof(verify, s.keys[c.initiator], c.initiatorProof);
        var other := VerifyProof(verify, s.keys[c.respondent], theirs);
        if ours.None? || other.None? then Aborted
        else
          var ruling := Judge(id, c, theirs, ours.value, other.value, env.timestamp);
          if ruling.None? then Failed(InvalidProofSignature)
          else Done(Ruled(s, id, ruling.value), ruling.value)
  }

  // ---- Runs ----

  datatype Call =
    | CallInitialize(council: AdminCouncil, window: U32)
    | CallRaise(initiator: Address, respondent: Address, tx: TxId, proof: Proof)
    | CallRespond(party: Address, id: U64, answer: Proof)
    | CallResolve(which: U64)

  datatype Tx = Tx(env: Env, call: Call)

  function Apply(s: State, verify: Verifier, tx: Tx): State {
    match tx.call
    case CallInitialize(c, w) => WorldAfter(s, Initialize(s, c, w))
    case CallRaise(i, r, t, p) => WorldAfter(s, Raise(s, tx.env, i, r, t, p))
    case CallRespond(party, id, p) => WorldAfter(s, Respond(s, tx.env, party, id, p))
    case CallResolve(id) => WorldAfter(s, Resolve(s, verify, tx.env, id))
  }

  function Run(s: State, verify: Verifier, txs: seq<Tx>): State {
    if txs == [] then s else Apply(Run(s, verify, txs[..|txs| - 1]), verify, txs[|txs| - 1])
  }

  lemma RunAppend(s: State, verify: Verifier, txs: seq<Tx>, tx: Tx)
    ensures Run(s, verify, txs + [tx]) == Apply(Run(s, verify, txs), verify, tx)
  {
    assert (txs + [tx])[..|txs|] == txs;
  }

  /** 1 for a `respond` or `resolve` that completes, 0 for anything else. */
  function Progress(s: State, verify: Verifier, tx: Tx): nat {
    match tx.call
    case CallRespond(party, id, p) => if Respond(s, tx.env, party, id, p).Done? then 1 else 0
    case CallResolve(id) => if Resolve(s, verify, tx.env, id).Done? then 1 else 0
    case _ => 0
  }

  function TotalProgress(s: State, verify: Verifier, txs: seq<Tx>): nat {
    if txs == [] then 0
    else TotalProgress(s, verify, txs[..|txs| - 1]) + Progress(Run(s, verify, txs[..|txs| - 1]), verify, txs[|txs| - 1])
  }
}
