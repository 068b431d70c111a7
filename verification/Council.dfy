/** The admin council and its approval loop, written the same way in three of the contracts. */
module Council {
  import opened Base

  datatype AdminCouncil = AdminCouncil(members: seq<Address>, threshold: U32)

  /** The check every `initialize` makes before it stores a council. */
  predicate Accepted(c: AdminCouncil) {
    c.threshold != 0 && |c.members| >= c.threshold
  }

  datatype Verdict = Approved | SignatureMissing | InsufficientApprovals

  /** The members the loop asks: one at least if there is one, and then up to the threshold. */
  function Asked(c: AdminCouncil): (k: nat)
    ensures k <= |c.members|
  {
    if |c.members| < c.threshold then |c.members|
    else if c.threshold == 0 && |c.members| > 0 then 1
    else c.threshold
  }

  ghost predicate AllSigned(members: seq<Address>, auths: set<Address>) {
    forall i :: 0 <= i < |members| ==> members[i] in auths
  }

  /** The approval as a condition on the signatures. */
  ghost predicate Approves(c: AdminCouncil, auths: set<Address>) {
    |c.members| >= c.threshold && AllSigned(c.members[..Asked(c)], auths)
  }

  /** What approval by a council means: the first `threshold` listed members signed. */
  ghost predicate SignedByFirst(c: AdminCouncil, auths: set<Address>) {
    |c.members| >= c.threshold && forall i :: 0 <= i < c.threshold ==> c.members[i] in auths
  }

  /** `require_council_auth`: a missing signature panics inside the loop, a short council after it. */
  method RequireCouncilAuth(c: AdminCouncil, auths: set<Address>) returns (v: Verdict, asked: nat)
    ensures v == Approved <==> Approves(c, auths)
    ensures v == InsufficientApprovals <==> |c.members| < c.threshold && AllSigned(c.members, auths)
    ensures asked <= Asked(c)
    ensures v == SignatureMissing <==> 0 < asked && c.members[asked - 1] !in auths
    ensures v != SignatureMissing ==> asked == Asked(c)
    ensures AllSigned(c.members[..if v == SignatureMissing then asked - 1 else asked], auths)
  {
    var authorized := 0;
    asked := 0;
    while asked < |c.members|
      invariant authorized == asked <= Asked(c)
      invariant asked == 0 || asked < c.threshold
      invariant AllSigned(c.members[..asked], auths)
    {
      var member := c.members[asked];
      asked := asked + 1;
      if member !in auths {
        return SignatureMissing, asked;
      }
      authorized := authorized + 1;
      if authorized >= c.threshold {
        break;
      }
    }
    if authorized < c.threshold {
      assert c.members[..asked] == c.members;
      v := InsufficientApprovals;
    } else {
      v := Approved;
    }
  }

  /** For a council that some `initialize` accepted, approval means exactly that the first
      `threshold` listed members signed; when the members are distinct, that many distinct
      members signed. The "Insufficient approvals" panic needs a council nobody can store. */
  lemma ApprovalMeansThreshold(c: AdminCouncil, auths: set<Address>)
    requires Accepted(c)
    ensures Approves(c, auths) <==> SignedByFirst(c, auths)
    ensures !(|c.members| < c.threshold && AllSigned(c.members, auths))
    ensures Approves(c, auths) && (forall i, j :: 0 <= i < j < |c.members| ==> c.members[i] != c.members[j])
            ==> |(set m | m in c.members && m in auths)| >= c.threshold
  {
    var prefix := c.members[..c.threshold];
    assert Asked(c) == c.threshold;
    assert forall i :: 0 <= i < c.threshold ==> prefix[i] == c.members[i];
    if Approves(c, auths) && forall i, j :: 0 <= i < j < |c.members| ==> c.members[i] != c.members[j] {
      DistinctCount(prefix);
      var signers := set m | m in c.members && m in auths;
      var asked := set m | m in prefix;
      assert asked <= signers;
      CardinalityMonotone(asked, signers);
    }
  }

  /** Any `threshold` members are not enough: two of three distinct members of a council with
      threshold two sign, and it does not approve, because the first listed one did not. */
  lemma LaterMembersDoNotApprove()
    ensures exists c: AdminCouncil, auths: set<Address> ::
              && Accepted(c) && (forall i, j :: 0 <= i < j < |c.members| ==> c.members[i] != c.members[j])
              && |(set m | m in c.members && m in auths)| == c.threshold && !Approves(c, auths)
  {
    var c, auths := AdminCouncil([Address(1), Address(2), Address(3)], 2), {Address(2), Address(3)};
    ApprovalMeansThreshold(c, auths);
    assert c.members[0] !in auths;
    assert c.members[1] == Address(2) && c.members[2] == Address(3);
    assert (set m | m in c.members && m in auths) == auths;
    assert Accepted(c) && !Approves(c, auths);
  }

  lemma {:induction false} DistinctCount(s: seq<Address>)
    requires forall i, j :: 0 <= i < j < |s| ==> s[i] != s[j]
    ensures |(set m | m in s)| == |s|
  {
    if s != [] {
      var init := s[..|s| - 1];
      DistinctCount(init);
      assert s == init + [s[|s| - 1]];
      assert (set m | m in s) == (set m | m in init) + {s[|s| - 1]};
    }
  }

  lemma {:induction false} CardinalityMonotone<T>(a: set<T>, b: set<T>)
    requires a <= b
    ensures |a| <= |b|
  {
    assert b == a + (b - a);
    assert |a + (b - a)| == |a| + |b - a|;
  }
}
