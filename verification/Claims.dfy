/** Claims commute: whether a set of relays can all be paid, and what is left, does not depend on the order. */
module Claims {
  import opened Base
  import opened MapSum
  import opened Token
  import opened Settlement
  import opened SettlementSafety

  /** One relay's claim, in whatever ledger environment it lands. */
  datatype Request = Request(env: Env, relay: Address)

  /** All of them one after the other; `None` if any does not complete. */
  function ClaimAll(w: World, order: seq<Request>): Option<World> {
    if order == [] then Some(w) else
      var prior := ClaimAll(w, order[..|order| - 1]);
      if prior.None? then None else
        var o := Claim(prior.value, order[|order| - 1].env, order[|order| - 1].relay);
        if o.Done? then Some(o.world) else None
  }

  function Relays(order: seq<Request>): set<Address> {
    set i | 0 <= i < |order| :: order[i].relay
  }

  ghost predicate Distinct(order: seq<Request>) {
    forall i, j :: 0 <= i < j < |order| ==> order[i].relay != order[j].relay
  }

  function Records(earnings: map<Address, Earnings>, relays: set<Address>): map<Address, Earnings> {
    map r | r in relays :: EarningsOf(earnings, r)
  }

  ghost function OwedTo(w: World, relays: set<Address>): int {
    SumBy(Records(w.fd.earnings, relays), UnclaimedIn)
  }

  /** A claim that can go through if the distributor can cover it. */
  predicate Ready(w: World, q: Request) {
    var owed := EarningsOf(w.fd.earnings, q.relay).unclaimed;
    q.relay in q.env.auths && owed > 0 && BalanceOf(w.vault.bal, q.relay) + owed <= I128_MAX
  }

  ghost predicate AllReady(w: World, order: seq<Request>) {
    forall i :: 0 <= i < |order| ==> Ready(w, order[i])
  }

  function Paid(r: Earnings): Earnings
    requires FitsI128(r.totalClaimed + r.unclaimed)
  {
    r.(totalClaimed := r.totalClaimed + r.unclaimed, unclaimed := 0)
  }

  ghost predicate EarningsPaid(w: World, after: World, relays: set<Address>) {
    && after.fd.earnings.Keys == w.fd.earnings.Keys
    && (forall r :: r in w.fd.earnings ==>
          && FitsI128(w.fd.earnings[r].totalClaimed + w.fd.earnings[r].unclaimed)
          && after.fd.earnings[r] == if r in relays then Paid(w.fd.earnings[r]) else w.fd.earnings[r])
  }

  ghost predicate BalancesPaid(w: World, after: World, relays: set<Address>) {
    && after.vault.bal.Keys == (if relays == {} then w.vault.bal.Keys else w.vault.bal.Keys + relays + {w.fd.self})
    && (forall a :: BalanceOf(after.vault.bal, a) ==
          BalanceOf(w.vault.bal, a) + (if a in relays then EarningsOf(w.fd.earnings, a).unclaimed else 0)
          - (if a == w.fd.self then OwedTo(w, relays) else 0))
  }

  /** `after` is `w` with exactly the given relays paid in full. */
  ghost predicate PaidOut(w: World, after: World, relays: set<Address>) {
    && after == w.(fd := w.fd.(earnings := after.fd.earnings), vault := w.vault.(bal := after.vault.bal))
    && EarningsPaid(w, after, relays) && BalancesPaid(w, after, relays)
  }

  lemma PaidOutDetermined(w: World, a: World, b: World, relays: set<Address>)
    requires PaidOut(w, a, relays) && PaidOut(w, b, relays)
    ensures a == b
  {
    assert a.fd.earnings == b.fd.earnings;
    forall x | x in a.vault.bal
      ensures a.vault.bal[x] == b.vault.bal[x]
    {
      assert BalanceOf(a.vault.bal, x) == BalanceOf(b.vault.bal, x);
    }
    assert a.vault.bal == b.vault.bal;
  }

  lemma OwedSplits(w: World, order: seq<Request>)
    requires order != [] && Distinct(order)
    ensures var init, last := order[..|order| - 1], order[|order| - 1];
            && Relays(order) == Relays(init) + {last.relay} && last.relay !in Relays(init)
            && OwedTo(w, Relays(order)) == OwedTo(w, Relays(init)) + EarningsOf(w.fd.earnings, last.relay).unclaimed
  {
    var init, last := order[..|order| - 1], order[|order| - 1];
    assert forall i :: 0 <= i < |init| ==> init[i] == order[i];
    forall r | r in Relays(order)
      ensures r in Relays(init) + {last.relay}
    {
      var i :| 0 <= i < |order| && order[i].relay == r;
      assert i < |init| ==> init[i].relay == r;
    }
    forall r | r in Relays(init)
      ensures r in Relays(order)
    {
      var i :| 0 <= i < |init| && init[i].relay == r;
      assert order[i].relay == r;
    }
    var records := Records(w.fd.earnings, Relays(init));
    assert Records(w.fd.earnings, Relays(order)) == records[last.relay := EarningsOf(w.fd.earnings, last.relay)];
    SumByUpdate(records, UnclaimedIn, last.relay, EarningsOf(w.fd.earnings, last.relay));
  }

  /** One more claim on top of a set already paid: whether it completes... */
  lemma ClaimOnTopCompletes(w: World, mid: World, relays: set<Address>, q: Request)
    requires RelaySound(w.fd, q.relay) && PaidOut(w, mid, relays)
    requires q.relay !in relays && q.relay != w.fd.self && w.fd.self !in relays
    ensures Claim(mid, q.env, q.relay).Done? <==>
            Ready(w, q) && EarningsOf(w.fd.earnings, q.relay).unclaimed
                           <= BalanceOf(w.vault.bal, w.fd.self) - OwedTo(w, relays)
  {
    assert EarningsOf(mid.fd.earnings, q.relay) == EarningsOf(w.fd.earnings, q.relay);
    assert BalanceOf(mid.vault.bal, q.relay) == BalanceOf(w.vault.bal, q.relay);
    assert BalanceOf(mid.vault.bal, w.fd.self) == BalanceOf(w.vault.bal, w.fd.self) - OwedTo(w, relays);
  }

  /** ... what it does to the balances... */
  lemma ClaimOnTopBalances(w: World, mid: World, relays: set<Address>, q: Request)
    requires mid.fd.self == w.fd.self && BalancesPaid(w, mid, relays) && Claim(mid, q.env, q.relay).Done?
    requires EarningsOf(mid.fd.earnings, q.relay) == EarningsOf(w.fd.earnings, q.relay)
    requires q.relay !in relays && q.relay != w.fd.self && w.fd.self !in relays
    requires OwedTo(w, relays + {q.relay}) == OwedTo(w, relays) + EarningsOf(w.fd.earnings, q.relay).unclaimed
    ensures BalancesPaid(w, Claim(mid, q.env, q.relay).world, relays + {q.relay})
  {
  }

  /** ... and that it pays just that relay. */
  lemma {:induction false} ClaimOnTopPays(w: World, mid: World, relays: set<Address>, q: Request)
    requires PaidOut(w, mid, relays) && Claim(mid, q.env, q.relay).Done?
    requires q.relay !in relays && q.relay != w.fd.self && w.fd.self !in relays
    requires OwedTo(w, relays + {q.relay}) == OwedTo(w, relays) + EarningsOf(w.fd.earnings, q.relay).unclaimed
    ensures PaidOut(w, Claim(mid, q.env, q.relay).world, relays + {q.relay})
  {
    assert EarningsOf(mid.fd.earnings, q.relay) == EarningsOf(w.fd.earnings, q.relay);
    ClaimOnTopBalances(w, mid, relays, q);
    assert EarningsPaid(w, Claim(mid, q.env, q.relay).world, relays + {q.relay});
  }

  lemma ReadySplits(w: World, order: seq<Request>)
    requires order != []
    ensures AllReady(w, order) <==> AllReady(w, order[..|order| - 1]) && Ready(w, order[|order| - 1])
  {
  }

  /** The claims of distinct relays all complete, in this order, exactly when each is ready and
      together they do not exceed the distributor's tokens; and then exactly they are paid. */
  lemma {:induction false} ClaimAllExactly(w: World, order: seq<Request>)
    requires DistributorInvariant(w.fd) && Distinct(order) && w.fd.self !in Relays(order)
    ensures ClaimAll(w, order).Some? <==>
            AllReady(w, order) && OwedTo(w, Relays(order)) <= BalanceOf(w.vault.bal, w.fd.self)
    ensures ClaimAll(w, order).Some? ==> PaidOut(w, ClaimAll(w, order).value, Relays(order))
  {
    if order == [] {
      assert Records(w.fd.earnings, {}) == map[];
      forall r | r in w.fd.earnings
        ensures FitsI128(w.fd.earnings[r].totalClaimed + w.fd.earnings[r].unclaimed)
      {
        assert RelaySound(w.fd, r);
      }
    } else {
      var init, last := order[..|order| - 1], order[|order| - 1];
      assert forall i :: 0 <= i < |init| ==> init[i] == order[i];
      OwedSplits(w, order);
      ClaimAllExactly(w, init);
      ReadySplits(w, order);
      if ClaimAll(w, init).Some? {
        var mid := ClaimAll(w, init).value;
        assert RelaySound(w.fd, last.relay);
        ClaimOnTopCompletes(w, mid, Relays(init), last);
        if Claim(mid, last.env, last.relay).Done? {
          ClaimOnTopPays(w, mid, Relays(init), last);
        }
      }
    }
  }

  /** Any two orders of the same ready claims agree on success and end in the same world, with the
      distributor paying out exactly what was owed. */
  lemma {:induction false} OrderDoesNotMatter(w: World, a: seq<Request>, b: seq<Request>)
    requires DistributorInvariant(w.fd) && Distinct(a) && Distinct(b)
    requires Relays(a) == Relays(b) && w.fd.self !in Relays(a)
    requires AllReady(w, a) && AllReady(w, b)
    ensures ClaimAll(w, a) == ClaimAll(w, b)
    ensures ClaimAll(w, a).Some? <==> OwedTo(w, Relays(a)) <= BalanceOf(w.vault.bal, w.fd.self)
    ensures ClaimAll(w, a).Some? ==>
              BalanceOf(ClaimAll(w, a).value.vault.bal, w.fd.self)
              == BalanceOf(w.vault.bal, w.fd.self) - OwedTo(w, Relays(a))
  {
    ClaimAllExactly(w, a);
    ClaimAllExactly(w, b);
    if ClaimAll(w, a).Some? {
      PaidOutDetermined(w, ClaimAll(w, a).value, ClaimAll(w, b).value, Relays(a));
    }
  }
}
