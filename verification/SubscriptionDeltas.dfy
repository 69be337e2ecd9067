/** What the changes of successive rebuilds add up to. */
module SubscriptionDeltas {
  type Key = string

  /** `ks[i]` is the set of agents in the table after the i-th rebuild. */
  ghost function Before(ks: seq<set<Key>>): set<Key> {
    if |ks| < 2 then {} else ks[|ks| - 2]
  }

  ghost function Final(ks: seq<set<Key>>): set<Key> {
    if ks == [] then {} else ks[|ks| - 1]
  }

  ghost function Subscribes(ks: seq<set<Key>>): set<Key> {
    Final(ks) - Before(ks)
  }

  ghost function Unsubscribes(ks: seq<set<Key>>): set<Key> {
    Before(ks) - Final(ks)
  }

  /** A subscriber that applies every change in turn. */
  ghost function Folded(ks: seq<set<Key>>): set<Key> {
    if ks == [] then {} else (Folded(ks[..|ks| - 1]) + Subscribes(ks)) - Unsubscribes(ks)
  }

  ghost function EverSubscribed(ks: seq<set<Key>>): set<Key> {
    if ks == [] then {} else EverSubscribed(ks[..|ks| - 1]) + Subscribes(ks)
  }

  ghost function EverUnsubscribed(ks: seq<set<Key>>): set<Key> {
    if ks == [] then {} else EverUnsubscribed(ks[..|ks| - 1]) + Unsubscribes(ks)
  }

  lemma BeforeIsFinal(ks: seq<set<Key>>)
    requires ks != []
    ensures Before(ks) == Final(ks[..|ks| - 1])
  {
  }

  /** Over any run the changes applied in order give exactly the table's agents. */
  lemma {:induction false} FoldedIsFinal(ks: seq<set<Key>>)
    ensures Folded(ks) == Final(ks)
  {
    if ks != [] {
      FoldedIsFinal(ks[..|ks| - 1]);
      BeforeIsFinal(ks);
    }
  }

  lemma {:induction false} UnionsBound(ks: seq<set<Key>>)
    ensures Final(ks) <= EverSubscribed(ks)
    ensures EverSubscribed(ks) - EverUnsubscribed(ks) <= Final(ks)
  {
    if ks != [] {
      UnionsBound(ks[..|ks| - 1]);
      BeforeIsFinal(ks);
    }
  }

  /**
   The union formula, everything ever subscribed less everything ever unsubscribed, gives the table's agents if and
   only if no agent now in the table was ever unsubscribed.
   */
  lemma UnionFormulaIff(ks: seq<set<Key>>)
    ensures EverSubscribed(ks) - EverUnsubscribed(ks) == Final(ks) <==> Final(ks) !! EverUnsubscribed(ks)
  {
    UnionsBound(ks);
  }

  /** An agent that leaves and returns is lost by the union formula and kept by the fold. */
  lemma ReturningAgent(k: Key)
    ensures var ks := [{k}, {}, {k}];
      && Folded(ks) == {k} == Final(ks)
      && EverSubscribed(ks) - EverUnsubscribed(ks) == {}
  {
    var ks := [{k}, {}, {k}];
    FoldedIsFinal(ks);
    assert ks[..2] == [{k}, {}] && ks[..2][..1] == [{k}] && ks[..1][..0] == [];
    assert Unsubscribes(ks[..2]) == {k};
    assert EverUnsubscribed(ks) >= EverUnsubscribed(ks[..2]) >= {k};
    assert EverSubscribed(ks) <= {k} by {
      assert EverSubscribed([{k}]) == EverSubscribed([]) + {k};
      assert EverSubscribed(ks[..2]) == EverSubscribed([{k}]) + {};
    }
  }
}
