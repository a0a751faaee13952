/** Refresh-token bookkeeping shared by the two login paths
    (Back-end/users/views.py and Back-end/auth_app/views.py): outstanding
    tokens in creation order, a blacklist, the cleanup that blacklists every
    token of a user beyond the first `max` and the issue of a new token. */
module Tokens {
  import opened Wrappers

  type UserId = nat

  datatype Token = Token(id: nat, user: UserId, createdAt: int)

  /** The tokens of `user`, in store order. */
  function OfUser(ts: seq<Token>, user: UserId): (r: seq<Token>)
    ensures |r| <= |ts|
  {
    if ts == [] then [] else OfUser(ts[..|ts| - 1], user) + (if ts[|ts| - 1].user == user then [ts[|ts| - 1]] else [])
  }

  function Ids(ts: seq<Token>): set<nat> {
    if ts == [] then {} else Ids(ts[..|ts| - 1]) + {ts[|ts| - 1].id}
  }

  /** Extending a slice by one token adds that token's id. */
  lemma IdsStep(ts: seq<Token>, lo: nat, i: nat)
    requires lo <= i < |ts|
    ensures Ids(ts[lo..i + 1]) == Ids(ts[lo..i]) + {ts[i].id}
  {
    assert ts[lo..i + 1][..i - lo] == ts[lo..i];
  }

  lemma {:induction false} IdsBelow(ts: seq<Token>, n: nat)
    requires forall i :: 0 <= i < |ts| ==> ts[i].id < n
    ensures forall x :: x in Ids(ts) ==> x < n
  {
    if ts != [] {
      IdsBelow(ts[..|ts| - 1], n);
    }
  }

  /** Tokens of `user` whose id is not blacklisted. */
  function Active(ts: seq<Token>, black: set<nat>): (r: seq<Token>)
    ensures |r| <= |ts|
  {
    if ts == [] then [] else Active(ts[..|ts| - 1], black) + (if ts[|ts| - 1].id !in black then [ts[|ts| - 1]] else [])
  }

  lemma {:induction false} ActiveOfAppend(a: seq<Token>, b: seq<Token>, black: set<nat>)
    ensures Active(a + b, black) == Active(a, black) + Active(b, black)
    decreases |b|
  {
    if b == [] {
      assert a + b == a;
    } else {
      var b' := b[..|b| - 1];
      var x := b[|b| - 1];
      var tail := if x.id !in black then [x] else [];
      ActiveOfAppend(a, b', black);
      var ab := a + b;
      assert ab[..|ab| - 1] == a + b' && ab[|ab| - 1] == x;
      assert Active(ab, black) == Active(a + b', black) + tail;
      assert Active(b, black) == Active(b', black) + tail;
    }
  }

  lemma {:induction false} ActiveBound(ts: seq<Token>, black: set<nat>)
    requires Ids(ts) <= black
    ensures Active(ts, black) == []
  {
    if ts != [] {
      ActiveBound(ts[..|ts| - 1], black);
    }
  }

  class TokenStore {
    var outstanding: seq<Token>
    var blacklisted: set<nat>
    var nextId: nat

    /** Outstanding tokens are in creation order and carry distinct ids below `nextId`. */
    ghost predicate Valid()
      reads this
    {
      && (forall i, j :: 0 <= i < j < |outstanding| ==> outstanding[i].createdAt <= outstanding[j].createdAt)
      && (forall i, j :: 0 <= i < j < |outstanding| ==> outstanding[i].id != outstanding[j].id)
      && (forall i :: 0 <= i < |outstanding| ==> outstanding[i].id < nextId)
    }

    constructor()
      ensures Valid() && outstanding == [] && blacklisted == {}
    {
      outstanding := [];
      blacklisted := {};
      nextId := 0;
    }

    /** The cleanup block: blacklist, one by one, every token of `user` after
        the first `max` in creation order. A failure at position `failAt` of
        that list (a database error) ends the loop; what was blacklisted before
        stays, and the failure is swallowed. */
    method Cleanup(user: UserId, max: nat, failAt: Option<nat>)
      requires Valid()
      modifies this
      ensures Valid() && outstanding == old(outstanding) && nextId == old(nextId)
      ensures var excess := OfUser(old(outstanding), user);
        var stop := if failAt.Some? && failAt.value < |excess| - max then max + failAt.value else |excess|;
        blacklisted == old(blacklisted) + (if |excess| <= max then {} else Ids(excess[max..stop]))
    {
      var mine := OfUser(outstanding, user);
      if |mine| <= max {
        return;
      }
      var stop := if failAt.Some? && failAt.value < |mine| - max then max + failAt.value else |mine|;
      var i := max;
      while i < stop
        invariant max <= i <= stop
        invariant outstanding == old(outstanding) && nextId == old(nextId)
        invariant blacklisted == old(blacklisted) + Ids(mine[max..i])
      {
        IdsStep(mine, max, i);
        blacklisted := blacklisted + {mine[i].id};
        i := i + 1;
      }
    }

    /** `RefreshToken.for_user`: a new outstanding token, issued now. */
    method Issue(user: UserId, now: int) returns (t: Token)
      requires Valid()
      requires forall i :: 0 <= i < |outstanding| ==> outstanding[i].createdAt <= now
      modifies this
      ensures Valid()
      ensures t.user == user && t.createdAt == now && t.id !in old(Ids(outstanding))
      ensures outstanding == old(outstanding) + [t] && blacklisted == old(blacklisted)
    {
      IdsBelow(outstanding, nextId);
      t := Token(nextId, user, now);
      outstanding := outstanding + [t];
      nextId := nextId + 1;
    }
  }

  /** After an uninterrupted cleanup with limit `max`, at most `max` tokens of
      the user are still active. */
  lemma CleanupLeavesAtMost(ts: seq<Token>, user: UserId, max: nat, black: set<nat>)
    requires |OfUser(ts, user)| > max ==> Ids(OfUser(ts, user)[max..]) <= black
    ensures |Active(OfUser(ts, user), black)| <= max
  {
    var mine := OfUser(ts, user);
    if |mine| > max {
      assert mine == mine[..max] + mine[max..];
      ActiveOfAppend(mine[..max], mine[max..], black);
      ActiveBound(mine[max..], black);
    }
  }

  /** A login that cleans up without failure and then issues a token leaves the
      user with at most `max + 1` active tokens. */
  lemma LoginTokenCap(ts: seq<Token>, user: UserId, max: nat, black: set<nat>, t: Token)
    requires |OfUser(ts, user)| > max ==> Ids(OfUser(ts, user)[max..]) <= black
    requires t.user == user
    ensures |Active(OfUser(ts + [t], user), black)| <= max + 1
  {
    CleanupLeavesAtMost(ts, user, max, black);
    assert (ts + [t])[..|ts + [t]| - 1] == ts;
    assert OfUser(ts + [t], user) == OfUser(ts, user) + [t];
    ActiveOfAppend(OfUser(ts, user), [t], black);
  }
}
