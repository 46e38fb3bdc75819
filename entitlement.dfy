/** The credit-gated watch rule of the streaming view: a watch goes ahead only
    when a subscription is loaded and its balance covers the item's cost; it
    then appends a watch-history row, writes the decremented balance to the
    subscription row and decrements the local snapshot. The two store writes
    are separate requests whose outcomes the view never inspects. */
module Entitlement {
  import opened Seqs
  import opened Store
  import opened Catalog

  /** The guard both watch handlers share. */
  predicate Permits(sub: Option<Subscription>, cost: int)
    ensures sub.None? ==> !Permits(sub, cost)
    ensures Permits(sub, cost) ==> sub.value.currentCredits - cost >= 0
  {
    sub.Some? && sub.value.currentCredits >= cost
  }

  /** The local snapshot after one watch attempt of an item costing `cost`. */
  function WatchStep(sub: Option<Subscription>, cost: int): (next: Option<Subscription>)
    ensures !Permits(sub, cost) ==> next == sub
    ensures Permits(sub, cost) ==> next.Some? && next.value.id == sub.value.id
    ensures Permits(sub, cost) ==> next.value.currentCredits == sub.value.currentCredits - cost >= 0
  {
    if Permits(sub, cost) then Some(sub.value.(currentCredits := sub.value.currentCredits - cost)) else sub
  }

  /** The snapshot after a session's watch attempts, in order. */
  function Replay(sub: Option<Subscription>, costs: seq<int>): (r: Option<Subscription>)
    ensures sub.Some? ==> r.Some? && r.value.id == sub.value.id
    decreases |costs|
  {
    if costs == [] then sub else Replay(WatchStep(sub, costs[0]), costs[1..])
  }

  /** The costs a balance accepts from a series of attempts: an attempt goes
      ahead when what is left covers it. */
  function Accepted(balance: int, costs: seq<int>): (r: seq<int>)
    ensures |r| <= |costs|
    ensures forall i :: 0 <= i < |r| ==> r[i] in costs
    decreases |costs|
  {
    if costs == [] then []
    else if balance >= costs[0] then [costs[0]] + Accepted(balance - costs[0], costs[1..])
    else Accepted(balance, costs[1..])
  }

  /** Replaying one more attempt is one more watch step. */
  lemma {:induction false} ReplaySnoc(sub: Option<Subscription>, costs: seq<int>, cost: int)
    ensures Replay(sub, costs + [cost]) == WatchStep(Replay(sub, costs), cost)
    decreases |costs|
  {
    if costs == [] {
      assert costs + [cost] == [cost];
    } else {
      assert (costs + [cost])[1..] == costs[1..] + [cost];
      ReplaySnoc(WatchStep(sub, costs[0]), costs[1..], cost);
    }
  }

  /** Without a subscription every attempt is refused. */
  lemma {:induction false} ReplayWithoutSubscription(costs: seq<int>)
    ensures Replay(None, costs) == None
  {
    if costs != [] {
      ReplayWithoutSubscription(costs[1..]);
    }
  }

  /** Over any session the balance is the loaded balance minus the costs of the
      accepted watches, and nothing else about the snapshot changes. */
  lemma {:induction false} ReplayBalance(s: Subscription, costs: seq<int>)
    ensures Replay(Some(s), costs)
      == Some(s.(currentCredits := s.currentCredits - Sum(Accepted(s.currentCredits, costs))))
    decreases |costs|
  {
    if costs != [] {
      var c := costs[0];
      if s.currentCredits >= c {
        var s' := s.(currentCredits := s.currentCredits - c);
        ReplayBalance(s', costs[1..]);
      } else {
        ReplayBalance(s, costs[1..]);
      }
    }
  }

  /** A non-negative balance stays non-negative, whatever the costs. */
  lemma {:induction false} ReplayNeverNegative(s: Subscription, costs: seq<int>)
    requires s.currentCredits >= 0
    ensures Replay(Some(s), costs).Some?
    ensures Replay(Some(s), costs).value.currentCredits >= 0
    decreases |costs|
  {
    if costs != [] {
      ReplayNeverNegative(WatchStep(Some(s), costs[0]).value, costs[1..]);
    }
  }

  /** From a non-negative balance the accepted costs never add up to more than
      the balance, and with non-negative costs the balance never grows. */
  lemma {:induction false} AcceptedWithinBalance(balance: int, costs: seq<int>)
    requires balance >= 0
    ensures Sum(Accepted(balance, costs)) <= balance
    ensures (forall i :: 0 <= i < |costs| ==> costs[i] >= 0) ==> Sum(Accepted(balance, costs)) >= 0
    decreases |costs|
  {
    if costs != [] {
      if balance >= costs[0] {
        AcceptedWithinBalance(balance - costs[0], costs[1..]);
      } else {
        AcceptedWithinBalance(balance, costs[1..]);
      }
    }
  }

  /** `(subscription.id || 0) + cost`: an empty id is falsy, so the sum is a
      number; any other id is a string, so `+` concatenates. */
  function UsedAfterChannelWatch(s: Subscription, cost: int): (u: UsedCredits)
    ensures u.UsedNumber? <==> s.id == ""
    ensures u.UsedText? ==> u.prefix == s.id && u.cost == cost
    ensures u.UsedNumber? ==> u.n == cost
  {
    if s.id == "" then UsedNumber(cost) else UsedText(s.id, cost)
  }

  /** `select id, current_credits from user_subscriptions where user_id = userId
      and status = 'active'`, `.maybeSingle()`. */
  function LoadSubscription(db: Database, userId: Id): (sub: Option<Subscription>)
    ensures sub.Some? <==> |Filter((row: UserSubscription) => row.userId == userId && row.status == Active, db.subscriptions)| == 1
    ensures sub.Some? ==> (exists row :: row in db.subscriptions && row.userId == userId && row.status == Active
                                         && sub.value == Subscription(row.id, row.currentCredits))
  {
    var rows := Filter((row: UserSubscription) => row.userId == userId && row.status == Active, db.subscriptions);
    FilterCounts((row: UserSubscription) => row.userId == userId && row.status == Active, db.subscriptions);
    if |rows| == 1 then
      assert rows[0] in multiset(rows);
      Some(Subscription(rows[0].id, rows[0].currentCredits))
    else None
  }

  /** The streaming view of one signed-in user: its subscription snapshot and
      the store it writes to. The ghost fields record what the session started
      from and the cost of every watch attempted since. */
  class StreamingView {
    const userId: Id
    const store: CatalogStore
    var subscription: Option<Subscription>
    ghost var loaded: Option<Subscription>
    ghost var attempts: seq<int>

    ghost predicate Valid()
      reads this
    {
      subscription == Replay(loaded, attempts)
    }

    /** The view after `fetchData` has loaded the user's active subscription.
        `loadFailed` says whether the store answered the query with an error,
        which the view takes as no subscription. */
    constructor (userId: Id, store: CatalogStore, loadFailed: bool)
      ensures Valid() && attempts == []
      ensures this.userId == userId && this.store == store
      ensures subscription == loaded == (if loadFailed then None else LoadSubscription(store.db, userId))
    {
      this.userId := userId;
      this.store := store;
      subscription := if loadFailed then None else LoadSubscription(store.db, userId);
      loaded := subscription;
      attempts := [];
    }

    /** `handleWatchChannel`. `historyAccepted` and `updateAccepted` say whether
        the store performs the history insert and the balance update. */
    method WatchChannel(channel: Channel, historyAccepted: bool, updateAccepted: bool)
      requires Valid()
      modifies this, store
      ensures Valid() && loaded == old(loaded) && attempts == old(attempts) + [channel.creditsCost]
      ensures subscription == WatchStep(old(subscription), channel.creditsCost)
      ensures !Permits(old(subscription), channel.creditsCost) ==> store.db == old(store.db)
      ensures Permits(old(subscription), channel.creditsCost) ==>
        && store.db.watchHistory == old(store.db.watchHistory)
             + (if historyAccepted then [WatchRecord(userId, ChannelWatch(channel.id), channel.creditsCost)] else [])
        && store.db.subscriptions == (if !updateAccepted then old(store.db.subscriptions)
             else UpdateSubscriptions(old(store.db.subscriptions), old(subscription).value.id,
                                      old(subscription).value.currentCredits - channel.creditsCost,
                                      Some(UsedAfterChannelWatch(old(subscription).value, channel.creditsCost))))
        && store.db.(watchHistory := old(store.db.watchHistory), subscriptions := old(store.db.subscriptions))
             == old(store.db)
    {
      ReplaySnoc(loaded, attempts, channel.creditsCost);
      if subscription.Some? && subscription.value.currentCredits >= channel.creditsCost {
        var s := subscription.value;
        store.InsertWatchRecord(WatchRecord(userId, ChannelWatch(channel.id), channel.creditsCost), historyAccepted);
        store.UpdateSubscription(s.id, s.currentCredits - channel.creditsCost,
                                 Some(UsedAfterChannelWatch(s, channel.creditsCost)), updateAccepted);
        subscription := Some(s.(currentCredits := s.currentCredits - channel.creditsCost));
      }
      attempts := attempts + [channel.creditsCost];
    }

    /** `handleWatchContent`: the same guard and decrement; the update writes
        only `current_credits`. */
    method WatchContent(item: Content, historyAccepted: bool, updateAccepted: bool)
      requires Valid()
      modifies this, store
      ensures Valid() && loaded == old(loaded) && attempts == old(attempts) + [item.creditsCost]
      ensures subscription == WatchStep(old(subscription), item.creditsCost)
      ensures !Permits(old(subscription), item.creditsCost) ==> store.db == old(store.db)
      ensures Permits(old(subscription), item.creditsCost) ==>
        && store.db.watchHistory == old(store.db.watchHistory)
             + (if historyAccepted then [WatchRecord(userId, ContentWatch(item.id), item.creditsCost)] else [])
        && store.db.subscriptions == (if !updateAccepted then old(store.db.subscriptions)
             else UpdateSubscriptions(old(store.db.subscriptions), old(subscription).value.id,
                                      old(subscription).value.currentCredits - item.creditsCost, None))
        && store.db.(watchHistory := old(store.db.watchHistory), subscriptions := old(store.db.subscriptions))
             == old(store.db)
    {
      ReplaySnoc(loaded, attempts, item.creditsCost);
      if subscription.Some? && subscription.value.currentCredits >= item.creditsCost {
        var s := subscription.value;
        store.InsertWatchRecord(WatchRecord(userId, ContentWatch(item.id), item.creditsCost), historyAccepted);
        store.UpdateSubscription(s.id, s.currentCredits - item.creditsCost, None, updateAccepted);
        subscription := Some(s.(currentCredits := s.currentCredits - item.creditsCost));
      }
      attempts := attempts + [item.creditsCost];
    }
  }

  /** What the badge of a session shows: 0 without a subscription, otherwise
      the loaded balance less the accepted costs, never negative when the
      loaded balance is not. */
  lemma SessionBadge(loaded: Option<Subscription>, costs: seq<int>)
    ensures loaded.None? ==> CreditBadge(Replay(loaded, costs)) == 0
    ensures loaded.Some? ==>
      CreditBadge(Replay(loaded, costs)) == loaded.value.currentCredits - Sum(Accepted(loaded.value.currentCredits, costs))
    ensures loaded.Some? && loaded.value.currentCredits >= 0 ==> CreditBadge(Replay(loaded, costs)) >= 0
  {
    if loaded.None? {
      ReplayWithoutSubscription(costs);
    } else {
      ReplayBalance(loaded.value, costs);
      if loaded.value.currentCredits >= 0 {
        ReplayNeverNegative(loaded.value, costs);
      }
    }
  }
}
