/** How sign-up and the streaming view meet: the subscription a successful
    sign-up creates is the one the view loads, so a new account starts
    watching with its tier's credits. */
module Session {
  import opened Seqs
  import opened Store
  import opened Catalog
  import opened Entitlement
  import opened Provisioning

  /** Appending one active subscription for an account that had none makes
      it the one the view loads. */
  lemma {:induction false} LoadsAppendedSubscription(before: seq<UserSubscription>, after: Database,
                                                    row: UserSubscription, uid: Id)
    requires forall i :: 0 <= i < |before| ==> before[i].userId != uid || before[i].status != Active
    requires row.userId == uid && row.status == Active
    requires after.subscriptions == before + [row]
    ensures LoadSubscription(after, uid) == Some(Subscription(row.id, row.currentCredits))
  {
    var mine := (r: UserSubscription) => r.userId == uid && r.status == Active;
    FilterConcat(mine, before, [row]);
    FilterNone(mine, before);
    assert Filter(mine, [row]) == [row];
    assert Filter(mine, after.subscriptions) == [row];
  }

  /** For an account with no active subscription yet, a successful sign-up
      that leaves the store at db1 makes the view load exactly the new
      subscription, whose balance is the tier's credits, and the badge shows
      them. */
  lemma {:induction false} NewAccountLoadsTierCredits(db: Database, email: string, fullName: string,
                                                     planId: string, uid: Id, rejects: set<Call>, db1: Database)
    requires forall i :: 0 <= i < |db.subscriptions| ==>
      db.subscriptions[i].userId != uid || db.subscriptions[i].status != Active
    requires SignUpSpec(db, email, fullName, planId, NewUser(uid), rejects) == SignUpRun(db1, SignedUp)
    ensures var sub := LoadSubscription(db1, uid);
      && sub.Some? && sub.value.currentCredits == TierCredits(planId)
      && sub.value.id == db1.subscriptions[|db.subscriptions|].id
      && CreditBadge(sub) == TierCredits(planId)
  {
    SubscriptionFromTier(db, email, fullName, planId, uid, rejects);
    var row := db1.subscriptions[|db.subscriptions|];
    assert db1.subscriptions == db.subscriptions + [row];
    LoadsAppendedSubscription(db.subscriptions, db1, row, uid);
  }
}
