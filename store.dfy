/** The hosted catalog store as an in-memory value: one sequence of rows per
    table the core touches, and a counter the store draws new row ids from.
    Every write takes whether the store accepts it as an input, so a rejected
    write is a possible outcome of each call and writes nothing. */
module Store {
  import opened Seqs

  type Id = string

  datatype Option<T> = None | Some(value: T)

  datatype Organization = Organization(id: Id, name: string, slug: string, logoUrl: string, description: string)

  datatype UserRow = UserRow(id: Id, email: string, fullName: string, organizationId: Id)

  /** A subscription plan. Its `price_monthly` (a decimal) is not modelled. */
  datatype Plan = Plan(id: Id, organizationId: Id, name: string, maxCredits: int)

  datatype Status = Active | Inactive

  /** What a `monthly_credits_used` column holds: the column default, a number,
      or the JavaScript string concatenation of a row id and a cost. */
  datatype UsedCredits = DefaultUsed | UsedNumber(n: int) | UsedText(prefix: string, cost: int)

  datatype UserSubscription = UserSubscription(
    id: Id, userId: Id, planId: Id, organizationId: Id, status: Status,
    currentCredits: int, monthlyCreditsLimit: int, monthlyCreditsUsed: UsedCredits)

  datatype WatchTarget = ChannelWatch(channelId: Id) | ContentWatch(contentId: Id)

  datatype WatchRecord = WatchRecord(userId: Id, target: WatchTarget, creditsSpent: int)

  datatype Database = Database(
    organizations: seq<Organization>,
    users: seq<UserRow>,
    plans: seq<Plan>,
    subscriptions: seq<UserSubscription>,
    watchHistory: seq<WatchRecord>,
    nextId: nat)

  const DefaultSlug := "default"

  function Digits(n: nat): (d: string)
    ensures d != []
  {
    if n < 10 then [(48 + n) as char] else Digits(n / 10) + [(48 + n % 10) as char]
  }

  /** The id the store gives the row it creates when its counter is at n. */
  function MintId(n: nat): (id: Id)
    ensures id != ""
  {
    "id-" + Digits(n)
  }

  /** Different counter values give different decimal strings. */
  lemma {:induction false} DigitsInjective(a: nat, b: nat)
    ensures Digits(a) == Digits(b) ==> a == b
    decreases a
  {
    if Digits(a) == Digits(b) {
      var da, db := Digits(a), Digits(b);
      if a < 10 && b < 10 {
        assert da[0] == db[0];
      } else if a >= 10 && b >= 10 {
        assert da[|da| - 1] == db[|db| - 1];
        assert da[..|da| - 1] == Digits(a / 10);
        assert db[..|db| - 1] == Digits(b / 10);
        DigitsInjective(a / 10, b / 10);
      }
    }
  }

  /** Different counter values mint different ids. */
  lemma MintIdInjective(a: nat, b: nat)
    ensures MintId(a) == MintId(b) <==> a == b
  {
    if MintId(a) == MintId(b) {
      assert MintId(a)[3..] == Digits(a) && MintId(b)[3..] == Digits(b);
      DigitsInjective(a, b);
    }
  }

  /** `.maybeSingle()`: the row when exactly one matches, nothing otherwise
      (no match, or an error for several, which the callers ignore). */
  function MaybeSingle<T>(rows: seq<T>): (r: Option<T>)
    ensures r.Some? <==> |rows| == 1
    ensures r.Some? ==> r.value == rows[0]
  {
    if |rows| == 1 then Some(rows[0]) else None
  }

  predicate IsDefaultOrganization(o: Organization)
  {
    o.slug == DefaultSlug
  }

  /** `select id from organizations where slug = 'default'`, `.maybeSingle()`. */
  function DefaultOrganization(db: Database): (r: Option<Organization>)
    ensures r.Some? <==> |Filter(IsDefaultOrganization, db.organizations)| == 1
    ensures r.Some? ==> r.value in db.organizations && r.value.slug == DefaultSlug
  {
    var matches := Filter(IsDefaultOrganization, db.organizations);
    FilterCounts(IsDefaultOrganization, db.organizations);
    assert |matches| == 1 ==> matches[0] in multiset(matches);
    MaybeSingle(matches)
  }

  /** `select id from subscription_plans where organization_id = orgId and name = name`, `.maybeSingle()`. */
  function FindPlan(plans: seq<Plan>, orgId: Id, name: string): (r: Option<Plan>)
    ensures r.Some? ==> r.value in plans && r.value.organizationId == orgId && r.value.name == name
  {
    var matches := Filter((p: Plan) => p.organizationId == orgId && p.name == name, plans);
    FilterCounts((p: Plan) => p.organizationId == orgId && p.name == name, plans);
    assert |matches| == 1 ==> matches[0] in multiset(matches);
    MaybeSingle(matches)
  }

  /** The plan lookup finds a plan exactly when one plan of the organization
      has the name, so duplicated names make it find nothing. */
  lemma FindPlanNeedsOneMatch(plans: seq<Plan>, orgId: Id, name: string)
    ensures FindPlan(plans, orgId, name).Some?
      <==> |Filter((p: Plan) => p.organizationId == orgId && p.name == name, plans)| == 1
  {
  }

  /** The insert of the default organization, with the store's new id. */
  function AddDefaultOrganization(db: Database): (r: Database)
    ensures r.organizations == db.organizations
      + [Organization(MintId(db.nextId), "StreamHub Default", DefaultSlug, "", "Default organization")]
    ensures r.nextId == db.nextId + 1
    ensures r.users == db.users && r.plans == db.plans && r.subscriptions == db.subscriptions
    ensures r.watchHistory == db.watchHistory
  {
    var org := Organization(MintId(db.nextId), "StreamHub Default", DefaultSlug, "", "Default organization");
    db.(organizations := db.organizations + [org], nextId := db.nextId + 1)
  }

  /** The three tiers the sign-up creates, with the ids the store gives them
      when its counter is at n. */
  function TierPlans(n: nat, orgId: Id): (ps: seq<Plan>)
    ensures |ps| == 3
    ensures forall i :: 0 <= i < 3 ==> ps[i].organizationId == orgId && ps[i].id != ""
    ensures ps[0].name == "Free" && ps[0].maxCredits == 10
    ensures ps[1].name == "Basic" && ps[1].maxCredits == 50
    ensures ps[2].name == "Premium" && ps[2].maxCredits == 200
    ensures ps[0].id != ps[1].id && ps[1].id != ps[2].id && ps[0].id != ps[2].id
  {
    MintIdInjective(n, n + 1);
    MintIdInjective(n + 1, n + 2);
    MintIdInjective(n, n + 2);
    [ Plan(MintId(n), orgId, "Free", 10),
      Plan(MintId(n + 1), orgId, "Basic", 50),
      Plan(MintId(n + 2), orgId, "Premium", 200) ]
  }

  function AddTierPlans(db: Database, orgId: Id): (r: Database)
    ensures r.plans == db.plans + TierPlans(db.nextId, orgId)
    ensures r.nextId == db.nextId + 3
    ensures r.organizations == db.organizations && r.users == db.users
    ensures r.subscriptions == db.subscriptions && r.watchHistory == db.watchHistory
  {
    db.(plans := db.plans + TierPlans(db.nextId, orgId), nextId := db.nextId + 3)
  }

  /** The insert of an active subscription whose balance starts at its limit. */
  function AddSubscription(db: Database, userId: Id, planId: Id, orgId: Id, credits: int): (r: Database)
    ensures r.subscriptions == db.subscriptions
      + [UserSubscription(MintId(db.nextId), userId, planId, orgId, Active, credits, credits, DefaultUsed)]
    ensures r.nextId == db.nextId + 1
    ensures r.organizations == db.organizations && r.users == db.users && r.plans == db.plans
    ensures r.watchHistory == db.watchHistory
  {
    var row := UserSubscription(MintId(db.nextId), userId, planId, orgId, Active, credits, credits, DefaultUsed);
    db.(subscriptions := db.subscriptions + [row], nextId := db.nextId + 1)
  }

  /** `update user_subscriptions set current_credits = credits [, monthly_credits_used = used] where id = id`. */
  function UpdateSubscriptions(rows: seq<UserSubscription>, id: Id, credits: int, used: Option<UsedCredits>)
    : (r: seq<UserSubscription>)
    ensures |r| == |rows|
    ensures forall i :: 0 <= i < |rows| && rows[i].id != id ==> r[i] == rows[i]
    ensures forall i :: 0 <= i < |rows| && rows[i].id == id ==>
      r[i] == rows[i].(currentCredits := credits,
                       monthlyCreditsUsed := if used.Some? then used.value else rows[i].monthlyCreditsUsed)
  {
    seq(|rows|, i requires 0 <= i < |rows| =>
      if rows[i].id != id then rows[i]
      else rows[i].(currentCredits := credits,
                    monthlyCreditsUsed := if used.Some? then used.value else rows[i].monthlyCreditsUsed))
  }

  /** The store shared by the views. Each method is one request; those that
      write take `accepted`, whether the store performs the write. */
  class CatalogStore {
    var db: Database

    constructor (initial: Database)
      ensures db == initial
    {
      db := initial;
    }

    method SelectDefaultOrganization() returns (org: Option<Organization>)
      ensures org == DefaultOrganization(db)
    {
      org := DefaultOrganization(db);
    }

    method InsertDefaultOrganization(accepted: bool) returns (id: Option<Id>)
      modifies this
      ensures accepted ==> db == AddDefaultOrganization(old(db)) && id == Some(MintId(old(db).nextId))
      ensures !accepted ==> db == old(db) && id == None
    {
      if accepted {
        id := Some(MintId(db.nextId));
        db := AddDefaultOrganization(db);
      } else {
        id := None;
      }
    }

    method InsertUser(row: UserRow, accepted: bool)
      modifies this
      ensures db == if accepted then old(db).(users := old(db).users + [row]) else old(db)
    {
      if accepted {
        db := db.(users := db.users + [row]);
      }
    }

    method SelectPlan(orgId: Id, name: string) returns (plan: Option<Plan>)
      ensures plan == FindPlan(db.plans, orgId, name)
    {
      plan := FindPlan(db.plans, orgId, name);
    }

    /** Inserts the three tiers and returns the created rows, as `.select('id, name')` does. */
    method InsertTierPlans(orgId: Id, accepted: bool) returns (created: Option<seq<Plan>>)
      modifies this
      ensures accepted ==> db == AddTierPlans(old(db), orgId) && created == Some(TierPlans(old(db).nextId, orgId))
      ensures !accepted ==> db == old(db) && created == None
    {
      if accepted {
        created := Some(TierPlans(db.nextId, orgId));
        db := AddTierPlans(db, orgId);
      } else {
        created := None;
      }
    }

    method InsertSubscription(userId: Id, planId: Id, orgId: Id, credits: int, accepted: bool)
      modifies this
      ensures db == if accepted then AddSubscription(old(db), userId, planId, orgId, credits) else old(db)
    {
      if accepted {
        db := AddSubscription(db, userId, planId, orgId, credits);
      }
    }

    method InsertWatchRecord(record: WatchRecord, accepted: bool)
      modifies this
      ensures db == if accepted then old(db).(watchHistory := old(db).watchHistory + [record]) else old(db)
    {
      if accepted {
        db := db.(watchHistory := db.watchHistory + [record]);
      }
    }

    method UpdateSubscription(id: Id, credits: int, used: Option<UsedCredits>, accepted: bool)
      modifies this
      ensures db == if accepted
        then old(db).(subscriptions := UpdateSubscriptions(old(db).subscriptions, id, credits, used))
        else old(db)
    {
      if accepted {
        db := db.(subscriptions := UpdateSubscriptions(db.subscriptions, id, credits, used));
      }
    }
  }
}
