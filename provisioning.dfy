/** Sign-up provisioning of the authentication hook: after the account
    directory creates an account, get or create the organization with slug
    `default`, insert the user row, find the chosen plan by its capitalised
    name or else create the three fixed tiers and pick one, and insert an
    active subscription whose balance starts at the tier's credits. The first
    failing step aborts the rest; what earlier steps wrote stays written. */
module Provisioning {
  import opened Seqs
  import opened Text
  import opened Store

  /** The requests sign-up and sign-out make that can fail. */
  datatype Call = AuthSignUp | OrgInsert | UserInsert | PlansInsert | SubscriptionInsert | AuthSignOut

  /** What the account directory answers to the sign-up request. */
  datatype AuthOutcome = AuthRejected | NoUser | NewUser(userId: Id)

  /** `{success: true}` or `{success: false, error}`, the error named by the failing request. */
  datatype SignUpResult = SignedUp | SignUpFailed(failedAt: Call)

  datatype SignUpRun = SignUpRun(db: Database, result: SignUpResult)

  predicate IsTier(planId: string)
  {
    planId == "free" || planId == "basic" || planId == "premium"
  }

  /** The subscription's initial balance and monthly limit for a plan id. */
  function TierCredits(planId: string): (n: int)
    ensures n == 10 <==> planId == "free"
    ensures n == 50 <==> planId == "basic"
    ensures n == 200 <==> planId != "free" && planId != "basic"
  {
    if planId == "free" then 10 else if planId == "basic" then 50 else 200
  }

  /** The plan name looked up for a plan id: its first character upper-cased. */
  function PlanName(planId: string): (name: string)
    ensures |name| == |planId| && Lower(name) == Lower(planId)
    ensures planId != [] ==> name[0] == UpperChar(planId[0]) && name[1..] == planId[1..]
  {
    Capitalize(planId)
  }

  lemma TierPlanNames()
    ensures PlanName("free") == "Free" && PlanName("basic") == "Basic" && PlanName("premium") == "Premium"
  {
  }

  /** `plans.find(p => p.name.toLowerCase() === planId)` */
  function FirstNamed(plans: seq<Plan>, planId: string): (r: Option<Plan>)
    ensures r.None? <==> forall i :: 0 <= i < |plans| ==> Lower(plans[i].name) != planId
    ensures r.Some? ==> (exists i :: 0 <= i < |plans| && plans[i] == r.value && Lower(r.value.name) == planId
                                   && forall j :: 0 <= j < i ==> Lower(plans[j].name) != planId)
  {
    if plans == [] then None
    else if Lower(plans[0].name) == planId then Some(plans[0])
    else
      var r := FirstNamed(plans[1..], planId);
      assert r.Some? ==> (exists i :: 0 <= i < |plans| && plans[i] == r.value && Lower(r.value.name) == planId
                                     && forall j :: 0 <= j < i ==> Lower(plans[j].name) != planId) by {
        if r.Some? {
          var i :| 0 <= i < |plans| - 1 && plans[1..][i] == r.value && Lower(r.value.name) == planId
            && forall j :: 0 <= j < i ==> Lower(plans[1..][j].name) != planId;
          assert forall j :: 0 <= j < i + 1 ==> Lower(plans[j].name) != planId by {
            forall j | 0 <= j < i + 1 ensures Lower(plans[j].name) != planId {
              if j > 0 { assert plans[j] == plans[1..][j - 1]; }
            }
          }
        }
      }
      r
  }

  /** `createdPlans.find(...)?.id || createdPlans[0]?.id || ''`: the id of the
      first created plan whose lower-cased name is the plan id, else of the
      first created plan, else the empty string (an empty id is falsy and
      falls through too). */
  function ChoosePlan(created: seq<Plan>, planId: string): (id: Id)
    ensures id != "" ==> exists i :: 0 <= i < |created| && created[i].id == id
    ensures created != [] && (forall i :: 0 <= i < |created| ==> created[i].id != "") ==> id != ""
    ensures FirstNamed(created, planId).Some? && FirstNamed(created, planId).value.id != "" ==>
      id == FirstNamed(created, planId).value.id
    ensures FirstNamed(created, planId).None? && created != [] ==> id == created[0].id
    ensures FirstNamed(created, planId).Some? && FirstNamed(created, planId).value.id == "" && created != [] ==>
      id == created[0].id
  {
    var hit := FirstNamed(created, planId);
    if hit.Some? && hit.value.id != "" then hit.value.id
    else if created != [] && created[0].id != "" then created[0].id
    else ""
  }

  /** Which of the three created tiers a plan id picks: its own tier, and the
      first (Free) for any other plan id. */
  lemma {:induction false} ChosenTier(n: nat, orgId: Id, planId: string)
    ensures var ps := TierPlans(n, orgId);
      var k := if planId == "basic" then 1 else if planId == "premium" then 2 else 0;
      ChoosePlan(ps, planId) == ps[k].id
      && (IsTier(planId) ==> ps[k].maxCredits == TierCredits(planId) && Lower(ps[k].name) == planId)
      && (!IsTier(planId) ==> ps[k].name == "Free" && ps[k].maxCredits == 10 && TierCredits(planId) == 200)
  {
    var ps := TierPlans(n, orgId);
    assert Lower("Free") == "free";
    assert Lower("Basic") == "basic";
    assert Lower("Premium") == "premium";
    assert ps[0].name == "Free" && ps[1].name == "Basic" && ps[2].name == "Premium";
    if planId == "basic" {
      assert FirstNamed(ps, planId) == Some(ps[1]);
    } else if planId == "premium" {
      assert FirstNamed(ps, planId) == Some(ps[2]);
    } else if planId == "free" {
      assert FirstNamed(ps, planId) == Some(ps[0]);
    } else {
      assert FirstNamed(ps, planId) == None;
    }
  }

  /** The id of the organization sign-up uses: the existing default one, or the
      one it is about to create. */
  function OrgIdFor(db: Database): (id: Id)
    ensures DefaultOrganization(db).Some? ==> id == DefaultOrganization(db).value.id
    ensures DefaultOrganization(db).None? ==> id == MintId(db.nextId)
  {
    match DefaultOrganization(db)
    case Some(org) => org.id
    case None => MintId(db.nextId)
  }

  /** The number of ids the organization step draws from the store's counter. */
  function OrgIds(db: Database): nat
  {
    if DefaultOrganization(db).Some? then 0 else 1
  }

  /** The store after the organization step succeeds: unchanged when the
      default organization exists, otherwise with it inserted. */
  function OrgStep(db: Database): (r: Database)
    ensures DefaultOrganization(db).Some? ==> r == db
    ensures DefaultOrganization(db).None? ==> r == AddDefaultOrganization(db)
    ensures r.users == db.users && r.plans == db.plans && r.subscriptions == db.subscriptions
    ensures r.nextId == db.nextId + OrgIds(db)
  {
    if DefaultOrganization(db).Some? then db else AddDefaultOrganization(db)
  }

  /** The store after sign-up and its result; `rejects` names the store
      requests that fail. */
  function SignUpSpec(db: Database, email: string, fullName: string, planId: string,
                      auth: AuthOutcome, rejects: set<Call>): SignUpRun
  {
    match auth
    case AuthRejected => SignUpRun(db, SignUpFailed(AuthSignUp))
    case NoUser => SignUpRun(db, SignedUp)
    case NewUser(uid) => Provision(db, uid, email, fullName, planId, rejects)
  }

  /** Provisioning for a new account: organization, then user row, then the
      plan and the subscription. */
  function Provision(db: Database, uid: Id, email: string, fullName: string, planId: string,
                     rejects: set<Call>): SignUpRun
  {
    if DefaultOrganization(db).None? && OrgInsert in rejects then SignUpRun(db, SignUpFailed(OrgInsert))
    else if UserInsert in rejects then SignUpRun(OrgStep(db), SignUpFailed(UserInsert))
    else
      var db1 := OrgStep(db);
      Subscribe(db1.(users := db1.users + [UserRow(uid, email, fullName, OrgIdFor(db))]),
                OrgIdFor(db), uid, planId, rejects)
  }

  /** The plan step and the subscription insert, once the user row is in. */
  function Subscribe(db: Database, orgId: Id, uid: Id, planId: string, rejects: set<Call>): SignUpRun
  {
    var plan := FindPlan(db.plans, orgId, PlanName(planId));
    if plan.None? && PlansInsert in rejects then SignUpRun(db, SignUpFailed(PlansInsert))
    else
      var db1 := if plan.Some? then db else AddTierPlans(db, orgId);
      var planRef := if plan.Some? then plan.value.id else ChoosePlan(TierPlans(db.nextId, orgId), planId);
      if SubscriptionInsert in rejects then SignUpRun(db1, SignUpFailed(SubscriptionInsert))
      else SignUpRun(AddSubscription(db1, uid, planRef, orgId, TierCredits(planId)), SignedUp)
  }

  /** Sign-up only appends: every table keeps its rows, gains at most one
      organization, one user, three plans and one subscription, and the watch
      history is untouched; only the requests sign-up makes can fail it, and
      without a new account nothing is written. */
  lemma SignUpOnlyAppends(db: Database, email: string, fullName: string, planId: string,
                          auth: AuthOutcome, rejects: set<Call>)
    ensures var run := SignUpSpec(db, email, fullName, planId, auth, rejects);
      && db.organizations <= run.db.organizations && |run.db.organizations| <= |db.organizations| + 1
      && db.users <= run.db.users && |run.db.users| <= |db.users| + 1
      && db.plans <= run.db.plans && |run.db.plans| <= |db.plans| + 3
      && db.subscriptions <= run.db.subscriptions && |run.db.subscriptions| <= |db.subscriptions| + 1
      && run.db.watchHistory == db.watchHistory && run.db.nextId >= db.nextId
      && (run.result.SignUpFailed? ==> run.result.failedAt != AuthSignOut)
      && (!auth.NewUser? ==> run.db == db)
  {
    if auth.NewUser? && !(DefaultOrganization(db).None? && OrgInsert in rejects) && UserInsert !in rejects {
      var db1 := OrgStep(db);
      var db2 := db1.(users := db1.users + [UserRow(auth.userId, email, fullName, OrgIdFor(db))]);
      SubscribeOnlyAppends(db2, OrgIdFor(db), auth.userId, planId, rejects);
      assert SignUpSpec(db, email, fullName, planId, auth, rejects) == Subscribe(db2, OrgIdFor(db), auth.userId, planId, rejects);
    }
  }

  /** The plan step and the subscription insert leave organizations, users and
      the watch history alone, append at most three plans and one
      subscription, and fail only at their own requests. */
  lemma SubscribeOnlyAppends(db: Database, orgId: Id, uid: Id, planId: string, rejects: set<Call>)
    ensures var run := Subscribe(db, orgId, uid, planId, rejects);
      && run.db.organizations == db.organizations && run.db.users == db.users
      && db.plans <= run.db.plans && |run.db.plans| <= |db.plans| + 3
      && db.subscriptions <= run.db.subscriptions && |run.db.subscriptions| <= |db.subscriptions| + 1
      && run.db.watchHistory == db.watchHistory && run.db.nextId >= db.nextId
      && (run.result.SignUpFailed? ==> run.result.failedAt == PlansInsert || run.result.failedAt == SubscriptionInsert)
  {
  }

  /** Without an account there is nothing to provision: a rejected sign-up
      fails with nothing written, and an answer without a user succeeds with
      nothing written. */
  lemma NoAccountNoWrites(db: Database, email: string, fullName: string, planId: string, rejects: set<Call>)
    ensures SignUpSpec(db, email, fullName, planId, AuthRejected, rejects) == SignUpRun(db, SignUpFailed(AuthSignUp))
    ensures SignUpSpec(db, email, fullName, planId, NoUser, rejects) == SignUpRun(db, SignedUp)
  {
  }

  /** The default organization is reused when it exists; otherwise exactly one
      is inserted, with slug `default`, unless that insert is rejected. */
  lemma OrganizationGetOrCreate(db: Database, email: string, fullName: string, planId: string, uid: Id, rejects: set<Call>)
    ensures var run := SignUpSpec(db, email, fullName, planId, NewUser(uid), rejects);
      && (DefaultOrganization(db).Some? ==> run.db.organizations == db.organizations)
      && (DefaultOrganization(db).None? && OrgInsert in rejects ==> run == SignUpRun(db, SignUpFailed(OrgInsert)))
      && (DefaultOrganization(db).None? && OrgInsert !in rejects ==>
            run.db.organizations == db.organizations
              + [Organization(MintId(db.nextId), "StreamHub Default", DefaultSlug, "", "Default organization")])
  {
  }

  /** At most one default organization stays at most one. */
  lemma {:induction false} DefaultOrganizationStaysUnique(db: Database, email: string, fullName: string,
                                                         planId: string, auth: AuthOutcome, rejects: set<Call>)
    requires |Filter(IsDefaultOrganization, db.organizations)| <= 1
    ensures var run := SignUpSpec(db, email, fullName, planId, auth, rejects);
      |Filter(IsDefaultOrganization, run.db.organizations)| <= 1
  {
    var run := SignUpSpec(db, email, fullName, planId, auth, rejects);
    if run.db.organizations != db.organizations {
      var org := Organization(MintId(db.nextId), "StreamHub Default", DefaultSlug, "", "Default organization");
      assert run.db.organizations == db.organizations + [org];
      FilterConcat(IsDefaultOrganization, db.organizations, [org]);
      assert |Filter(IsDefaultOrganization, db.organizations)| != 1;
    }
  }

  /** The user row goes in after the organization step, carrying its id. */
  lemma UserInserted(db: Database, email: string, fullName: string, planId: string, uid: Id, rejects: set<Call>)
    requires DefaultOrganization(db).Some? || OrgInsert !in rejects
    ensures var run := SignUpSpec(db, email, fullName, planId, NewUser(uid), rejects);
      && (UserInsert in rejects ==> run.result == SignUpFailed(UserInsert) && run.db.users == db.users)
      && (UserInsert !in rejects ==> run.db.users == db.users + [UserRow(uid, email, fullName, OrgIdFor(db))])
  {
  }

  /** A plan already named for the chosen tier is reused and no plan is
      created; otherwise the three tiers are inserted for the organization,
      unless that insert is rejected. */
  lemma PlansGetOrCreate(db: Database, email: string, fullName: string, planId: string, uid: Id, rejects: set<Call>)
    requires DefaultOrganization(db).Some? || OrgInsert !in rejects
    requires UserInsert !in rejects
    ensures var run := SignUpSpec(db, email, fullName, planId, NewUser(uid), rejects);
      var found := FindPlan(db.plans, OrgIdFor(db), PlanName(planId));
      && (found.Some? ==> run.db.plans == db.plans)
      && (found.Some? && run.result == SignedUp ==> run.db.subscriptions[|db.subscriptions|].planId == found.value.id)
      && (found.None? && PlansInsert in rejects ==> run.result == SignUpFailed(PlansInsert) && run.db.plans == db.plans)
      && (found.None? && PlansInsert !in rejects ==>
            run.db.plans == db.plans + TierPlans(db.nextId + OrgIds(db), OrgIdFor(db)))
  {
    var db1 := OrgStep(db);
    var db2 := db1.(users := db1.users + [UserRow(uid, email, fullName, OrgIdFor(db))]);
    assert db2.plans == db.plans && db2.nextId == db.nextId + OrgIds(db);
    assert SignUpSpec(db, email, fullName, planId, NewUser(uid), rejects) == Subscribe(db2, OrgIdFor(db), uid, planId, rejects);
  }

  /** A successful sign-up of a new account adds exactly one subscription: the
      user's, active, in the default organization, with its balance equal to
      its monthly limit, both the tier's credits. */
  lemma SubscriptionFromTier(db: Database, email: string, fullName: string, planId: string, uid: Id, rejects: set<Call>)
    ensures var run := SignUpSpec(db, email, fullName, planId, NewUser(uid), rejects);
      run.result == SignedUp ==>
        && |run.db.subscriptions| == |db.subscriptions| + 1
        && run.db.subscriptions[..|db.subscriptions|] == db.subscriptions
        && var row := run.db.subscriptions[|db.subscriptions|];
           row.userId == uid && row.status == Active && row.organizationId == OrgIdFor(db)
           && row.currentCredits == row.monthlyCreditsLimit == TierCredits(planId)
  {
  }

  /** The first rejected request ends sign-up with its name; nothing after it
      is written, and what came before is not undone (a user row inserted
      before a rejected subscription insert stays). */
  lemma FailureStopsLaterSteps(db: Database, email: string, fullName: string, planId: string, uid: Id, rejects: set<Call>)
    ensures var run := SignUpSpec(db, email, fullName, planId, NewUser(uid), rejects);
      && (run.result.SignUpFailed? ==> run.db.subscriptions == db.subscriptions)
      && (run.result == SignUpFailed(OrgInsert) ==> run.db == db)
      && (run.result == SignUpFailed(UserInsert) ==>
            run.db.users == db.users && run.db.plans == db.plans)
      && (run.result == SignUpFailed(PlansInsert) ==>
            run.db.users == db.users + [UserRow(uid, email, fullName, OrgIdFor(db))] && run.db.plans == db.plans)
      && (run.result == SignUpFailed(SubscriptionInsert) ==>
            run.db.users == db.users + [UserRow(uid, email, fullName, OrgIdFor(db))])
      && (run.result == SignedUp <==>
            (DefaultOrganization(db).Some? || OrgInsert !in rejects) && UserInsert !in rejects
            && (FindPlan(db.plans, OrgIdFor(db), PlanName(planId)).Some? || PlansInsert !in rejects)
            && SubscriptionInsert !in rejects)
  {
  }

  /** The subscription row the plan step leads to when it has to create the tiers. */
  lemma SubscribeWithCreatedTiers(db: Database, orgId: Id, uid: Id, planId: string, rejects: set<Call>)
    requires FindPlan(db.plans, orgId, PlanName(planId)).None?
    requires PlansInsert !in rejects && SubscriptionInsert !in rejects
    ensures Subscribe(db, orgId, uid, planId, rejects).db.subscriptions == db.subscriptions
      + [UserSubscription(MintId(db.nextId + 3), uid, ChoosePlan(TierPlans(db.nextId, orgId), planId), orgId,
                          Active, TierCredits(planId), TierCredits(planId), DefaultUsed)]
  {
  }

  /** When the tiers are created, a tier plan id gets its own tier's plan and
      that plan's credits match the subscription's; any other plan id gets
      the Free plan with a balance of 200. */
  lemma CreatedPlanChoice(db: Database, email: string, fullName: string, planId: string, uid: Id, rejects: set<Call>)
    requires FindPlan(db.plans, OrgIdFor(db), PlanName(planId)).None?
    ensures var run := SignUpSpec(db, email, fullName, planId, NewUser(uid), rejects);
      var ps := TierPlans(db.nextId + OrgIds(db), OrgIdFor(db));
      run.result == SignedUp ==>
        var row := run.db.subscriptions[|db.subscriptions|];
        && (IsTier(planId) ==> exists k :: 0 <= k < 3 && row.planId == ps[k].id
                                 && Lower(ps[k].name) == planId && ps[k].maxCredits == row.currentCredits)
        && (!IsTier(planId) ==> row.planId == ps[0].id && ps[0].name == "Free" && row.currentCredits == 200)
  {
    var orgId := OrgIdFor(db);
    var n := db.nextId + OrgIds(db);
    var ps := TierPlans(n, orgId);
    var db1 := OrgStep(db);
    var db2 := db1.(users := db1.users + [UserRow(uid, email, fullName, orgId)]);
    assert db2.plans == db.plans && db2.nextId == n && db2.subscriptions == db.subscriptions;
    var run := SignUpSpec(db, email, fullName, planId, NewUser(uid), rejects);
    if run.result == SignedUp {
      assert run == Subscribe(db2, orgId, uid, planId, rejects);
      assert PlansInsert !in rejects && SubscriptionInsert !in rejects;
      SubscribeWithCreatedTiers(db2, orgId, uid, planId, rejects);
      var row := run.db.subscriptions[|db.subscriptions|];
      assert row.planId == ChoosePlan(ps, planId) && row.currentCredits == TierCredits(planId);
      ChosenTier(n, orgId, planId);
      var k := if planId == "basic" then 1 else if planId == "premium" then 2 else 0;
      assert row.planId == ps[k].id;
    }
  }

  /** After a successful sign-up the default organization it used is the one
      a later lookup finds. */
  lemma {:induction false} SignedUpLeavesDefaultOrganization(db: Database, email: string, fullName: string,
                                                            planId: string, uid: Id, rejects: set<Call>, db1: Database)
    requires |Filter(IsDefaultOrganization, db.organizations)| <= 1
    requires SignUpSpec(db, email, fullName, planId, NewUser(uid), rejects) == SignUpRun(db1, SignedUp)
    ensures DefaultOrganization(db1).Some? && OrgIdFor(db1) == OrgIdFor(db)
  {
    OrganizationGetOrCreate(db, email, fullName, planId, uid, rejects);
    if DefaultOrganization(db).None? {
      var org := Organization(MintId(db.nextId), "StreamHub Default", DefaultSlug, "", "Default organization");
      assert db1.organizations == db.organizations + [org];
      FilterConcat(IsDefaultOrganization, db.organizations, [org]);
      FilterNone(IsDefaultOrganization, db.organizations) by {
        FilterCounts(IsDefaultOrganization, db.organizations);
        forall i | 0 <= i < |db.organizations| ensures !IsDefaultOrganization(db.organizations[i]) {
          assert db.organizations[i] in multiset(db.organizations);
        }
      }
      assert Filter(IsDefaultOrganization, db1.organizations) == [org];
    }
  }

  /** Once the three tiers exist for an organization that had no plan, looking
      up a tier by its capitalised name finds exactly that plan. */
  lemma {:induction false} TierFoundAfterCreation(plans: seq<Plan>, n: nat, orgId: Id, planId: string)
    requires forall i :: 0 <= i < |plans| ==> plans[i].organizationId != orgId
    requires IsTier(planId)
    ensures FindPlan(plans + TierPlans(n, orgId), orgId, PlanName(planId)).Some?
  {
    var ps := TierPlans(n, orgId);
    var wanted := (p: Plan) => p.organizationId == orgId && p.name == PlanName(planId);
    FilterConcat(wanted, plans, ps);
    FilterNone(wanted, plans);
    TierPlanNames();
    assert ps == [ps[0]] + [ps[1]] + [ps[2]];
    FilterConcat(wanted, [ps[0]] + [ps[1]], [ps[2]]);
    FilterConcat(wanted, [ps[0]], [ps[1]]);
    assert |Filter(wanted, ps)| == 1;
  }

  /** A sign-up that finds both the default organization and its plan
      creates neither. */
  lemma {:induction false} NothingSharedCreatedWhenFound(db: Database, email: string, fullName: string,
                                                        planId: string, uid: Id, rejects: set<Call>)
    requires DefaultOrganization(db).Some?
    requires FindPlan(db.plans, OrgIdFor(db), PlanName(planId)).Some?
    ensures var run := SignUpSpec(db, email, fullName, planId, NewUser(uid), rejects);
      run.db.organizations == db.organizations && run.db.plans == db.plans
  {
    OrganizationGetOrCreate(db, email, fullName, planId, uid, rejects);
    UserInserted(db, email, fullName, planId, uid, rejects);
    if UserInsert in rejects {
      FailureStopsLaterSteps(db, email, fullName, planId, uid, rejects);
    } else {
      PlansGetOrCreate(db, email, fullName, planId, uid, rejects);
    }
  }

  /** A successful first sign-up into an organization without plans leaves
      the three tiers behind. */
  lemma {:induction false} FirstSignUpCreatesTiers(db: Database, email: string, fullName: string,
                                                  planId: string, uid: Id, rejects: set<Call>, db1: Database)
    requires forall i :: 0 <= i < |db.plans| ==> db.plans[i].organizationId != OrgIdFor(db)
    requires SignUpSpec(db, email, fullName, planId, NewUser(uid), rejects) == SignUpRun(db1, SignedUp)
    ensures db1.plans == db.plans + TierPlans(db.nextId + OrgIds(db), OrgIdFor(db))
  {
    var orgId := OrgIdFor(db);
    FilterNone((p: Plan) => p.organizationId == orgId && p.name == PlanName(planId), db.plans);
    assert FindPlan(db.plans, orgId, PlanName(planId)).None?;
    PlansGetOrCreate(db, email, fullName, planId, uid, rejects);
  }

  /** After a successful first sign-up into an organization without plans,
      the default organization and every tier are found. */
  lemma {:induction false} FirstSignUpLeavesTiersFound(
    db: Database, email: string, fullName: string, planId: string, uid: Id, rejects: set<Call>, db1: Database,
    tier: string)
    requires |Filter(IsDefaultOrganization, db.organizations)| <= 1
    requires forall i :: 0 <= i < |db.plans| ==> db.plans[i].organizationId != OrgIdFor(db)
    requires SignUpSpec(db, email, fullName, planId, NewUser(uid), rejects) == SignUpRun(db1, SignedUp)
    requires IsTier(tier)
    ensures DefaultOrganization(db1).Some? && FindPlan(db1.plans, OrgIdFor(db1), PlanName(tier)).Some?
  {
    SignedUpLeavesDefaultOrganization(db, email, fullName, planId, uid, rejects, db1);
    FirstSignUpCreatesTiers(db, email, fullName, planId, uid, rejects, db1);
    TierFoundAfterCreation(db.plans, db.nextId + OrgIds(db), OrgIdFor(db), tier);
  }

  /** A second sign-up after a successful one that left the store at db1, the
      second choosing one of the three tiers, creates no organization and no
      plan: the organization and the tier plans the first one left are found. */
  lemma {:induction false} SecondSignUpCreatesNothingShared(
    db: Database, email1: string, name1: string, plan1: string, uid1: Id, rejects1: set<Call>, db1: Database,
    email2: string, name2: string, plan2: string, uid2: Id, rejects2: set<Call>)
    requires |Filter(IsDefaultOrganization, db.organizations)| <= 1
    requires forall i :: 0 <= i < |db.plans| ==> db.plans[i].organizationId != OrgIdFor(db)
    requires SignUpSpec(db, email1, name1, plan1, NewUser(uid1), rejects1) == SignUpRun(db1, SignedUp)
    requires IsTier(plan2)
    ensures var run2 := SignUpSpec(db1, email2, name2, plan2, NewUser(uid2), rejects2);
      run2.db.organizations == db1.organizations && run2.db.plans == db1.plans
  {
    FirstSignUpLeavesTiersFound(db, email1, name1, plan1, uid1, rejects1, db1, plan2);
    NothingSharedCreatedWhenFound(db1, email2, name2, plan2, uid2, rejects2);
  }

  /** The authentication hook: the signed-in user's row, the last error, and
      the store sign-up writes to. */
  class AuthHook {
    const store: CatalogStore
    var user: Option<UserRow>
    var error: Option<Call>

    constructor (store: CatalogStore, user: Option<UserRow>)
      ensures this.store == store && this.user == user && error == None
    {
      this.store := store;
      this.user := user;
      error := None;
    }

    /** `isAuthenticated`: `!!user`. */
    function IsAuthenticated(): (b: bool)
      reads this
      ensures b <==> user.Some?
    {
      user.Some?
    }

    /** `signUp`; `auth` is the account directory's answer and `rejects` the
        store requests that fail. The signed-in user is set by the session
        listener, not here. */
    method SignUp(email: string, fullName: string, planId: string, auth: AuthOutcome, rejects: set<Call>)
      returns (result: SignUpResult)
      modifies this, store
      ensures var run := SignUpSpec(old(store.db), email, fullName, planId, auth, rejects);
        store.db == run.db && result == run.result
      ensures error == if result.SignUpFailed? then Some(result.failedAt) else None
      ensures user == old(user)
    {
      error := None;
      if auth.AuthRejected? {
        result := SignUpFailed(AuthSignUp);
        error := Some(AuthSignUp);
        return;
      }
      if auth.NewUser? {
        var uid := auth.userId;
        ghost var db0 := store.db;
        var orgId: Id;
        var org := store.SelectDefaultOrganization();
        if org.Some? {
          orgId := org.value.id;
        } else {
          var newOrg := store.InsertDefaultOrganization(OrgInsert !in rejects);
          if newOrg.None? {
            result := SignUpFailed(OrgInsert);
            error := Some(OrgInsert);
            return;
          }
          orgId := newOrg.value;
        }
        assert store.db == OrgStep(db0) && orgId == OrgIdFor(db0);

        store.InsertUser(UserRow(uid, email, fullName, orgId), UserInsert !in rejects);
        if UserInsert in rejects {
          result := SignUpFailed(UserInsert);
          error := Some(UserInsert);
          return;
        }
        ghost var db2 := store.db;
        assert SignUpSpec(db0, email, fullName, planId, auth, rejects) == Subscribe(db2, orgId, uid, planId, rejects);

        var planIdToUse: Id;
        var plan := store.SelectPlan(orgId, PlanName(planId));
        if plan.Some? {
          planIdToUse := plan.value.id;
        } else {
          var created := store.InsertTierPlans(orgId, PlansInsert !in rejects);
          if created.None? {
            result := SignUpFailed(PlansInsert);
            error := Some(PlansInsert);
            return;
          }
          planIdToUse := ChoosePlan(created.value, planId);
        }

        store.InsertSubscription(uid, planIdToUse, orgId, TierCredits(planId), SubscriptionInsert !in rejects);
        if SubscriptionInsert in rejects {
          result := SignUpFailed(SubscriptionInsert);
          error := Some(SubscriptionInsert);
          return;
        }
      }
      result := SignedUp;
    }

    /** `signOut`; `threw` says whether the account directory's sign-out throws. */
    method SignOut(threw: bool) returns (ok: bool)
      modifies this
      ensures ok == !threw
      ensures ok ==> user == None && error == None && !IsAuthenticated()
      ensures !ok ==> user == old(user) && error == Some(AuthSignOut)
    {
      error := None;
      if threw {
        error := Some(AuthSignOut);
        ok := false;
      } else {
        user := None;
        ok := true;
      }
    }
  }
}
