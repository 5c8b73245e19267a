/**
 More grants never hurt and more freezes or prohibitions never help
 (src/soctalk/authorization/engine.py: the freeze, coverage and policy checks).
 */
module AuthorizationMonotone {
  import opened Wrappers
  import opened AuthorizationModel
  import opened AuthorizationEngine
  import opened AuthorizationOrder
  import opened AuthorizationCoverage

  /** Whatever holds in `c` holds in `d`. */
  predicate Leq(c: Components, d: Components) {
    && (c.sanctionedOrRoutine ==> d.sanctionedOrRoutine)
    && (c.inScope ==> d.inScope)
    && (c.actorGenuine ==> d.actorGenuine)
    && (c.policyAllowed ==> d.policyAllowed)
  }

  /** `b` is `a` with grants added. */
  ghost predicate AddsGrants(a: seq<Fact>, b: seq<Fact>) {
    && (forall f :: f in a ==> f in b)
    && (forall f: Fact :: f in b && f !in a ==> f.body.GrantBody?)
  }

  /** `b` is `a` with freezes and prohibitions added. */
  ghost predicate AddsBlocks(a: seq<Fact>, b: seq<Fact>) {
    && (forall f :: f in a ==> f in b)
    && (forall f: Fact :: f in b && f !in a ==> f.body.FreezeBody? || f.body.ProhibitionBody?)
  }

  // ----- grants

  lemma {:induction false} GrantsLiftProhibitions(a: seq<Fact>, b: seq<Fact>, act: Activity)
    requires AddsGrants(a, b)
    ensures forall f :: f in b && AcctStopped(b, f, act) ==> f in a && AcctStopped(a, f, act)
  {
    ViewsAgree(a, b, act);
    var env := AssetOf(a, act).env;
    TicketCoversAgree(a, b, act, env);
    assert forall f: Fact :: f.body.ProhibitionBody? ==> (f in a <==> f in b);
    hide AssetOf, AccountOf, Linked, ActorGenuine, AcctTicketCovers, AcctForbids;
    assert AcctEmergency(a, act, env) ==> AcctEmergency(b, act, env);
    hide AcctEmergency;
  }

  lemma {:induction false} GrantsHelpAccount(a: seq<Fact>, b: seq<Fact>, act: Activity)
    requires AddsGrants(a, b)
    ensures Leq(AccountComponents(a, act), AccountComponents(b, act))
  {
    ViewsAgree(a, b, act);
    CoversSame(a, b, act);
    GrantsLiftProhibitions(a, b, act);
    hide AssetOf, AccountOf, Linked, ActorGenuine, AcctSanctions, AcctCovers, AcctStopped;
  }

  lemma {:induction false} GrantsHelpFim(matches: Matcher, a: seq<Fact>, b: seq<Fact>, act: Activity)
    requires AddsGrants(a, b)
    ensures Leq(FimComponents(matches, a, act), FimComponents(matches, b, act))
  {
    ViewsAgree(a, b, act);
    SameActiveFreezes(a, b, act);
    FimScope(matches, a, act);
    FimScope(matches, b, act);
    assert forall f: Fact :: f.body.ProhibitionBody? ==> (f in a <==> f in b);
    hide PathOf, FimSanctions, FimTicketCovers, FimBaselineCovers, FimForbids, Excepts, ActiveFreeze, FimBlocked;
    assert FimEmergency(matches, a, act) ==> FimEmergency(matches, b, act);
    assert forall fr :: Excepted(matches, a, fr, act) ==> Excepted(matches, b, fr, act);
    hide FimEmergency, Excepted;
    assert forall f :: FimStopped(matches, b, f, act) ==> FimStopped(matches, a, f, act);
    assert forall f :: FimStopped(matches, b, f, act) ==> f.body.ProhibitionBody?;
    hide FimStopped, FimCovers;
  }

  lemma {:induction false} SelectionAddsGrants(a: seq<Fact>, b: seq<Fact>, track: Track, tenant: Option<string>)
    requires AddsGrants(a, b)
    ensures AddsGrants(SelectFacts(a, track, tenant), SelectFacts(b, track, tenant))
  {
  }

  /** Adding grants, whatever they say, never turns a component from true to false, and never loses a
      `covered`. */
  lemma {:induction false} GrantsNeverHurt(matches: Matcher, act: Activity, a: seq<Fact>, b: seq<Fact>,
      tenant: Option<string>)
    requires AddsGrants(a, b)
    ensures Leq(Evaluate(matches, act, a, tenant), Evaluate(matches, act, b, tenant))
    ensures DeriveClass(matches, Some(Context(tenant, act, a))).0 == Covered
            ==> DeriveClass(matches, Some(Context(tenant, act, b))).0 == Covered
  {
    var x, y := SelectFacts(a, act.track, tenant), SelectFacts(b, act.track, tenant);
    SelectionAddsGrants(a, b, act.track, tenant);
    if act.track == FimTrack {
      GrantsHelpFim(matches, x, y, act);
    } else {
      GrantsHelpAccount(x, y, act);
    }
    ClassIff(matches, Context(tenant, act, a));
    ClassIff(matches, Context(tenant, act, b));
    hide SelectFacts, FimComponents, AccountComponents, DeriveClass, GrantOnFile;
  }

  // ----- freezes and prohibitions

  lemma {:induction false} BlocksStopTickets(a: seq<Fact>, b: seq<Fact>, act: Activity, env: string)
    requires forall f :: f in a ==> f in b
    ensures forall f :: AcctTicketCovers(b, f, act, env) ==> AcctTicketCovers(a, f, act, env)
  {
  }

  lemma {:induction false} ProhibitionsStay(a: seq<Fact>, b: seq<Fact>, act: Activity)
    requires AddsBlocks(a, b)
    ensures forall f :: f in a && AcctStopped(a, f, act) ==> f in b && AcctStopped(b, f, act)
  {
    ViewsAgree(a, b, act);
    var env := AssetOf(a, act).env;
    BlocksStopTickets(a, b, act, env);
    assert forall f: Fact :: f.body.GrantBody? ==> (f in a <==> f in b);
    hide AssetOf, AccountOf, Linked, ActorGenuine, AcctTicketCovers, AcctForbids;
    assert AcctEmergency(b, act, env) ==> AcctEmergency(a, act, env);
    hide AcctEmergency;
  }

  lemma {:induction false} BlocksHurtAccount(a: seq<Fact>, b: seq<Fact>, act: Activity)
    requires AddsBlocks(a, b)
    ensures Leq(AccountComponents(b, act), AccountComponents(a, act))
  {
    ViewsAgree(a, b, act);
    var env := AssetOf(a, act).env;
    BlocksStopTickets(a, b, act, env);
    OnlyRulesCount(b, act, env, (p, q) => true);
    ProhibitionsStay(a, b, act);
    assert forall f: Fact :: f.body.GrantBody? ==> (f in a <==> f in b);
    hide AssetOf, Linked, ActorGenuine, AcctSanctions, AcctTicketCovers, AcctBaselineCovers, AcctRoutine, AcctStopped;
    assert forall f :: AcctCovers(b, f, act, env) ==> AcctCovers(a, f, act, env);
    hide AcctCovers;
  }

  lemma {:induction false} ChangeProhibitionsStay(matches: Matcher, a: seq<Fact>, b: seq<Fact>, act: Activity)
    requires AddsBlocks(a, b)
    ensures forall f :: f in a && FimStopped(matches, a, f, act) ==> f in b && FimStopped(matches, b, f, act)
  {
    ViewsAgree(a, b, act);
    assert forall f: Fact :: f.body.GrantBody? ==> (f in a <==> f in b);
    hide PathOf, FimTicketCovers, FimForbids;
    assert FimEmergency(matches, b, act) ==> FimEmergency(matches, a, act);
    hide FimEmergency;
  }

  lemma {:induction false} FreezesStay(matches: Matcher, a: seq<Fact>, b: seq<Fact>, act: Activity)
    requires AddsBlocks(a, b)
    ensures forall fr :: fr in a && FimBlocked(matches, a, fr, act) ==> fr in b && FimBlocked(matches, b, fr, act)
  {
    ViewsAgree(a, b, act);
    OnlyRulesCount(b, act, "", matches);
    assert forall f: Fact :: f.body.GrantBody? ==> (f in a <==> f in b);
    hide PathOf, FimTicketCovers, FimFrozen, Excepts;
    assert forall fr :: Excepted(matches, b, fr, act) ==> Excepted(matches, a, fr, act);
    hide Excepted;
  }

  lemma {:induction false} BlocksHurtFim(matches: Matcher, a: seq<Fact>, b: seq<Fact>, act: Activity)
    requires AddsBlocks(a, b)
    ensures Leq(FimComponents(matches, b, act), FimComponents(matches, a, act))
  {
    ViewsAgree(a, b, act);
    OnlyRulesCount(b, act, "", matches);
    ChangeProhibitionsStay(matches, a, b, act);
    FreezesStay(matches, a, b, act);
    assert forall f: Fact :: f.body.GrantBody? ==> (f in a <==> f in b);
    hide PathOf, FimSanctions, FimCovers, FimStopped, FimBlocked;
  }

  lemma {:induction false} SelectionAddsBlocks(a: seq<Fact>, b: seq<Fact>, track: Track, tenant: Option<string>)
    requires AddsBlocks(a, b)
    ensures AddsBlocks(SelectFacts(a, track, tenant), SelectFacts(b, track, tenant))
  {
  }

  /** Adding freezes and prohibitions never turns a component from false to true, and never makes an
      activity `covered` that was not. */
  lemma {:induction false} BlocksNeverHelp(matches: Matcher, act: Activity, a: seq<Fact>, b: seq<Fact>,
      tenant: Option<string>)
    requires AddsBlocks(a, b)
    ensures Leq(Evaluate(matches, act, b, tenant), Evaluate(matches, act, a, tenant))
    ensures DeriveClass(matches, Some(Context(tenant, act, b))).0 == Covered
            ==> DeriveClass(matches, Some(Context(tenant, act, a))).0 == Covered
  {
    var x, y := SelectFacts(a, act.track, tenant), SelectFacts(b, act.track, tenant);
    SelectionAddsBlocks(a, b, act.track, tenant);
    if act.track == FimTrack {
      BlocksHurtFim(matches, x, y, act);
    } else {
      BlocksHurtAccount(x, y, act);
    }
    ClassIff(matches, Context(tenant, act, a));
    ClassIff(matches, Context(tenant, act, b));
    hide SelectFacts, FimComponents, AccountComponents, DeriveClass, GrantOnFile;
  }
}
