/**
 When a prohibition or a freeze counts, and what it does when it does
 (src/soctalk/authorization/engine.py: the policy loops of `_acct_components` and
 `_fim_components`, `_acct_freeze_blocks`, the freeze gate of `_fim_components`).

 Each result takes one fact out of the list and says what that changes.
 */
module AuthorizationBlocks {
  import opened Wrappers
  import opened AuthorizationModel
  import opened AuthorizationEngine
  import opened AuthorizationOrder
  import opened AuthorizationCoverage

  function Without(facts: seq<Fact>, x: Fact): seq<Fact> {
    Keep(facts, (f: Fact) => f != x)
  }

  lemma {:induction false} WithoutSelects(facts: seq<Fact>, x: Fact, track: Track, tenant: Option<string>)
    ensures forall f :: f in SelectFacts(Without(facts, x), track, tenant)
                   <==> f in SelectFacts(facts, track, tenant) && f != x
  {
  }

  /** The list is the other one with x added. */
  ghost predicate Adds(rest: seq<Fact>, all: seq<Fact>, x: Fact) {
    forall f :: f in all <==> f in rest || f == x
  }

  /** Facts of one track, of the tenant if there is one, and not superseded. */
  predicate OnFile(f: Fact, track: Track, tenant: Option<string>) {
    f.track == track && (tenant.Some? ==> f.tenant == tenant) && f.supersededBy.None?
  }

  lemma {:induction false} WithoutAdds(facts: seq<Fact>, x: Fact, track: Track, tenant: Option<string>)
    requires x in facts && OnFile(x, track, tenant)
    ensures Adds(SelectFacts(Without(facts, x), track, tenant), SelectFacts(facts, track, tenant), x)
  {
    WithoutSelects(facts, x, track, tenant);
    assert x in SelectFacts(facts, track, tenant);
    hide SelectFacts, Without;
  }

  /** Taking out a fact that is no entity record leaves the views of the entities alone. */
  lemma {:induction false} WithoutViews(facts: seq<Fact>, x: Fact, a: Activity, tenant: Option<string>)
    requires !x.body.EntityBody?
    ensures SameViews(SelectFacts(facts, a.track, tenant), SelectFacts(Without(facts, x), a.track, tenant), a)
  {
    WithoutSelects(facts, x, a.track, tenant);
    ViewsAgree(SelectFacts(facts, a.track, tenant), SelectFacts(Without(facts, x), a.track, tenant), a);
  }

  /** Equal components, and the same grants on file, make the same class. */
  lemma {:induction false} ClassWithout(matches: Matcher, ctx: Context, x: Fact)
    requires !x.body.GrantBody?
    requires Evaluate(matches, ctx.activity, Without(ctx.facts, x), ctx.tenant)
          == Evaluate(matches, ctx.activity, ctx.facts, ctx.tenant)
    ensures DeriveClass(matches, Some(ctx.(facts := Without(ctx.facts, x)))).0 == DeriveClass(matches, Some(ctx)).0
  {
    var rest := ctx.(facts := Without(ctx.facts, x));
    ClassIff(matches, ctx);
    ClassIff(matches, rest);
    assert GrantOnFile(rest) <==> GrantOnFile(ctx) by {
      forall f: Fact | f.body.GrantBody? ensures f in rest.facts <==> f in ctx.facts {
      }
    }
    hide Evaluate, DeriveClass, GrantOnFile, Without;
  }

  // ----- prohibitions on the account track

  /** The activity gives the prohibition no occasion: it is waived or not of high priority, or it is for
      another action, kind of account, environment, criticality or data class. */
  predicate NoOccasion(p: Prohibition, a: Activity, asset: AssetView, account: AccountView) {
    || p.waiverPresent || p.priority != High || p.forbidAction != a.action
    || (p.forbidAccountType.Some? && account.kind != p.forbidAccountType)
    || (p.envs.Some? && asset.env !in p.envs.value)
    || (p.criticalities.Some? && asset.criticality !in p.criticalities.value)
    || (p.dataClasses.Some? && asset.dataClass !in p.dataClasses.value)
  }

  lemma {:induction false} OccasionIff(p: Prohibition, a: Activity, asset: AssetView, account: AccountView)
    ensures AcctForbids(p, a, asset, account) <==> !NoOccasion(p, a, asset, account)
  {
  }

  /** Among the grants that cover the activity is an emergency change ticket. */
  ghost predicate EmergencyOpen(matches: Matcher, a: Activity, facts: seq<Fact>, tenant: Option<string>) {
    exists g :: && g in FindCoveringGrants(matches, a, facts, tenant)
                && g.body.GrantBody? && g.body.grant.grantClass == ChangeTicket && g.body.grant.emergency
  }

  lemma {:induction false} CoveringIff(matches: Matcher, a: Activity, facts: seq<Fact>, tenant: Option<string>)
    ensures var all := SelectFacts(facts, a.track, tenant);
      forall g :: g in FindCoveringGrants(matches, a, facts, tenant)
        <==> g in all && if a.track == FimTrack then FimCovers(matches, g, a)
                         else AcctCovers(all, g, a, AssetOf(all, a).env)
  {
    hide SelectFacts, AssetOf, AcctCovers, FimCovers;
  }

  lemma {:induction false} EmergencyIff(matches: Matcher, a: Activity, facts: seq<Fact>, tenant: Option<string>)
    ensures var all := SelectFacts(facts, a.track, tenant);
      EmergencyOpen(matches, a, facts, tenant)
      <==> if a.track == FimTrack then FimEmergency(matches, all, a) else AcctEmergency(all, a, AssetOf(all, a).env)
  {
    var all := SelectFacts(facts, a.track, tenant);
    var env := AssetOf(all, a).env;
    var covering := FindCoveringGrants(matches, a, facts, tenant);
    hide SelectFacts, AssetOf;
    if a.track == FimTrack {
      assert forall g :: g in covering <==> g in all && FimCovers(matches, g, a);
      hide FindCoveringGrants, ForPath, InTime, GrantOk;
      assert forall g :: FimTicketCovers(matches, g, a) <==> FimCovers(matches, g, a) && IsGrant(g, ChangeTicket);
      hide FimTicketCovers, FimCovers;
    } else {
      assert forall g :: g in covering <==> g in all && AcctCovers(all, g, a, env);
      hide FindCoveringGrants, ForTuple, InTime, GrantOk, AcctFreezeBlocks;
      assert forall g :: AcctTicketCovers(all, g, a, env) <==> AcctCovers(all, g, a, env) && IsGrant(g, ChangeTicket);
      hide AcctTicketCovers, AcctCovers;
    }
  }

  /** What does not depend on prohibitions. */
  lemma {:induction false} ProhibitionLeavesOthers(rest: seq<Fact>, all: seq<Fact>, x: Fact, a: Activity)
    requires x.body.ProhibitionBody? && Adds(rest, all, x) && SameViews(all, rest, a)
    ensures var c, d := AccountComponents(all, a), AccountComponents(rest, a); c == d.(policyAllowed := c.policyAllowed)
    ensures var env := AssetOf(all, a).env; AcctEmergency(all, a, env) == AcctEmergency(rest, a, env)
  {
    var env := AssetOf(all, a).env;
    TicketCoversAgree(all, rest, a, env);
    OnlyRulesCount(all, a, env, (p, q) => true);
    hide AssetOf, AccountOf, PathOf, Linked, ActorGenuine, AcctSanctions, AcctTicketCovers, AcctBaselineCovers,
         AcctRoutine, AcctStopped;
    assert forall f :: AcctCovers(all, f, a, env) == AcctCovers(rest, f, a, env);
    hide AcctCovers;
  }

  lemma {:induction false} PolicyOfOneMore(rest: seq<Fact>, all: seq<Fact>, x: Fact, a: Activity)
    requires Adds(rest, all, x) && SameViews(all, rest, a)
    requires var env := AssetOf(all, a).env; AcctEmergency(all, a, env) == AcctEmergency(rest, a, env)
    ensures AccountComponents(all, a).policyAllowed
       <==> AccountComponents(rest, a).policyAllowed && !AcctStopped(all, x, a)
  {
    hide AssetOf, AccountOf, PathOf, Linked, ActorGenuine, AcctSanctions, AcctCovers, AcctEmergency, AcctForbids;
    assert forall f :: AcctStopped(all, f, a) == AcctStopped(rest, f, a);
    hide AcctStopped;
  }

  /** A prohibition decides policy and nothing else: with it the activity is allowed exactly when it is
      allowed without it and the prohibition has no occasion or is overcome: it provides for break-glass, the
      account has break-glass, and an emergency change covers. */
  lemma {:induction false} ProhibitionDecides(matches: Matcher, a: Activity, facts: seq<Fact>, tenant: Option<string>,
      x: Fact)
    requires a.track == AccountTrack && x in facts && OnFile(x, a.track, tenant) && x.body.ProhibitionBody?
    ensures var p := x.body.prohibition;
      var all := SelectFacts(facts, a.track, tenant);
      var rest := Evaluate(matches, a, Without(facts, x), tenant);
      Evaluate(matches, a, facts, tenant)
      == rest.(policyAllowed := rest.policyAllowed
           && (|| NoOccasion(p, a, AssetOf(all, a), AccountOf(all, a))
               || (p.breakGlassException && AccountOf(all, a).breakGlass && EmergencyOpen(matches, a, facts, tenant))))
  {
    var all, rest := SelectFacts(facts, a.track, tenant), SelectFacts(Without(facts, x), a.track, tenant);
    WithoutAdds(facts, x, a.track, tenant);
    WithoutViews(facts, x, a, tenant);
    EmergencyIff(matches, a, facts, tenant);
    OccasionIff(x.body.prohibition, a, AssetOf(all, a), AccountOf(all, a));
    hide SelectFacts, Without, Adds, SameViews, AssetOf, AccountOf, AcctEmergency, EmergencyOpen, AccountComponents,
         AcctForbids, NoOccasion;
    ProhibitionLeavesOthers(rest, all, x, a);
    PolicyOfOneMore(rest, all, x, a);
  }

  /** So one on file that has occasion and is not overcome forbids the activity, and the class is
      `contradicted`, whatever grants there are. */
  lemma {:induction false} StandingProhibitionContradicts(matches: Matcher, ctx: Context, x: Fact)
    requires ctx.activity.track == AccountTrack && x in ctx.facts && OnFile(x, AccountTrack, ctx.tenant)
    requires x.body.ProhibitionBody?
    requires var all := SelectFacts(ctx.facts, AccountTrack, ctx.tenant);
      var account := AccountOf(all, ctx.activity);
      && !NoOccasion(x.body.prohibition, ctx.activity, AssetOf(all, ctx.activity), account)
      && !(&& x.body.prohibition.breakGlassException && account.breakGlass
           && EmergencyOpen(matches, ctx.activity, ctx.facts, ctx.tenant))
    ensures !Evaluate(matches, ctx.activity, ctx.facts, ctx.tenant).policyAllowed
    ensures DeriveClass(matches, Some(ctx)).0 == Contradicted
  {
    ProhibitionDecides(matches, ctx.activity, ctx.facts, ctx.tenant, x);
    ClassIff(matches, ctx);
    hide Evaluate, DeriveClass, GrantOnFile, SelectFacts, NoOccasion, EmergencyOpen, AssetOf, AccountOf, Without;
  }

  /** And one without occasion can be taken off file: components and class stay. */
  lemma {:induction false} IdleProhibition(matches: Matcher, ctx: Context, x: Fact)
    requires ctx.activity.track == AccountTrack && x in ctx.facts && OnFile(x, AccountTrack, ctx.tenant)
    requires x.body.ProhibitionBody?
    requires var all := SelectFacts(ctx.facts, AccountTrack, ctx.tenant);
      NoOccasion(x.body.prohibition, ctx.activity, AssetOf(all, ctx.activity), AccountOf(all, ctx.activity))
    ensures Evaluate(matches, ctx.activity, Without(ctx.facts, x), ctx.tenant)
         == Evaluate(matches, ctx.activity, ctx.facts, ctx.tenant)
    ensures DeriveClass(matches, Some(ctx.(facts := Without(ctx.facts, x)))).0 == DeriveClass(matches, Some(ctx)).0
  {
    ProhibitionDecides(matches, ctx.activity, ctx.facts, ctx.tenant, x);
    hide Evaluate, DeriveClass, SelectFacts, NoOccasion, EmergencyOpen, AssetOf, AccountOf, Without;
    ClassWithout(matches, ctx, x);
  }

  // ----- prohibitions on the FIM track

  function ChangeName(c: Option<ChangeKind>): string {
    if c == Some(Modify) then "modify"
    else if c == Some(Add) then "add"
    else if c == Some(Delete) then "delete"
    else if c == Some(AnyChange) then "any"
    else ""
  }

  /** The change gives the prohibition no occasion: it is waived or not of high priority, or it is for other
      classes of configuration, none listed meaning any, or for other kinds of change. */
  predicate NoChangeOccasion(p: Prohibition, a: Activity, configClass: string) {
    || p.waiverPresent || p.priority != High
    || (p.configClasses.Some? && |p.configClasses.value| > 0 && configClass !in p.configClasses.value)
    || (p.forbidChangeType.Some? && ChangeName(a.changeType) !in p.forbidChangeType.value)
  }

  lemma {:induction false} ChangeOccasionIff(p: Prohibition, a: Activity, configClass: string)
    ensures FimForbids(p, a, configClass) <==> !NoChangeOccasion(p, a, configClass)
  {
  }

  lemma {:induction false} ChangeProhibitionLeavesOthers(matches: Matcher, rest: seq<Fact>, all: seq<Fact>, x: Fact,
      a: Activity)
    requires x.body.ProhibitionBody? && Adds(rest, all, x) && SameViews(all, rest, a)
    ensures var c, d := FimComponents(matches, all, a), FimComponents(matches, rest, a);
      c == d.(policyAllowed := c.policyAllowed)
    ensures FimEmergency(matches, all, a) == FimEmergency(matches, rest, a)
  {
    OnlyRulesCount(all, a, "", matches);
    BlockersAreRules(matches, all, a);
    hide PathOf, Linked, ActorGenuine, AssetOf, AccountOf, FimSanctions, FimCovers, FimTicketCovers, FimFrozen, Excepts,
         FimStopped;
    assert forall fr :: Excepted(matches, all, fr, a) == Excepted(matches, rest, fr, a);
    hide Excepted;
    assert forall fr :: FimBlocked(matches, all, fr, a) == FimBlocked(matches, rest, fr, a);
    hide FimBlocked;
  }

  lemma {:induction false} ChangePolicyOfOneMore(matches: Matcher, rest: seq<Fact>, all: seq<Fact>, x: Fact,
      a: Activity)
    requires Adds(rest, all, x) && SameViews(all, rest, a)
    requires FimEmergency(matches, all, a) == FimEmergency(matches, rest, a)
    ensures FimComponents(matches, all, a).policyAllowed
       <==> FimComponents(matches, rest, a).policyAllowed && !FimStopped(matches, all, x, a)
  {
    hide PathOf, Linked, ActorGenuine, AssetOf, AccountOf, FimSanctions, FimCovers, FimBlocked, FimForbids,
         FimEmergency;
    assert forall f :: FimStopped(matches, all, f, a) == FimStopped(matches, rest, f, a);
    hide FimStopped;
  }

  /** The same on the FIM track, where break-glass asks for the covering emergency change only. */
  lemma {:induction false} ChangeProhibitionDecides(matches: Matcher, a: Activity, facts: seq<Fact>,
      tenant: Option<string>, x: Fact)
    requires a.track == FimTrack && x in facts && OnFile(x, a.track, tenant) && x.body.ProhibitionBody?
    ensures var p := x.body.prohibition;
      var configClass := PathOf(SelectFacts(facts, a.track, tenant), a).configClass;
      var rest := Evaluate(matches, a, Without(facts, x), tenant);
      Evaluate(matches, a, facts, tenant)
      == rest.(policyAllowed := rest.policyAllowed
           && (NoChangeOccasion(p, a, configClass)
               || (p.breakGlassException && EmergencyOpen(matches, a, facts, tenant))))
  {
    var all, rest := SelectFacts(facts, a.track, tenant), SelectFacts(Without(facts, x), a.track, tenant);
    assert x in all;
    WithoutSelects(facts, x, a.track, tenant);
    WithoutViews(facts, x, a, tenant);
    EmergencyIff(matches, a, facts, tenant);
    ChangeProhibitionLeavesOthers(matches, rest, all, x, a);
    ChangePolicyOfOneMore(matches, rest, all, x, a);
    ChangeOccasionIff(x.body.prohibition, a, PathOf(all, a).configClass);
    hide SelectFacts, Without, PathOf, FimEmergency, EmergencyOpen, FimComponents, FimForbids, NoChangeOccasion;
  }

  lemma {:induction false} StandingChangeProhibitionContradicts(matches: Matcher, ctx: Context, x: Fact)
    requires ctx.activity.track == FimTrack && x in ctx.facts && OnFile(x, FimTrack, ctx.tenant)
    requires x.body.ProhibitionBody?
    requires !NoChangeOccasion(x.body.prohibition, ctx.activity,
                               PathOf(SelectFacts(ctx.facts, FimTrack, ctx.tenant), ctx.activity).configClass)
    requires !(&& x.body.prohibition.breakGlassException
               && EmergencyOpen(matches, ctx.activity, ctx.facts, ctx.tenant))
    ensures !Evaluate(matches, ctx.activity, ctx.facts, ctx.tenant).policyAllowed
    ensures DeriveClass(matches, Some(ctx)).0 == Contradicted
  {
    ChangeProhibitionDecides(matches, ctx.activity, ctx.facts, ctx.tenant, x);
    ClassIff(matches, ctx);
    hide Evaluate, DeriveClass, GrantOnFile, SelectFacts, NoChangeOccasion, EmergencyOpen, PathOf, Without;
  }

  lemma {:induction false} IdleChangeProhibition(matches: Matcher, ctx: Context, x: Fact)
    requires ctx.activity.track == FimTrack && x in ctx.facts && OnFile(x, FimTrack, ctx.tenant)
    requires x.body.ProhibitionBody?
    requires NoChangeOccasion(x.body.prohibition, ctx.activity,
                              PathOf(SelectFacts(ctx.facts, FimTrack, ctx.tenant), ctx.activity).configClass)
    ensures Evaluate(matches, ctx.activity, Without(ctx.facts, x), ctx.tenant)
         == Evaluate(matches, ctx.activity, ctx.facts, ctx.tenant)
    ensures DeriveClass(matches, Some(ctx.(facts := Without(ctx.facts, x)))).0 == DeriveClass(matches, Some(ctx)).0
  {
    ChangeProhibitionDecides(matches, ctx.activity, ctx.facts, ctx.tenant, x);
    hide Evaluate, DeriveClass, SelectFacts, NoChangeOccasion, EmergencyOpen, PathOf, Without;
    ClassWithout(matches, ctx, x);
  }

  // ----- freezes

  /** An account-track freeze lies over the environment at that time. */
  predicate LiesOver(fr: Freeze, env: string, t: int) {
    env in fr.envs && fr.start <= t && t <= fr.end
  }

  /** A freeze takes out of the covering grants exactly the change tickets it does not except, and only while
      it lasts and in the environments it lists. */
  lemma {:induction false} FreezeBlocksExactly(matches: Matcher, a: Activity, facts: seq<Fact>, tenant: Option<string>,
      x: Fact, g: Fact)
    requires a.track == AccountTrack && x in facts && OnFile(x, a.track, tenant) && x.body.FreezeBody?
    ensures var env := AssetOf(SelectFacts(facts, a.track, tenant), a).env;
      g in FindCoveringGrants(matches, a, facts, tenant)
      <==> && g in FindCoveringGrants(matches, a, Without(facts, x), tenant)
           && !(&& g.body.GrantBody? && g.body.grant.grantClass == ChangeTicket && LiesOver(x.body.freeze, env, a.time)
                && !g.body.grant.freezeException && g.id !in x.body.freeze.allowedExceptionIds)
  {
    var all, rest := SelectFacts(facts, a.track, tenant), SelectFacts(Without(facts, x), a.track, tenant);
    WithoutAdds(facts, x, a.track, tenant);
    WithoutViews(facts, x, a, tenant);
    CoveringIff(matches, a, facts, tenant);
    CoveringIff(matches, a, Without(facts, x), tenant);
    var env := AssetOf(all, a).env;
    assert AssetOf(rest, a).env == env;
    OneMoreFreeze(rest, all, x, g, a, env);
    assert AcctCovers(all, g, a, env) ==> g.body.GrantBody? by {
      OnlyRulesCount(all, a, env, matches);
    }
    hide SelectFacts, Without, AssetOf, FindCoveringGrants, AcctCovers, LiesOver, SameViews;
  }

  lemma {:induction false} OneMoreFreeze(rest: seq<Fact>, all: seq<Fact>, x: Fact, g: Fact, a: Activity, env: string)
    requires x.body.FreezeBody? && Adds(rest, all, x)
    ensures AcctCovers(all, g, a, env)
       <==> && AcctCovers(rest, g, a, env)
            && !(&& g.body.GrantBody? && g.body.grant.grantClass == ChangeTicket && LiesOver(x.body.freeze, env, a.time)
                 && !g.body.grant.freezeException && g.id !in x.body.freeze.allowedExceptionIds)
  {
    hide ForTuple, InTime, GrantOk;
    assert g.body.GrantBody? ==> (AcctFreezeBlocks(all, env, g, a.time)
      <==> AcctFreezeBlocks(rest, env, g, a.time)
            || (!g.body.grant.freezeException && FreezeHits(x, env, g.id, a.time)));
  }

  /** A freeze that has not begun, is over or is for other environments can be taken off file. */
  lemma {:induction false} IdleFreeze(matches: Matcher, ctx: Context, x: Fact)
    requires ctx.activity.track == AccountTrack && x in ctx.facts && OnFile(x, AccountTrack, ctx.tenant)
    requires x.body.FreezeBody?
    requires !LiesOver(x.body.freeze, AssetOf(SelectFacts(ctx.facts, AccountTrack, ctx.tenant), ctx.activity).env,
                       ctx.activity.time)
    ensures Evaluate(matches, ctx.activity, Without(ctx.facts, x), ctx.tenant)
         == Evaluate(matches, ctx.activity, ctx.facts, ctx.tenant)
    ensures DeriveClass(matches, Some(ctx.(facts := Without(ctx.facts, x)))).0 == DeriveClass(matches, Some(ctx)).0
  {
    var a := ctx.activity;
    var all := SelectFacts(ctx.facts, a.track, ctx.tenant);
    var rest := SelectFacts(Without(ctx.facts, x), a.track, ctx.tenant);
    assert x in all;
    WithoutSelects(ctx.facts, x, a.track, ctx.tenant);
    WithoutViews(ctx.facts, x, a, ctx.tenant);
    IdleFreezeComponents(rest, all, x, a);
    assert Evaluate(matches, a, Without(ctx.facts, x), ctx.tenant) == Evaluate(matches, a, ctx.facts, ctx.tenant) by {
      hide SelectFacts, Without, AccountComponents;
    }
    ClassWithout(matches, ctx, x);
  }

  lemma {:induction false} IdleFreezeComponents(rest: seq<Fact>, all: seq<Fact>, x: Fact, a: Activity)
    requires x.body.FreezeBody? && Adds(rest, all, x) && SameViews(all, rest, a)
    requires !LiesOver(x.body.freeze, AssetOf(all, a).env, a.time)
    ensures AccountComponents(all, a) == AccountComponents(rest, a)
  {
    var env := AssetOf(all, a).env;
    assert forall id :: !FreezeHits(x, env, id, a.time);
    hide LiesOver, AssetOf, AccountOf, PathOf, Linked, ActorGenuine, AcctSanctions, AcctBaselineCovers, AcctRoutine,
         FreezeHits, AcctForbids, ForTuple, InTime, GrantOk;
    assert forall f :: AcctTicketCovers(all, f, a, env) == AcctTicketCovers(rest, f, a, env);
    OnlyRulesCount(all, a, env, (p, q) => true);
    hide AcctTicketCovers;
    assert AcctEmergency(all, a, env) == AcctEmergency(rest, a, env);
    hide AcctEmergency;
    assert forall f :: AcctStopped(all, f, a) == AcctStopped(rest, f, a);
    assert forall f :: AcctStopped(all, f, a) ==> f.body.ProhibitionBody?;
    assert forall f :: AcctCovers(all, f, a, env) == AcctCovers(rest, f, a, env);
    hide AcctStopped, AcctCovers;
  }

  /** A covering change ticket excepts the freeze. */
  ghost predicate CoveringExcepts(matches: Matcher, a: Activity, facts: seq<Fact>, tenant: Option<string>, x: Fact)
    requires x.body.FreezeBody?
  {
    exists g :: && g in FindCoveringGrants(matches, a, facts, tenant)
                && g.body.GrantBody? && g.body.grant.grantClass == ChangeTicket
                && (g.body.grant.freezeException || g.id in x.body.freeze.allowedExceptionIds)
  }

  lemma {:induction false} ExceptedIff(matches: Matcher, a: Activity, facts: seq<Fact>, tenant: Option<string>, x: Fact)
    requires a.track == FimTrack && x.body.FreezeBody?
    ensures CoveringExcepts(matches, a, facts, tenant, x)
       <==> Excepted(matches, SelectFacts(facts, a.track, tenant), x, a)
  {
    CoveringIff(matches, a, facts, tenant);
    hide SelectFacts, FindCoveringGrants, FimCovers, Excepted;
    TicketsAmongCovering(matches, SelectFacts(facts, a.track, tenant), FindCoveringGrants(matches, a, facts, tenant), x,
                         a);
  }

  /** On the FIM track a freeze decides scope and nothing else: with it the change is in scope exactly when it
      is without it, and the freeze is not on for the class of the path, or a covering change ticket excepts
      it. */
  lemma {:induction false} ChangeFreezeDecides(matches: Matcher, a: Activity, facts: seq<Fact>, tenant: Option<string>,
      x: Fact)
    requires a.track == FimTrack && x in facts && OnFile(x, a.track, tenant) && x.body.FreezeBody?
    ensures var fr := x.body.freeze;
      var configClass := PathOf(SelectFacts(facts, a.track, tenant), a).configClass;
      var rest := Evaluate(matches, a, Without(facts, x), tenant);
      Evaluate(matches, a, facts, tenant)
      == rest.(inScope := rest.inScope
           && (|| configClass !in fr.configClasses || a.time < fr.start || fr.end < a.time
               || CoveringExcepts(matches, a, facts, tenant, x)))
  {
    var all, rest := SelectFacts(facts, a.track, tenant), SelectFacts(Without(facts, x), a.track, tenant);
    WithoutAdds(facts, x, a.track, tenant);
    WithoutViews(facts, x, a, tenant);
    ExceptedIff(matches, a, facts, tenant, x);
    EvaluatesFim(matches, a, facts, tenant);
    EvaluatesFim(matches, a, Without(facts, x), tenant);
    FrozenIff(x, a, PathOf(all, a).configClass);
    hide SelectFacts, Without, PathOf, CoveringExcepts, Evaluate, FimComponents, Excepted, FimFrozen, Adds, SameViews;
    ChangeFreezeComponents(matches, rest, all, x, a);
  }

  lemma {:induction false} EvaluatesFim(matches: Matcher, a: Activity, facts: seq<Fact>, tenant: Option<string>)
    requires a.track == FimTrack
    ensures Evaluate(matches, a, facts, tenant) == FimComponents(matches, SelectFacts(facts, a.track, tenant), a)
  {
    hide FimComponents, AccountComponents, SelectFacts;
  }

  lemma {:induction false} FrozenIff(x: Fact, a: Activity, configClass: string)
    requires x.body.FreezeBody?
    ensures var fr := x.body.freeze;
      FimFrozen(x, a, configClass) <==> !(configClass !in fr.configClasses || a.time < fr.start || fr.end < a.time)
  {
  }

  lemma {:induction false} ChangeFreezeComponents(matches: Matcher, rest: seq<Fact>, all: seq<Fact>, x: Fact,
      a: Activity)
    requires x.body.FreezeBody? && Adds(rest, all, x) && SameViews(all, rest, a)
    ensures var d := FimComponents(matches, rest, a);
      FimComponents(matches, all, a)
      == d.(inScope := d.inScope && (|| !FimFrozen(x, a, PathOf(all, a).configClass) || Excepted(matches, all, x, a)))
  {
    OnlyRulesCount(all, a, "", matches);
    hide PathOf, Linked, ActorGenuine, AssetOf, AccountOf, FimSanctions, FimCovers, FimTicketCovers, FimFrozen, Excepts,
         FimForbids;
    assert FimEmergency(matches, all, a) == FimEmergency(matches, rest, a);
    assert forall fr :: Excepted(matches, all, fr, a) == Excepted(matches, rest, fr, a);
    hide FimEmergency, Excepted;
    assert forall f :: FimStopped(matches, all, f, a) == FimStopped(matches, rest, f, a);
    assert forall f :: FimStopped(matches, all, f, a) ==> f.body.ProhibitionBody?;
    assert forall fr :: FimBlocked(matches, all, fr, a) == FimBlocked(matches, rest, fr, a);
    assert FimBlocked(matches, all, x, a)
      <==> FimFrozen(x, a, PathOf(all, a).configClass) && !Excepted(matches, all, x, a);
    hide FimStopped, FimBlocked;
  }

  /** So one that is on, for the class of the path, and that no covering ticket excepts takes the change out of
      scope. */
  lemma {:induction false} StandingChangeFreezeBlocks(matches: Matcher, a: Activity, facts: seq<Fact>,
      tenant: Option<string>, x: Fact)
    requires a.track == FimTrack && x in facts && OnFile(x, a.track, tenant) && x.body.FreezeBody?
    requires x.body.freeze.start <= a.time <= x.body.freeze.end
    requires PathOf(SelectFacts(facts, a.track, tenant), a).configClass in x.body.freeze.configClasses
    requires forall g :: g in FindCoveringGrants(matches, a, facts, tenant) && g.body.GrantBody?
               && g.body.grant.grantClass == ChangeTicket
               ==> !g.body.grant.freezeException && g.id !in x.body.freeze.allowedExceptionIds
    ensures !Evaluate(matches, a, facts, tenant).inScope
  {
    ChangeFreezeDecides(matches, a, facts, tenant, x);
    hide Evaluate, FindCoveringGrants, SelectFacts, PathOf, Without;
  }

  /** One that has not begun, is over or is for other classes can be taken off file. */
  lemma {:induction false} IdleChangeFreeze(matches: Matcher, ctx: Context, x: Fact)
    requires ctx.activity.track == FimTrack && x in ctx.facts && OnFile(x, FimTrack, ctx.tenant) && x.body.FreezeBody?
    requires var fr := x.body.freeze;
      || ctx.activity.time < fr.start || fr.end < ctx.activity.time
      || PathOf(SelectFacts(ctx.facts, FimTrack, ctx.tenant), ctx.activity).configClass !in fr.configClasses
    ensures Evaluate(matches, ctx.activity, Without(ctx.facts, x), ctx.tenant)
         == Evaluate(matches, ctx.activity, ctx.facts, ctx.tenant)
    ensures DeriveClass(matches, Some(ctx.(facts := Without(ctx.facts, x)))).0 == DeriveClass(matches, Some(ctx)).0
  {
    ChangeFreezeDecides(matches, ctx.activity, ctx.facts, ctx.tenant, x);
    hide Evaluate, DeriveClass, FindCoveringGrants, SelectFacts, PathOf, Without;
    ClassWithout(matches, ctx, x);
  }
}
