/**
 The authorization question and the grant that answers it (src/soctalk/authorization/question.py;
 the answer endpoint of src/soctalk/core/api/authorization.py).

 The prompt text is left out; the id of a grant, a random one in the source, is a parameter, and
 so is whether the investigation carries a malicious signal.
 */
module AskOnce {
  import opened Wrappers
  import opened AuthorizationModel
  import opened AuthorizationEngine
  import opened AuthorizationOrder
  import opened AuthorizationCoverage
  import opened AuthorizationMonotone
  import Glob

  datatype Question = Question(track: Track, activity: Activity, proposedScope: Scope)

  function ProposedScope(a: Activity): Scope {
    if a.track == AccountTrack then Scope(a.account, a.host, a.action, None, None)
    else Scope(None, a.path, None, a.changeType, None)
  }

  function QuestionFor(matches: Matcher, context: Option<Context>, disposition: string,
      malicious: bool): Option<Question> {
    if disposition != "needs_more_info" || context == None || malicious then None
    else
      var (cls, components) := DeriveClass(matches, context);
      if cls != Absent then None
      else if components.Some? && !components.value.actorGenuine then None
      else
        var a := context.value.activity;
        Some(Question(a.track, a, ProposedScope(a)))
  }

  function GrantFromActivity(a: Activity, validUntil: int, scope: Option<Scope>, id: string): Fact {
    Fact(id, a.track, None, Else(scope, ProposedScope(a)), ANALYST_TRUST, None, Some(validUntil), None,
         GrantBody(Grant(ChangeTicket, Approved, false, true, false, false, None, None)))
  }

  /** The answer of the tenant's analyst: an expiry not after the activity is refused; the scope comes
      from the question, and the grant is stamped with the tenant. */
  function Answer(q: Question, tenant: string, validUntil: int, id: string): Option<Fact> {
    if validUntil <= q.activity.time then None
    else Some(GrantFromActivity(q.activity, validUntil, None, id).(tenant := Some(tenant)))
  }

  /** The activities the model accepts. */
  predicate ValidActivity(a: Activity) {
    if a.track == AccountTrack then a.host.Some? && a.account.Some? && a.action.Some?
    else a.path.Some? && a.changeType.Some?
  }

  // ----- when the question is asked

  lemma {:induction false} NothingCompromises(matches: Matcher, a: Activity)
    ensures AccountComponents([], a).actorGenuine && FimComponents(matches, [], a).actorGenuine
  {
  }

  /** Asked exactly when the disposition is needs_more_info, nothing malicious is known, no grant is on
      file for this track and tenant, no prohibition applies, and the actor is genuine. */
  lemma {:induction false} AskedIff(matches: Matcher, ctx: Context, disposition: string, malicious: bool)
    ensures var c := Evaluate(matches, ctx.activity, ctx.facts, ctx.tenant);
      QuestionFor(matches, Some(ctx), disposition, malicious).Some?
      <==> disposition == "needs_more_info" && !malicious && !GrantOnFile(ctx) && c.policyAllowed && c.actorGenuine
  {
    ClassIff(matches, ctx);
    NothingCompromises(matches, ctx.activity);
    assert DeriveClass(matches, Some(ctx)).1 == None
      ==> SelectFacts(ctx.facts, ctx.activity.track, ctx.tenant) == [];
    assert DeriveClass(matches, Some(ctx)).1.Some?
      ==> DeriveClass(matches, Some(ctx)).1.value == Evaluate(matches, ctx.activity, ctx.facts, ctx.tenant);
    hide DeriveClass, GrantOnFile, SelectFacts, FimComponents, AccountComponents;
  }

  /** What is asked about is the activity itself: its subject, target and action, or its path and kind of change,
      and nothing wider. */
  lemma {:induction false} QuestionAsks(matches: Matcher, ctx: Context, disposition: string, malicious: bool)
    requires QuestionFor(matches, Some(ctx), disposition, malicious).Some?
    ensures var q, a := QuestionFor(matches, Some(ctx), disposition, malicious).value, ctx.activity;
      && q.activity == a && q.track == a.track
      && q.proposedScope.window == None
      && (a.track == AccountTrack ==>
            && q.proposedScope.subject == a.account && q.proposedScope.target == a.host
            && q.proposedScope.action == a.action && q.proposedScope.changeType == None)
      && (a.track == FimTrack ==>
            && q.proposedScope.target == a.path && q.proposedScope.changeType == a.changeType
            && q.proposedScope.subject == None && q.proposedScope.action == None)
  {
    hide DeriveClass;
  }

  /** A live grant of the tenant and track ends the asking, not only for the activity it answers: as long
      as it is on file, no activity of the track is asked about. */
  lemma {:induction false} AnyGrantEndsAsking(matches: Matcher, ctx: Context, g: Fact, disposition: string,
      malicious: bool)
    requires g in ctx.facts && g.body.GrantBody? && Selected(g, ctx.activity.track, ctx.tenant)
    ensures QuestionFor(matches, Some(ctx), disposition, malicious) == None
    ensures DeriveClass(matches, Some(ctx)).0 != Absent
  {
    assert GrantOnFile(ctx);
    ClassIff(matches, ctx);
    AskedIff(matches, ctx, disposition, malicious);
    hide QuestionFor, DeriveClass, GrantOnFile;
  }

  // ----- the answer

  /** With the minted grant added the class is `absent` again exactly when the context is a tenant's and
      the grant is not stamped with that tenant. */
  lemma {:induction false} AbsentAgainIffForeign(matches: Matcher, ctx: Context, disposition: string, malicious: bool,
      g: Fact)
    requires QuestionFor(matches, Some(ctx), disposition, malicious).Some?
    requires g.body.GrantBody? && g.track == ctx.activity.track && g.supersededBy == None
    ensures DeriveClass(matches, Some(ctx.(facts := ctx.facts + [g]))).0 == Absent
       <==> ctx.tenant.Some? && g.tenant != ctx.tenant
  {
    var ctx' := ctx.(facts := ctx.facts + [g]);
    AskedIff(matches, ctx, disposition, malicious);
    ClassIff(matches, ctx');
    assert AddsGrants(ctx.facts, ctx'.facts);
    GrantsNeverHurt(matches, ctx.activity, ctx.facts, ctx'.facts, ctx.tenant);
    assert g in ctx'.facts;
    assert GrantOnFile(ctx') <==> Selected(g, ctx.activity.track, ctx.tenant);
    hide QuestionFor, DeriveClass, GrantOnFile, Evaluate;
  }

  /** What the facts of the context say about freezes when the answer arrives. */
  ghost predicate FrozenOut(ctx: Context, id: string) {
    var all := SelectFacts(ctx.facts, ctx.activity.track, ctx.tenant);
    var a := ctx.activity;
    if a.track == AccountTrack then
      exists fr :: && fr in all && fr.body.FreezeBody? && AssetOf(all, a).env in fr.body.freeze.envs
                   && fr.body.freeze.start <= a.time && a.time <= fr.body.freeze.end
                   && id !in fr.body.freeze.allowedExceptionIds
    else
      exists fr :: ActiveFreeze(all, fr, a) && id !in fr.body.freeze.allowedExceptionIds
  }

  lemma {:induction false} FrozenOutOnAccount(ctx: Context, id: string)
    requires ctx.activity.track == AccountTrack
    ensures var all := SelectFacts(ctx.facts, AccountTrack, ctx.tenant);
      FrozenOut(ctx, id)
      <==> exists fr :: fr in all && FreezeHits(fr, AssetOf(all, ctx.activity).env, id, ctx.activity.time)
  {
    hide SelectFacts, AssetOf;
  }

  /** What stands between the answered activity and scope. */
  ghost predicate Clear(matches: Matcher, ctx: Context, id: string) {
    var all := SelectFacts(ctx.facts, ctx.activity.track, ctx.tenant);
    var a := ctx.activity;
    && !FrozenOut(ctx, id)
    && if a.track == AccountTrack then Linked(all, a) else matches(Else(a.path, ""), Else(a.path, ""))
  }

  lemma {:induction false} SelectsAnswer(ctx: Context, g: Fact)
    requires g.body.GrantBody? && Selected(g, ctx.activity.track, ctx.tenant) && !GrantOnFile(ctx)
    ensures var all := SelectFacts(ctx.facts, ctx.activity.track, ctx.tenant);
      var with := SelectFacts(ctx.facts + [g], ctx.activity.track, ctx.tenant);
      && SameButGrants(all, with) && g in with
      && forall f: Fact :: f in with && f.body.GrantBody? ==> f == g
  {
  }

  lemma {:induction false} AnswerCovers(matches: Matcher, with: seq<Fact>, g: Fact, a: Activity)
    requires ValidActivity(a)
    requires g.body == GrantBody(Grant(ChangeTicket, Approved, false, true, false, false, None, None))
    requires g.scope == ProposedScope(a) && g.validFrom == None && g.validUntil.Some? && a.time <= g.validUntil.value
    ensures a.track == AccountTrack ==> forall env ::
      AcctCovers(with, g, a, env) <==> !exists fr :: fr in with && FreezeHits(fr, env, g.id, a.time)
    ensures a.track == FimTrack ==>
      !FimBaselineCovers(matches, g, a) && (FimTicketCovers(matches, g, a)
          <==> matches(Else(a.path, ""), Else(a.path, "")))
    ensures forall fr :: Excepts(g, fr) <==> fr.body.FreezeBody? && g.id in fr.body.freeze.allowedExceptionIds
  {
  }

  lemma {:induction false} AnswerInScopeOnAccount(matches: Matcher, ctx: Context, g: Fact)
    requires ctx.activity.track == AccountTrack && ValidActivity(ctx.activity) && !GrantOnFile(ctx)
    requires Selected(g, AccountTrack, ctx.tenant)
    requires g.body == GrantBody(Grant(ChangeTicket, Approved, false, true, false, false, None, None))
    requires g.scope == ProposedScope(ctx.activity) && g.validFrom == None && g.validUntil.Some?
             && ctx.activity.time <= g.validUntil.value
    ensures Evaluate(matches, ctx.activity, ctx.facts + [g], ctx.tenant).inScope <==> Clear(matches, ctx, g.id)
  {
    var a := ctx.activity;
    var all, with := SelectFacts(ctx.facts, a.track, ctx.tenant), SelectFacts(ctx.facts + [g], a.track, ctx.tenant);
    SelectsAnswer(ctx, g);
    ViewsAgree(all, with, a);
    var env := AssetOf(all, a).env;
    AnswerCovers(matches, with, g, a);
    forall f | AcctCovers(with, f, a, env) ensures f.body.GrantBody? {
      CoveringIsGrant(with, f, a, env);
    }
    assert forall fr :: FreezeHits(fr, env, g.id, a.time) ==> (fr in all <==> fr in with);
    FrozenOutOnAccount(ctx, g.id);
    hide FrozenOut;
    hide SelectFacts, AcctCovers, FreezeHits, AssetOf, Linked, ActorGenuine, AcctSanctions, AcctStopped, GrantOnFile;
  }

  lemma {:induction false} AnswerInScopeOnFim(matches: Matcher, ctx: Context, g: Fact)
    requires ctx.activity.track == FimTrack && ValidActivity(ctx.activity) && !GrantOnFile(ctx)
    requires Selected(g, FimTrack, ctx.tenant)
    requires g.body == GrantBody(Grant(ChangeTicket, Approved, false, true, false, false, None, None))
    requires g.scope == ProposedScope(ctx.activity) && g.validFrom == None && g.validUntil.Some?
             && ctx.activity.time <= g.validUntil.value
    ensures Evaluate(matches, ctx.activity, ctx.facts + [g], ctx.tenant).inScope <==> Clear(matches, ctx, g.id)
  {
    var a := ctx.activity;
    var all, with := SelectFacts(ctx.facts, a.track, ctx.tenant), SelectFacts(ctx.facts + [g], a.track, ctx.tenant);
    SelectsAnswer(ctx, g);
    SameActiveFreezes(all, with, a);
    AnswerCovers(matches, with, g, a);
    FimScopeOfOne(matches, with, a, g);
    assert forall fr :: ActiveFreeze(all, fr, a) ==> fr.body.FreezeBody?;
    hide SelectFacts, FimComponents, FimTicketCovers, FimBaselineCovers, ActiveFreeze, Excepts, GrantOnFile;
  }

  /** Ask once: the tenant's answer makes the activity `covered` exactly when no active freeze stands
      against the new grant and, on the account track, the organisations are linked, on the FIM track,
      the path matches itself as a pattern; otherwise it is `contradicted`, never `absent` again. */
  lemma {:induction false} AnswerSettles(matches: Matcher, ctx: Context, malicious: bool, tenant: string,
      validUntil: int, id: string)
    requires ValidActivity(ctx.activity) && (ctx.tenant == None || ctx.tenant == Some(tenant))
    requires QuestionFor(matches, Some(ctx), "needs_more_info", malicious).Some?
    requires validUntil > ctx.activity.time
    ensures var q := QuestionFor(matches, Some(ctx), "needs_more_info", malicious).value;
      var answer := Answer(q, tenant, validUntil, id);
      && answer.Some?
      && DeriveClass(matches, Some(ctx.(facts := ctx.facts + [answer.value]))).0
         == (if Clear(matches, ctx, id) then Covered else Contradicted)
  {
    hide DeriveClass, GrantOnFile, Evaluate, Clear, FrozenOut, SelectFacts;
    var a := ctx.activity;
    var q := QuestionFor(matches, Some(ctx), "needs_more_info", malicious).value;
    assert q == Question(a.track, a, ProposedScope(a));
    var g := Answer(q, tenant, validUntil, id).value;
    hide QuestionFor;
    AskedIff(matches, ctx, "needs_more_info", malicious);
    AbsentAgainIffForeign(matches, ctx, "needs_more_info", malicious, g);
    assert Selected(g, a.track, ctx.tenant) && g.scope == ProposedScope(a);
    if a.track == AccountTrack {
      AnswerInScopeOnAccount(matches, ctx, g);
    } else {
      AnswerInScopeOnFim(matches, ctx, g);
    }
    assert AddsGrants(ctx.facts, ctx.facts + [g]);
    GrantsNeverHurt(matches, a, ctx.facts, ctx.facts + [g], ctx.tenant);
    ClassIff(matches, ctx.(facts := ctx.facts + [g]));
  }

  // ----- what the minted grant covers besides

  lemma {:induction false} AloneSelected(g: Fact, track: Track, tenant: Option<string>)
    requires Selected(g, track, tenant)
    ensures SelectFacts([g], track, tenant) == [g]
  {
    var p := (f: Fact) => Selected(f, track, tenant);
    assert [g][..|[g]| - 1] == [];
    assert Keep([], p) == [];
    assert Keep([g], p) == [g];
  }

  /** On the account track the minted grant covers exactly the same subject, target and action, up to its
      expiry. */
  lemma {:induction false} MintedAccountGrantIsExact(matches: Matcher, a: Activity, b: Activity, g: Fact,
      tenant: string, validUntil: int)
    requires ValidActivity(a) && a.track == AccountTrack && b.track == AccountTrack
    requires g == GrantFromActivity(a, validUntil, None, g.id).(tenant := Some(tenant))
    ensures Evaluate(matches, b, [g], Some(tenant)).inScope
       <==> b.account == a.account && b.host == a.host && b.action == a.action && b.time <= validUntil
  {
    AloneSelected(g, AccountTrack, Some(tenant));
    NoEntityNoRecord([g], Asset, Else(b.host, ""));
    NoAccountFact([g], Else(b.account, ""));
    assert Linked([g], b);
    var env := AssetOf([g], b).env;
    assert AcctCovers([g], g, b, env) <==> ForTuple(g, b) && b.time <= validUntil;
    assert forall f :: f in [g] <==> f == g;
    hide SelectFacts, AcctCovers, Linked, AssetOf, AcctSanctions, ActorGenuine, AcctStopped;
  }

  /** An answer is accepted exactly when its grant outlives the activity: when the same activity, an instant
      later, would still be in scope by that grant alone. */
  lemma {:induction false} AnswerAcceptedIff(matches: Matcher, a: Activity, tenant: string, validUntil: int, id: string)
    requires ValidActivity(a) && a.track == AccountTrack
    ensures var answer := Answer(Question(a.track, a, ProposedScope(a)), tenant, validUntil, id);
      var grant := GrantFromActivity(a, validUntil, None, id).(tenant := Some(tenant));
      && (answer.Some? <==> validUntil > a.time)
      && (answer.Some? <==> Evaluate(matches, a.(time := a.time + 1), [grant], Some(tenant)).inScope)
      && (answer.Some? ==> answer.value == grant)
  {
    var grant := GrantFromActivity(a, validUntil, None, id).(tenant := Some(tenant));
    MintedAccountGrantIsExact(matches, a, a.(time := a.time + 1), grant, tenant, validUntil);
    hide Evaluate;
  }

  lemma {:induction false} NoAccountFact(facts: seq<Fact>, name: string)
    requires forall f :: f in facts ==> !f.body.EntityBody?
    ensures AccountFact(facts, name) == None
  {
    if Records(facts) != [] {
      RecordsMembers(facts, Records(facts)[0]);
    }
  }

  lemma {:induction false} MintedFimGrantCovers(matches: Matcher, a: Activity, b: Activity, g: Fact, tenant: string,
      validUntil: int)
    requires ValidActivity(a) && ValidActivity(b) && a.track == FimTrack && b.track == FimTrack
    requires g == GrantFromActivity(a, validUntil, None, g.id).(tenant := Some(tenant))
    ensures Evaluate(matches, b, [g], Some(tenant)).inScope
       <==> matches(b.path.value, a.path.value)
            && (a.changeType == Some(AnyChange) || b.changeType == a.changeType) && b.time <= validUntil
  {
    AloneSelected(g, FimTrack, Some(tenant));
    FimScopeOfOne(matches, [g], b, g);
    assert FimTicketCovers(matches, g, b) <==> ForPath(matches, g, b) && b.time <= validUntil;
    assert !FimBaselineCovers(matches, g, b);
    assert forall fr :: !ActiveFreeze([g], fr, b);
    hide SelectFacts, FimComponents, FimTicketCovers, FimBaselineCovers, ActiveFreeze;
  }

  /** The other activity the minted grant lets through, if it does. */
  ghost predicate CoversAnother(matches: Matcher, a: Activity, g: Fact, tenant: string) {
    exists b :: ValidActivity(b) && b.track == FimTrack && Evaluate(matches, b, [g], Some(tenant)).inScope
                && (b.path != a.path || b.changeType != a.changeType)
  }

  /** On the FIM track the minted grant, promised never to be a wildcard, covers another path or another
      kind of change exactly when the path has a `*` or `?` or the reported change is `any`. */
  lemma {:induction false} MintedFimGrantIsExactIff(matches: Matcher, a: Activity, g: Fact, tenant: string,
      validUntil: int)
    requires ValidActivity(a) && a.track == FimTrack && Glob.ReadsGlobs(matches) && '[' !in a.path.value
    requires g == GrantFromActivity(a, validUntil, None, g.id).(tenant := Some(tenant))
    ensures CoversAnother(matches, a, g, tenant) <==> !Glob.IsLiteral(a.path.value) || a.changeType == Some(AnyChange)
  {
    hide Evaluate;
    if !Glob.IsLiteral(a.path.value) {
      var other := Glob.WildcardMatchesAnother(a.path.value);
      var b := a.(path := Some(other), time := validUntil);
      MintedFimGrantCovers(matches, a, b, g, tenant, validUntil);
      assert CoversAnother(matches, a, g, tenant);
    } else if a.changeType == Some(AnyChange) {
      var b := a.(changeType := Some(Modify), time := validUntil);
      Glob.MatchesItself(a.path.value);
      MintedFimGrantCovers(matches, a, b, g, tenant, validUntil);
      assert CoversAnother(matches, a, g, tenant);
    } else {
      forall b | ValidActivity(b) && b.track == FimTrack && Evaluate(matches, b, [g], Some(tenant)).inScope
        ensures b.path == a.path && b.changeType == a.changeType
      {
        MintedFimGrantCovers(matches, a, b, g, tenant, validUntil);
        Glob.LiteralMatchesOnlyItself(b.path.value, a.path.value);
      }
    }
  }
}
