/**
 What covers an activity (src/soctalk/authorization/engine.py: `_acct_components`,
 `_fim_components`, `find_covering_grants`, `derive_authz_class`).
 */
module AuthorizationCoverage {
  import opened Wrappers
  import opened AuthorizationModel
  import opened AuthorizationEngine
  import opened AuthorizationOrder

  // ----- coverage implies sanction

  lemma {:induction false} CoverIsSanction(matches: Matcher, facts: seq<Fact>, f: Fact, a: Activity, env: string)
    ensures AcctCovers(facts, f, a, env) ==> AcctSanctions(f, a)
    ensures FimCovers(matches, f, a) ==> FimSanctions(matches, f, a)
  {
  }

  /** What is in scope is sanctioned, on both tracks. */
  lemma {:induction false} InScopeIsSanctioned(matches: Matcher, a: Activity, facts: seq<Fact>, tenant: Option<string>)
    requires Evaluate(matches, a, facts, tenant).inScope
    ensures Evaluate(matches, a, facts, tenant).sanctionedOrRoutine
  {
    var selected := SelectFacts(facts, a.track, tenant);
    hide SelectFacts, FimCovers, FimSanctions, AcctCovers, AcctSanctions, AssetOf, Linked, ActorGenuine, AcctStopped,
         FimBlocked, FimStopped;
    if a.track == FimTrack {
      var f :| f in selected && FimCovers(matches, f, a);
      CoverIsSanction(matches, selected, f, a, "");
    } else {
      var f :| f in selected && AcctCovers(selected, f, a, AssetOf(selected, a).env);
      CoverIsSanction(matches, selected, f, a, AssetOf(selected, a).env);
    }
  }

  // ----- the account track: one record decides

  /** In scope exactly when `find_covering_grants` finds something and the organisations are linked. */
  lemma {:induction false} AccountInScopeIff(matches: Matcher, a: Activity, facts: seq<Fact>, tenant: Option<string>)
    requires a.track == AccountTrack
    ensures Evaluate(matches, a, facts, tenant).inScope
       <==> FindCoveringGrants(matches, a, facts, tenant) != [] && Linked(SelectFacts(facts, a.track, tenant), a)
  {
    var selected := SelectFacts(facts, a.track, tenant);
    var covering := FindCoveringGrants(matches, a, facts, tenant);
    hide SelectFacts, AcctCovers, AcctSanctions, AssetOf, Linked, ActorGenuine, AcctStopped, Keep;
    assert forall f :: f in covering <==> f in selected && AcctCovers(selected, f, a, AssetOf(selected, a).env);
    if covering != [] {
      assert covering[0] in selected;
    }
  }

  /** The facts with every grant taken away but g. */
  function KeepOnly(facts: seq<Fact>, g: Fact): seq<Fact> {
    Keep(facts, (f: Fact) => !f.body.GrantBody? || f == g)
  }

  /** Two lists with the same facts apart from grants. */
  ghost predicate SameButGrants(a: seq<Fact>, b: seq<Fact>) {
    forall f: Fact :: !f.body.GrantBody? ==> (f in a <==> f in b)
  }

  lemma {:induction false} KeepOnlySelects(facts: seq<Fact>, g: Fact, track: Track, tenant: Option<string>)
    requires g in facts && g.body.GrantBody?
    ensures var all, one := SelectFacts(facts, track, tenant), SelectFacts(KeepOnly(facts, g), track, tenant);
      && SameButGrants(all, one)
      && forall f: Fact :: f in one && f.body.GrantBody? <==> f == g && f in all
  {
  }

  /** Lists that differ in grants only agree on all that decides whether a given grant covers. */
  lemma {:induction false} CoversSame(a: seq<Fact>, b: seq<Fact>, act: Activity)
    requires SameButGrants(a, b)
    ensures forall f :: AcctCovers(a, f, act, AssetOf(a, act).env) == AcctCovers(b, f, act, AssetOf(b, act).env)
    ensures Linked(a, act) == Linked(b, act) && PathOf(a, act) == PathOf(b, act)
  {
    ViewsAgree(a, b, act);
    TicketCoversAgree(a, b, act, AssetOf(a, act).env);
    hide AssetOf, Linked, PathOf, AcctTicketCovers, AcctBaselineCovers, AcctRoutine, SameButGrants;
  }

  lemma {:induction false} CoveringIsGrant(facts: seq<Fact>, f: Fact, a: Activity, env: string)
    requires AcctCovers(facts, f, a, env)
    ensures f.body.GrantBody?
  {
  }

  /** The activity is in scope with all other grants taken away. */
  ghost predicate CoveredAlone(matches: Matcher, a: Activity, facts: seq<Fact>, tenant: Option<string>, g: Fact) {
    g in facts && g.body.GrantBody? && Evaluate(matches, a, KeepOnly(facts, g), tenant).inScope
  }

  lemma {:induction false} AloneOnAccount(matches: Matcher, a: Activity, facts: seq<Fact>, tenant: Option<string>,
      g: Fact)
    requires a.track == AccountTrack && g in facts && g.body.GrantBody?
    ensures var all := SelectFacts(facts, a.track, tenant);
      Evaluate(matches, a, KeepOnly(facts, g), tenant).inScope
      <==> g in all && AcctCovers(all, g, a, AssetOf(all, a).env) && Linked(all, a)
  {
    var all, one := SelectFacts(facts, a.track, tenant), SelectFacts(KeepOnly(facts, g), a.track, tenant);
    KeepOnlySelects(facts, g, a.track, tenant);
    CoversSame(all, one, a);
    hide SelectFacts, KeepOnly, AcctCovers, AcctSanctions, AssetOf, Linked, ActorGenuine, AcctStopped, SameButGrants;
    forall f | f in one && AcctCovers(one, f, a, AssetOf(one, a).env) ensures f == g {
      CoveringIsGrant(one, f, a, AssetOf(one, a).env);
    }
  }

  /** The single-covering-record rule on the account track: in scope exactly when some one grant, kept
      alone, still gives in scope.  Grants never add up. */
  lemma {:induction false} AccountNeedsOneGrant(matches: Matcher, a: Activity, facts: seq<Fact>, tenant: Option<string>)
    requires a.track == AccountTrack
    ensures Evaluate(matches, a, facts, tenant).inScope <==> exists g :: CoveredAlone(matches, a, facts, tenant, g)
  {
    var all := SelectFacts(facts, a.track, tenant);
    var env := AssetOf(all, a).env;
    assert forall f :: f in all ==> f in facts;
    forall g | g in facts && g.body.GrantBody?
      ensures CoveredAlone(matches, a, facts, tenant, g) <==> g in all && AcctCovers(all, g, a, env) && Linked(all, a)
    {
      AloneOnAccount(matches, a, facts, tenant, g);
    }
    forall f | AcctCovers(all, f, a, env) ensures f.body.GrantBody? {
      CoveringIsGrant(all, f, a, env);
    }
    assert Evaluate(matches, a, facts, tenant).inScope
      <==> (exists f :: f in all && AcctCovers(all, f, a, env)) && Linked(all, a);
    hide SelectFacts, Evaluate, AcctCovers, Linked, AssetOf;
    if Evaluate(matches, a, facts, tenant).inScope {
      var f :| f in all && AcctCovers(all, f, a, env);
      assert CoveredAlone(matches, a, facts, tenant, f);
    }
  }

  // ----- the FIM track: one record covers, but freezes may need several

  /** A freeze for the class of the path, from its start to its end, both included. */
  predicate ActiveFreeze(selected: seq<Fact>, fr: Fact, a: Activity) {
    && fr in selected && fr.body.FreezeBody?
    && PathOf(selected, a).configClass in fr.body.freeze.configClasses
    && fr.body.freeze.start <= a.time && a.time <= fr.body.freeze.end
  }

  lemma {:induction false} FimScope(matches: Matcher, facts: seq<Fact>, a: Activity)
    ensures FimComponents(matches, facts, a).inScope
       <==> (exists f :: f in facts && FimCovers(matches, f, a))
            && forall fr :: ActiveFreeze(facts, fr, a) ==> Excepted(matches, facts, fr, a)
  {
  }

  /** In scope exactly when `find_covering_grants` finds something and each active freeze is excepted by
      some change ticket it found; different freezes may have different tickets. */
  lemma {:induction false} FimInScopeIff(matches: Matcher, a: Activity, facts: seq<Fact>, tenant: Option<string>)
    requires a.track == FimTrack
    ensures var covering := FindCoveringGrants(matches, a, facts, tenant);
      Evaluate(matches, a, facts, tenant).inScope
      <==> covering != []
           && forall fr :: ActiveFreeze(SelectFacts(facts, a.track, tenant), fr, a) ==>
                exists g :: g in covering && IsGrant(g, ChangeTicket) && Excepts(g, fr)
  {
    hide SelectFacts, FimCovers, FimComponents, ActiveFreeze, Excepted, Excepts, IsGrant;
    var selected := SelectFacts(facts, a.track, tenant);
    var covering := FindCoveringGrants(matches, a, facts, tenant);
    assert forall f :: f in covering <==> f in selected && FimCovers(matches, f, a);
    if covering != [] {
      assert covering[0] in selected;
    }
    FimScope(matches, selected, a);
    forall fr ensures Excepted(matches, selected, fr, a)
                 <==> exists g :: g in covering && IsGrant(g, ChangeTicket) && Excepts(g, fr)
    {
      TicketsAmongCovering(matches, selected, covering, fr, a);
    }
  }

  lemma {:induction false} TicketsAmongCovering(matches: Matcher, selected: seq<Fact>, covering: seq<Fact>, fr: Fact,
      a: Activity)
    requires forall f :: f in covering <==> f in selected && FimCovers(matches, f, a)
    ensures Excepted(matches, selected, fr, a)
       <==> exists g :: g in covering && IsGrant(g, ChangeTicket) && Excepts(g, fr)
  {
  }

  /** A ticket that covers and excepts every active freeze. */
  ghost predicate ExceptsAll(matches: Matcher, selected: seq<Fact>, g: Fact, a: Activity) {
    FimTicketCovers(matches, g, a) && forall fr :: ActiveFreeze(selected, fr, a) ==> Excepts(g, fr)
  }

  ghost predicate NoFreeze(selected: seq<Fact>, a: Activity) {
    forall fr :: !ActiveFreeze(selected, fr, a)
  }

  /** Scope when g is the only grant. */
  lemma {:induction false} FimScopeOfOne(matches: Matcher, facts: seq<Fact>, a: Activity, g: Fact)
    requires forall f: Fact :: f in facts && f.body.GrantBody? ==> f == g
    ensures FimComponents(matches, facts, a).inScope
       <==> g in facts && (ExceptsAll(matches, facts, g, a) || (FimBaselineCovers(matches, g, a) && NoFreeze(facts, a)))
  {
    FimScope(matches, facts, a);
    assert forall f :: FimTicketCovers(matches, f, a) || FimBaselineCovers(matches, f, a) ==> f.body.GrantBody?;
    assert !(FimTicketCovers(matches, g, a) && FimBaselineCovers(matches, g, a));
    hide FimComponents, FimTicketCovers, FimBaselineCovers, ActiveFreeze, Excepts;
    var covers := g in facts && FimTicketCovers(matches, g, a);
    assert forall fr :: Excepted(matches, facts, fr, a) <==> covers && Excepts(g, fr);
  }

  lemma {:induction false} SameActiveFreezes(a: seq<Fact>, b: seq<Fact>, act: Activity)
    requires SameButGrants(a, b)
    ensures forall fr :: ActiveFreeze(a, fr, act) == ActiveFreeze(b, fr, act)
  {
    CoversSame(a, b, act);
    hide PathOf;
  }

  lemma {:induction false} AloneOnFim(matches: Matcher, a: Activity, facts: seq<Fact>, tenant: Option<string>, g: Fact)
    requires a.track == FimTrack && g in facts && g.body.GrantBody?
    ensures var all := SelectFacts(facts, a.track, tenant);
      Evaluate(matches, a, KeepOnly(facts, g), tenant).inScope
      <==> g in all && (ExceptsAll(matches, all, g, a) || (FimBaselineCovers(matches, g, a) && NoFreeze(all, a)))
  {
    var all, one := SelectFacts(facts, a.track, tenant), SelectFacts(KeepOnly(facts, g), a.track, tenant);
    KeepOnlySelects(facts, g, a.track, tenant);
    SameActiveFreezes(all, one, a);
    FimScopeOfOne(matches, one, a, g);
    hide SelectFacts, KeepOnly, FimComponents, FimTicketCovers, FimBaselineCovers, ActiveFreeze, Excepts,
         SameButGrants;
  }

  /** On the FIM track a single grant suffices exactly when one covering ticket excepts all active
      freezes, or no freeze is active and a baseline covers. */
  lemma {:induction false} FimOneGrantIff(matches: Matcher, a: Activity, facts: seq<Fact>, tenant: Option<string>)
    requires a.track == FimTrack
    ensures var all := SelectFacts(facts, a.track, tenant);
      (exists g :: CoveredAlone(matches, a, facts, tenant, g))
      <==> (exists g :: g in all && ExceptsAll(matches, all, g, a))
           || (NoFreeze(all, a) && exists g :: g in all && FimBaselineCovers(matches, g, a))
  {
    var all := SelectFacts(facts, a.track, tenant);
    assert forall f :: f in all ==> f in facts;
    assert forall f :: FimTicketCovers(matches, f, a) || FimBaselineCovers(matches, f, a) ==> f.body.GrantBody?;
    forall g | g in facts && g.body.GrantBody?
      ensures CoveredAlone(matches, a, facts, tenant, g)
         <==> g in all && (ExceptsAll(matches, all, g, a) || (FimBaselineCovers(matches, g, a) && NoFreeze(all, a)))
    {
      AloneOnFim(matches, a, facts, tenant, g);
    }
    assert forall g :: ExceptsAll(matches, all, g, a) ==> FimTicketCovers(matches, g, a);
    hide SelectFacts, Evaluate, ExceptsAll, NoFreeze, FimBaselineCovers, FimTicketCovers;
    if g :| g in all && ExceptsAll(matches, all, g, a) {
      assert CoveredAlone(matches, a, facts, tenant, g);
    } else if g :| g in all && FimBaselineCovers(matches, g, a) && NoFreeze(all, a) {
      assert CoveredAlone(matches, a, facts, tenant, g);
    }
  }

  // ----- the rule the documentation states for both tracks fails on FIM

  function FrozenFor(id: string): Fact {
    Fact("", FimTrack, None, ANYWHERE, SYSTEM_TRUST, None, None, None,
         FreezeBody(Freeze([], ["app"], 0, 10, [id])))
  }

  function TicketFor(id: string, path: string): Fact {
    Fact(id, FimTrack, None, Scope(None, Some(path), None, None, None), SYSTEM_TRUST, None, Some(10), None,
         GrantBody(Grant(ChangeTicket, Approved, false, true, false, false, None, None)))
  }

  function ChangeOf(path: string): Activity {
    Activity(FimTrack, None, None, None, Some(path), Some(Modify), 5, 0, false)
  }

  function TwoFreezes(x: string, y: string, path: string): seq<Fact> {
    [TicketFor(x, path), TicketFor(y, path), FrozenFor(x), FrozenFor(y)]
  }

  lemma {:induction false} OneTicket(matches: Matcher, x: string, y: string, path: string)
    requires matches(path, path)
    ensures var t, a := TicketFor(x, path), ChangeOf(path);
      && Selected(t, FimTrack, None) && !t.body.EntityBody?
      && FimTicketCovers(matches, t, a) && !FimBaselineCovers(matches, t, a) && !FimFrozen(t, a, "app")
      && (Excepts(t, FrozenFor(y)) <==> x == y)
  {
  }

  lemma {:induction false} OneFreeze(matches: Matcher, x: string, path: string)
    ensures var fr, a := FrozenFor(x), ChangeOf(path);
      && Selected(fr, FimTrack, None) && !fr.body.EntityBody?
      && !FimTicketCovers(matches, fr, a) && !FimBaselineCovers(matches, fr, a) && FimFrozen(fr, a, "app")
  {
  }

  /** Tickets t and u cover, freezes p and q are active, t excepts only p and u only q, and there is
      nothing else. */
  ghost predicate Crossed(matches: Matcher, all: seq<Fact>, a: Activity, t: Fact, u: Fact, p: Fact, q: Fact) {
    && (forall f :: f in all <==> f == t || f == u || f == p || f == q)
    && (forall fr :: ActiveFreeze(all, fr, a) <==> fr == p || fr == q)
    && FimTicketCovers(matches, t, a) && FimTicketCovers(matches, u, a)
    && (forall f :: f in all ==> !FimBaselineCovers(matches, f, a))
    && Excepts(t, p) && !Excepts(t, q) && Excepts(u, q) && !Excepts(u, p)
    && !FimTicketCovers(matches, p, a) && !FimTicketCovers(matches, q, a)
  }

  lemma {:induction false} CrossedNeedsTwo(matches: Matcher, all: seq<Fact>, a: Activity, t: Fact, u: Fact, p: Fact,
      q: Fact)
    requires Crossed(matches, all, a, t, u, p, q)
    ensures FimComponents(matches, all, a).inScope
    ensures !exists g :: g in all && ExceptsAll(matches, all, g, a)
    ensures !NoFreeze(all, a)
  {
    FimScope(matches, all, a);
    hide FimComponents, ActiveFreeze, FimTicketCovers, FimBaselineCovers, Excepts;
    assert FimCovers(matches, t, a);
    assert Excepted(matches, all, p, a) && Excepted(matches, all, q, a);
    assert ActiveFreeze(all, p, a) && ActiveFreeze(all, q, a);
  }

  lemma {:induction false} KeepFour(t: Fact, u: Fact, p: Fact, q: Fact, track: Track, tenant: Option<string>)
    requires Selected(t, track, tenant) && Selected(u, track, tenant) && Selected(p, track, tenant)
             && Selected(q, track, tenant)
    ensures forall f :: f in SelectFacts([t, u, p, q], track, tenant) <==> f == t || f == u || f == p || f == q
  {
  }

  lemma {:induction false} TwoFreezesCrossed(matches: Matcher, x: string, y: string, path: string)
    requires matches(path, path) && x != y
    ensures Crossed(matches, SelectFacts(TwoFreezes(x, y, path), FimTrack, None), ChangeOf(path),
                    TicketFor(x, path), TicketFor(y, path), FrozenFor(x), FrozenFor(y))
  {
    hide SelectFacts, ResolvedEntity, Selected, TicketFor, FrozenFor, FimFrozen, FimTicketCovers, FimBaselineCovers,
         Excepts, ChangeOf;
    OneTicket(matches, x, x, path);
    OneTicket(matches, x, y, path);
    OneTicket(matches, y, y, path);
    OneTicket(matches, y, x, path);
    OneFreeze(matches, x, path);
    OneFreeze(matches, y, path);
    KeepFour(TicketFor(x, path), TicketFor(y, path), FrozenFor(x), FrozenFor(y), FimTrack, None);
    var all := SelectFacts(TwoFreezes(x, y, path), FimTrack, None);
    NoEntityNoRecord(all, WatchedPath, Else(ChangeOf(path).path, ""));
    assert PathOf(all, ChangeOf(path)).configClass == "app";
    forall fr { ActiveIffFrozen(all, fr, ChangeOf(path)); }
    hide PathOf, ActiveFreeze;
  }

  lemma ActiveIffFrozen(selected: seq<Fact>, fr: Fact, a: Activity)
    ensures ActiveFreeze(selected, fr, a) <==> fr in selected && FimFrozen(fr, a, PathOf(selected, a).configClass)
  {
  }

  /** Two freezes, each excepting another ticket: in scope, though neither ticket alone gives in scope. */
  lemma {:induction false} FimMayNeedTwoGrants(matches: Matcher, x: string, y: string, path: string)
    requires matches(path, path) && x != y
    ensures Evaluate(matches, ChangeOf(path), TwoFreezes(x, y, path), None).inScope
    ensures !exists g :: CoveredAlone(matches, ChangeOf(path), TwoFreezes(x, y, path), None, g)
  {
    var a, all := ChangeOf(path), SelectFacts(TwoFreezes(x, y, path), FimTrack, None);
    assert a.track == FimTrack;
    TwoFreezesCrossed(matches, x, y, path);
    CrossedNeedsTwo(matches, all, a, TicketFor(x, path), TicketFor(y, path), FrozenFor(x), FrozenFor(y));
    FimOneGrantIff(matches, a, TwoFreezes(x, y, path), None);
    hide SelectFacts, FimComponents, Crossed, CoveredAlone, TwoFreezes, ChangeOf, ExceptsAll, NoFreeze;
  }

  lemma {:induction false} NoEntityNoRecord(facts: seq<Fact>, kind: EntityKind, name: string)
    requires forall f :: f in facts ==> !f.body.EntityBody?
    ensures ResolvedEntity(facts, kind, name) == None
  {
    if Records(facts) != [] {
      RecordsMembers(facts, Records(facts)[0]);
    }
  }

  // ----- the class

  lemma {:induction false} NoGrantNotInScope(matches: Matcher, a: Activity, facts: seq<Fact>, tenant: Option<string>)
    requires forall f: Fact :: f in facts && Selected(f, a.track, tenant) ==> !f.body.GrantBody?
    ensures var c := Evaluate(matches, a, facts, tenant); !c.inScope && !c.sanctionedOrRoutine
  {
  }

  ghost predicate GrantOnFile(ctx: Context) {
    exists f: Fact :: f in ctx.facts && Selected(f, ctx.activity.track, ctx.tenant) && f.body.GrantBody?
  }

  /** `absent` exactly when no selected record is a grant and policy allows; `covered` exactly when in
      scope and allowed; `contradicted` otherwise. */
  lemma {:induction false} ClassIff(matches: Matcher, ctx: Context)
    ensures var (cls, _) := DeriveClass(matches, Some(ctx));
      var c := Evaluate(matches, ctx.activity, ctx.facts, ctx.tenant);
      && (cls == Absent <==> !GrantOnFile(ctx) && c.policyAllowed)
      && (cls == Covered <==> c.inScope && c.policyAllowed)
      && (cls == Contradicted <==> !c.policyAllowed || (GrantOnFile(ctx) && !c.inScope))
  {
    var selected := SelectFacts(ctx.facts, ctx.activity.track, ctx.tenant);
    assert forall f :: f in selected <==> f in ctx.facts && Selected(f, ctx.activity.track, ctx.tenant);
    if !GrantOnFile(ctx) {
      NoGrantNotInScope(matches, ctx.activity, ctx.facts, ctx.tenant);
    }
    if selected == [] {
      NothingStops(matches, selected, ctx.activity);
    }
    assert GrantOnFile(ctx) <==> exists f :: f in selected && f.body.GrantBody?;
    assert selected == [] ==> !exists f :: f in selected && f.body.GrantBody?;
    hide SelectFacts, GrantOnFile, FimComponents, AccountComponents;
  }

  lemma {:induction false} NothingStops(matches: Matcher, facts: seq<Fact>, a: Activity)
    requires forall f: Fact :: f in facts ==> !f.body.ProhibitionBody?
    ensures FimComponents(matches, facts, a).policyAllowed && AccountComponents(facts, a).policyAllowed
  {
  }
}
