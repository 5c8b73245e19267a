/**
 Rules the evaluator promises one by one (src/soctalk/authorization/engine.py): trust decides
 between records, a compromise flag cannot be outranked, break-glass needs a covering emergency
 change, account freezes gate tickets only, and what a recurring window matches.
 */
module AuthorizationRules {
  import opened Wrappers
  import opened AuthorizationModel
  import opened EntityKey
  import opened AuthorizationEngine
  import opened AuthorizationOrder
  import opened AuthorizationCoverage

  // ----- trust decides

  /** Every record of ss that is not in rs is outranked by one of rs. */
  ghost predicate Outranked(rs: seq<Record>, ss: seq<Record>) {
    && (forall r :: r in rs ==> r in ss)
    && (forall s :: s in ss && s !in rs ==> exists r :: r in rs && Less(s, r))
  }

  lemma {:induction false} OutrankedTie(rs: seq<Record>, ss: seq<Record>)
    requires Outranked(rs, ss)
    ensures rs == [] <==> ss == []
    ensures rs != [] ==> Max(rs).trust == Max(ss).trust
                         && KeyText(Max(rs).entity, Max(rs).trust) == KeyText(Max(ss).entity, Max(ss).trust)
  {
    hide Less, KeyText, Max;
    assert ss != [] ==> ss[0] in ss;
    if rs != [] {
      assert rs[0] in ss;
      var m, n := Max(rs), Max(ss);
      assert m in ss;
      MaxIsGreatest(ss, m);
      forall r | r in rs ensures !Less(n, r) {
        MaxIsGreatest(ss, r);
      }
      assert n in rs;
      MaxIsGreatest(rs, n);
      LessIrreflexive(m, n);
    }
  }

  /** A record that flags no compromise and is outranked, by trust, by a record for the same entity; for
      an account, by one of known type, unless its own type is unknown. */
  ghost predicate Mute(facts: seq<Fact>, x: Fact) {
    && x.body.EntityBody?
    && !FlagsCompromise(x, x.body.entity.name)
    && exists y :: y in facts && Outranks(y, x)
  }

  predicate Outranks(y: Fact, x: Fact) {
    && x.body.EntityBody? && y.body.EntityBody?
    && y.body.entity.kind == x.body.entity.kind && y.body.entity.name == x.body.entity.name
    && (x.body.entity.accountType.Some? ==> y.body.entity.accountType.Some?)
    && y.trust > x.trust
  }

  /** `b` is `a` with mute records added. */
  ghost predicate AddsMute(a: seq<Fact>, b: seq<Fact>) {
    && (forall f :: f in a ==> f in b)
    && (forall f :: f in b && f !in a ==> Mute(a, f))
  }

  lemma {:induction false} MuteRecords(a: seq<Fact>, b: seq<Fact>, s: Record)
    requires AddsMute(a, b) && s in Records(b) && s !in Records(a)
    ensures exists r :: r in Records(a) && r.entity.kind == s.entity.kind && r.entity.name == s.entity.name
                        && (s.entity.accountType.Some? ==> r.entity.accountType.Some?) && Less(s, r)
  {
    hide Records, KeyText, IsCompromised;
    RecordsMembers(b, s);
    RecordsMembers(a, s);
    var f :| f in b && IsRecordOf(f, s);
    assert f !in a;
    var y :| y in a && Outranks(y, f);
    var r := Record(y.trust, y.body.entity);
    assert IsRecordOf(y, r);
    RecordsMembers(a, r);
  }

  lemma {:induction false} RecordsGrow(a: seq<Fact>, b: seq<Fact>)
    requires forall f :: f in a ==> f in b
    ensures forall r :: r in Records(a) ==> r in Records(b)
  {
    forall r | r in Records(a) ensures r in Records(b) {
      RecordsMembers(a, r);
      RecordsMembers(b, r);
    }
  }

  lemma {:induction false} MuteOutranked(a: seq<Fact>, b: seq<Fact>, kind: EntityKind, name: string)
    requires AddsMute(a, b)
    ensures Outranked(Matching(a, kind, name), Matching(b, kind, name))
    ensures Outranked(TypedAccounts(a, name), TypedAccounts(b, name))
  {
    RecordsGrow(a, b);
    hide Records, Less, AddsMute;
    forall s | s in Records(b) && s !in Records(a)
      ensures exists r :: r in Records(a) && r.entity.kind == s.entity.kind && r.entity.name == s.entity.name
                          && (s.entity.accountType.Some? ==> r.entity.accountType.Some?) && Less(s, r)
    {
      MuteRecords(a, b, s);
    }
  }

  lemma {:induction false} MuteResolved(a: seq<Fact>, b: seq<Fact>, kind: EntityKind, name: string)
    requires AddsMute(a, b)
    ensures Alike(ResolvedEntity(a, kind, name), ResolvedEntity(b, kind, name), kind)
  {
    MuteOutranked(a, b, kind, name);
    hide AddsMute, Records, Max, KeyText, Outranked, KeepRecords;
    OutrankedTie(Matching(a, kind, name), Matching(b, kind, name));
  }

  lemma {:induction false} MuteAccounts(a: seq<Fact>, b: seq<Fact>, name: string)
    requires AddsMute(a, b)
    ensures AccountAttributes(AccountFact(a, name)) == AccountAttributes(AccountFact(b, name))
  {
    MuteOutranked(a, b, Account, name);
    hide AddsMute, Records, Max, KeyText, Outranked, AccountAttributes, KeepRecords;
    OutrankedTie(TypedAccounts(a, name), TypedAccounts(b, name));
    AlikeAccounts(AccountFact(a, name), AccountFact(b, name));
  }

  lemma {:induction false} MuteFlagsNothing(a: seq<Fact>, b: seq<Fact>, name: string)
    requires AddsMute(a, b)
    ensures AccountCompromised(a, name) == AccountCompromised(b, name)
  {
    hide Outranks, IsCompromised;
  }

  lemma {:induction false} MuteSpeakAlike(a: seq<Fact>, b: seq<Fact>)
    requires AddsMute(a, b)
    ensures SameRules(a, b) && SpeakAlike(a, b)
  {
    assert forall f: Fact :: f in b && f !in a ==> f.body.EntityBody?;
    hide AddsMute, Alike, ResolvedEntity, AccountFact, AccountAttributes, AccountCompromised;
    forall kind, name ensures Alike(ResolvedEntity(a, kind, name), ResolvedEntity(b, kind, name), kind) {
      MuteResolved(a, b, kind, name);
    }
    forall name ensures AccountAttributes(AccountFact(a, name)) == AccountAttributes(AccountFact(b, name)) {
      MuteAccounts(a, b, name);
    }
    forall name ensures AccountCompromised(a, name) == AccountCompromised(b, name) {
      MuteFlagsNothing(a, b, name);
    }
  }

  /** Entity conflicts resolve by trust: records outranked by a selected record for the same entity change
      nothing, links and defaults included, unless they flag an account as compromised. */
  lemma {:induction false} LowTrustDoesNotSpeak(matches: Matcher, act: Activity, a: seq<Fact>, b: seq<Fact>,
      tenant: Option<string>)
    requires AddsMute(SelectFacts(a, act.track, tenant), SelectFacts(b, act.track, tenant))
    ensures Evaluate(matches, act, a, tenant) == Evaluate(matches, act, b, tenant)
  {
    MuteSpeakAlike(SelectFacts(a, act.track, tenant), SelectFacts(b, act.track, tenant));
    hide SelectFacts, Evaluate, AddsMute, SameRules, SpeakAlike;
    EvaluateAlike(matches, act, a, b, tenant);
  }

  /** A compromise flag on the account is never outranked: one selected record suffices. */
  lemma {:induction false} FlagIsNeverOutranked(matches: Matcher, act: Activity, facts: seq<Fact>,
      tenant: Option<string>, f: Fact)
    requires act.track == AccountTrack && f in facts && Selected(f, act.track, tenant)
             && FlagsCompromise(f, Else(act.account, ""))
    ensures !Evaluate(matches, act, facts, tenant).actorGenuine
  {
    hide AcctSanctions, AcctCovers, AcctStopped, Linked, FlagsCompromise;
  }

  // ----- policy

  /** An applicable prohibition is overcome only by break-glass: the policy must provide for it, the account
      must have it, and an emergency change must be among the covering grants. */
  lemma {:induction false} BreakGlassNeedsCoveringEmergency(matches: Matcher, act: Activity, facts: seq<Fact>,
      tenant: Option<string>, p: Fact)
    requires act.track == AccountTrack && p.body.ProhibitionBody?
    requires var all := SelectFacts(facts, act.track, tenant);
      p in all && AcctForbids(p.body.prohibition, act, AssetOf(all, act), AccountOf(all, act))
    ensures Evaluate(matches, act, facts, tenant).policyAllowed ==>
      && p.body.prohibition.breakGlassException
      && AccountOf(SelectFacts(facts, act.track, tenant), act).breakGlass
      && exists g :: && g in FindCoveringGrants(matches, act, facts, tenant)
                     && IsGrant(g, ChangeTicket) && g.body.grant.emergency
  {
    var all := SelectFacts(facts, act.track, tenant);
    var env := AssetOf(all, act).env;
    assert forall f :: AcctTicketCovers(all, f, act, env) ==> AcctCovers(all, f, act, env) && IsGrant(f, ChangeTicket);
    var covering := FindCoveringGrants(matches, act, facts, tenant);
    assert forall f :: f in covering <==> f in all && AcctCovers(all, f, act, env);
    hide SelectFacts, AssetOf, AccountOf, AcctForbids, AcctTicketCovers, AcctCovers, AcctSanctions, Linked,
         ActorGenuine, FindCoveringGrants, IsGrant;
    if Evaluate(matches, act, facts, tenant).policyAllowed {
      assert !AcctStopped(all, p, act);
    }
  }

  // ----- freezes on the account track

  /** The facts with every freeze taken away. */
  function Thawed(facts: seq<Fact>): seq<Fact> {
    Keep(facts, (f: Fact) => !f.body.FreezeBody?)
  }

  /** A change ticket against which some freeze stands, for the environment and at the time, that does not except
      it. */
  predicate FrozenTicket(all: seq<Fact>, g: Fact, act: Activity) {
    && g.body.GrantBody? && g.body.grant.grantClass == ChangeTicket && !g.body.grant.freezeException
    && exists fr :: && fr in all && fr.body.FreezeBody? && AssetOf(all, act).env in fr.body.freeze.envs
                    && fr.body.freeze.start <= act.time && act.time <= fr.body.freeze.end
                    && g.id !in fr.body.freeze.allowedExceptionIds
  }

  lemma {:induction false} FrozenTicketIff(all: seq<Fact>, g: Fact, act: Activity)
    ensures FrozenTicket(all, g, act)
       <==> IsGrant(g, ChangeTicket) && AcctFreezeBlocks(all, AssetOf(all, act).env, g, act.time)
  {
    assert forall fr :: fr in all ==>
      (FreezeHits(fr, AssetOf(all, act).env, g.id, act.time)
       <==> && fr.body.FreezeBody? && AssetOf(all, act).env in fr.body.freeze.envs
            && fr.body.freeze.start <= act.time && act.time <= fr.body.freeze.end
            && g.id !in fr.body.freeze.allowedExceptionIds);
  }

  /** Freezes gate change tickets and nothing else: the covering grants are those of the unfrozen state
      without the tickets a freeze blocks. */
  lemma {:induction false} FreezesGateTicketsOnly(matches: Matcher, act: Activity, facts: seq<Fact>,
      tenant: Option<string>, g: Fact)
    requires act.track == AccountTrack
    ensures g in FindCoveringGrants(matches, act, facts, tenant)
       <==> g in FindCoveringGrants(matches, act, Thawed(facts), tenant)
            && !FrozenTicket(SelectFacts(facts, act.track, tenant), g, act)
  {
    var all, thawed := SelectFacts(facts, act.track, tenant), SelectFacts(Thawed(facts), act.track, tenant);
    assert forall f :: f in thawed <==> f in all && !f.body.FreezeBody?;
    ViewsAgree(all, thawed, act);
    var env := AssetOf(all, act).env;
    assert g in FindCoveringGrants(matches, act, facts, tenant) <==> g in all && AcctCovers(all, g, act, env);
    assert g in FindCoveringGrants(matches, act, Thawed(facts), tenant)
        <==> g in thawed && AcctCovers(thawed, g, act, env);
    ThawedCovers(all, thawed, g, act, env);
    FrozenTicketIff(all, g, act);
    hide FrozenTicket;
    hide SelectFacts, AssetOf, AcctCovers, Linked, ActorGenuine, PathOf, AccountOf, FindCoveringGrants;
    if g in all && AcctCovers(all, g, act, env) {
      CoveringIsGrant(all, g, act, env);
    }
    if g in thawed && AcctCovers(thawed, g, act, env) {
      CoveringIsGrant(thawed, g, act, env);
    }
  }

  lemma {:induction false} ThawedCovers(all: seq<Fact>, thawed: seq<Fact>, g: Fact, act: Activity, env: string)
    requires forall f: Fact :: f in thawed ==> !f.body.FreezeBody?
    ensures AcctCovers(all, g, act, env)
       <==> AcctCovers(thawed, g, act, env) && !(IsGrant(g, ChangeTicket) && AcctFreezeBlocks(all, env, g, act.time))
  {
    hide ForTuple, InTime, GrantOk, ActiveFor;
  }

  // ----- windows

  /** A recurring window matches on the clock of the activity's own offset, both ends inclusive to the
      microsecond; a window whose end is earlier in the day than its start, one across midnight, never does. */
  lemma {:induction false} WindowMatchesIff(f: Fact, w: Window, a: Activity, day: int, minute: nat, micros: nat)
    requires minute < 1440 && micros < MICROS_PER_MINUTE && f.scope.window == Some(w)
    requires a.time + a.offset == day * MICROS_PER_DAY + minute * MICROS_PER_MINUTE + micros
    ensures InTime(f, a)
       <==> w.start <= minute && (minute < w.end || (minute == w.end && micros == 0)) && InValidity(f, a.time)
    ensures w.end < w.start ==> !InTime(f, a)
  {
    TimeOfDay(day, minute * MICROS_PER_MINUTE + micros);
    hide InValidity;
  }

  lemma {:induction false} TimeOfDay(day: int, t: int)
    requires 0 <= t < MICROS_PER_DAY
    ensures (day * MICROS_PER_DAY + t) % MICROS_PER_DAY == t
  {
  }
}
