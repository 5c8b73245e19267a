/**
 What survives the stackless projection (src/soctalk/authorization/adapter.py:
 `stackless_org_state`, `stackless_facts_from_row`), judged by the evaluator.
 */
module Stackless {
  import opened Wrappers
  import opened AuthorizationModel
  import opened AuthorizationEngine
  import opened AuthorizationOrder
  import opened AuthorizationCoverage
  import opened OrgState

  /** Projecting twice is projecting once. */
  lemma {:induction false} ProjectionIsIdempotent(org: AccountState, fim: FimState)
    ensures StacklessAccount(StacklessAccount(org)) == StacklessAccount(org)
    ensures StacklessFim(StacklessFim(fim)) == StacklessFim(fim)
  {
  }

  /** What a deployment without the other systems can tell apart: two states project alike exactly when they name
      the same host, assets and accounts, list the same sightings and compromised accounts, and agree on the kinds
      of the accounts and on compromise and reliability of the assets, as clean and 100 where a row is silent. */
  lemma {:induction false} ProjectsAlikeIff(s: AccountState, t: AccountState)
    ensures StacklessAccount(s) == StacklessAccount(t)
       <==> && s.host == t.host && s.observations == t.observations && s.compromisedAccounts == t.compromisedAccounts
            && |s.accounts| == |t.accounts| && |s.assets| == |t.assets|
            && (forall i :: 0 <= i < |s.accounts| ==>
                  s.accounts[i].name == t.accounts[i].name && s.accounts[i].kind == t.accounts[i].kind)
            && (forall i :: 0 <= i < |s.assets| ==>
                  && s.assets[i].name == t.assets[i].name
                  && Else(s.assets[i].compromise, Clean) == Else(t.assets[i].compromise, Clean)
                  && Else(s.assets[i].reliability, 100) == Else(t.assets[i].reliability, 100))
  {
    var p, q := StacklessAccount(s), StacklessAccount(t);
    if p == q {
      assert |p.accounts| == |s.accounts| && |q.accounts| == |t.accounts|;
      assert forall i :: 0 <= i < |s.accounts| ==> p.accounts[i] == q.accounts[i];
      assert forall i :: 0 <= i < |s.assets| ==> p.assets[i] == q.assets[i];
    }
  }

  lemma {:induction false} PathsProjectAlikeIff(s: FimState, t: FimState)
    ensures StacklessFim(s) == StacklessFim(t)
       <==> && s.path == t.path && |s.paths| == |t.paths|
            && (forall i :: 0 <= i < |s.paths| ==>
                  && s.paths[i].path == t.paths[i].path
                  && Else(s.paths[i].compromise, Clean) == Else(t.paths[i].compromise, Clean)
                  && Else(s.paths[i].reliability, 100) == Else(t.paths[i].reliability, 100))
  {
    var p, q := StacklessFim(s), StacklessFim(t);
    if p == q {
      assert forall i :: 0 <= i < |s.paths| ==> p.paths[i] == q.paths[i];
    }
  }

  // ----- which facts there are

  ghost predicate IsObservation(org: AccountState, f: Fact) {
    exists i :: 0 <= i < |org.observations| && f == ObservationFact(i, org.observations[i])
  }

  ghost predicate IsAsset(org: AccountState, f: Fact) {
    exists i :: 0 <= i < |org.assets| && f == AssetFact(i, org.assets[i])
  }

  ghost predicate IsAccount(org: AccountState, f: Fact) {
    exists i :: 0 <= i < |org.accounts| && f == AccountRowFact(i, org.accounts[i], org.compromisedAccounts)
  }

  ghost predicate IsUnlisted(org: AccountState, f: Fact) {
    exists i, n :: n in Unlisted(org.compromisedAccounts, org.accounts) && f == CompromisedFact(i, n)
  }

  lemma {:induction false} GrantFacts(org: AccountState, f: Fact)
    ensures f in AccountGrants(org) ==> f.body.GrantBody?
    ensures f in AccountGrants(org) && f.body.grant.grantClass == RoutineObservation <==> IsObservation(org, f)
  {
  }

  lemma {:induction false} BlockFacts(org: AccountState, f: Fact)
    ensures f in AccountBlocks(org) ==> f.body.ProhibitionBody? || f.body.FreezeBody?
  {
  }

  lemma {:induction false} OrgFactsAreOrgs(orgs: seq<OrgRow>, f: Fact)
    ensures f in OrgFacts(orgs) ==> f.body.EntityBody? && f.body.entity.kind == Org && Plain(f, AccountTrack)
  {
    if orgs != [] {
      OrgFactsAreOrgs(orgs[..|orgs| - 1], f);
    }
  }

  lemma {:induction false} EntityFacts(org: AccountState, f: Fact)
    ensures f in AccountEntities(org) ==> f.body.EntityBody?
    ensures f in AccountEntities(org) && f.body.entity.kind == Asset <==> IsAsset(org, f)
    ensures f in AccountEntities(org) && f.body.entity.kind == Account ==> IsAccount(org, f) || IsUnlisted(org, f)
    ensures IsAccount(org, f) ==> f in AccountEntities(org)
  {
    var assets := MapIndexed(org.assets, AssetFact);
    var accounts := MapIndexed(org.accounts, (i, a) => AccountRowFact(i, a, org.compromisedAccounts));
    var rest := Unlisted(org.compromisedAccounts, org.accounts);
    var unlisted := MapIndexed(rest, CompromisedFact);
    assert f in AccountEntities(org) <==> f in assets || f in accounts || f in unlisted || f in OrgFacts(org.orgs);
    OrgFactsAreOrgs(org.orgs, f);
    hide AccountEntities, OrgFacts, Unlisted;
    if f in unlisted {
      var i :| 0 <= i < |rest| && unlisted[i] == f;
      assert rest[i] in rest;
    }
    if IsAsset(org, f) {
      var i :| 0 <= i < |org.assets| && f == AssetFact(i, org.assets[i]);
      assert assets[i] == f;
    }
    if IsAccount(org, f) {
      var i :| 0 <= i < |org.accounts| && f == AccountRowFact(i, org.accounts[i], org.compromisedAccounts);
      assert accounts[i] == f;
    }
  }

  /** Of this track, of no tenant, not superseded. */
  predicate Plain(f: Fact, track: Track) {
    f.track == track && f.tenant == None && f.supersededBy == None
  }

  lemma {:induction false} AccountFactsArePlain(org: AccountState, f: Fact)
    requires f in AccountFacts(org)
    ensures Plain(f, AccountTrack)
  {
    OrgFactsAreOrgs(org.orgs, f);
    hide OrgFacts;
  }

  lemma {:induction false} EvaluatesAllRows(matches: Matcher, org: AccountState, a: Activity)
    requires a.track == AccountTrack
    ensures Evaluate(matches, a, AccountFacts(org), None) == AccountComponents(AccountFacts(org), a)
  {
    var facts := AccountFacts(org);
    forall f | f in facts ensures Selected(f, AccountTrack, None) {
      AccountFactsArePlain(org, f);
    }
    var all := SelectFacts(facts, AccountTrack, None);
    assert SameFacts(all, facts);
    hide AccountFacts, SelectFacts, AccountComponents, SameFacts;
    SameFactsSpeakAlike(all, facts);
    ViewsOfAlike(all, facts, a);
    AccountComponentsAgree(all, facts, a);
  }

  // ----- coverage

  /** A sighting of this very tuple, seen often enough and no indicator of compromise. */
  predicate Routine(o: Observation, a: Activity) {
    && a.account == Some(o.account) && a.host == Some(o.host) && a.action == Some(o.action)
    && Else(o.seenCount, 0) >= ROUTINE_MIN && !Else(o.ioc, false)
  }

  lemma {:induction false} RoutineRow(i: nat, o: Observation, a: Activity)
    ensures AcctRoutine(ObservationFact(i, o), a) <==> Routine(o, a)
  {
  }

  lemma {:induction false} RoutineRows(org: AccountState, a: Activity)
    ensures (exists f :: f in AccountFacts(org) && AcctRoutine(f, a))
            <==> exists o :: o in org.observations && Routine(o, a)
  {
    var facts := AccountFacts(org);
    assert forall f :: f in facts <==> f in AccountGrants(org) || f in AccountBlocks(org) || f in AccountEntities(org);
    hide AccountFacts, AccountGrants, AccountBlocks, AccountEntities, Routine;
    if o :| o in org.observations && Routine(o, a) {
      var i :| 0 <= i < |org.observations| && org.observations[i] == o;
      RoutineRow(i, o, a);
      assert IsObservation(org, ObservationFact(i, o));
      GrantFacts(org, ObservationFact(i, o));
    }
    if f :| f in facts && AcctRoutine(f, a) {
      GrantFacts(org, f);
      BlockFacts(org, f);
      EntityFacts(org, f);
      var i :| 0 <= i < |org.observations| && f == ObservationFact(i, org.observations[i]);
      RoutineRow(i, org.observations[i], a);
    }
  }

  /** The projection leaves no grant but observations, no freeze and no prohibition. */
  lemma {:induction false} ProjectedFacts(org: AccountState, f: Fact)
    requires f in AccountFacts(StacklessAccount(org))
    ensures f.body.GrantBody? ==> f.body.grant.grantClass == RoutineObservation
    ensures !f.body.FreezeBody? && !f.body.ProhibitionBody?
    ensures f.body.EntityBody? ==> f.body.entity.ownerOrg == None && f.body.entity.privileged == None
  {
  }

  /** The resolved record is that of some fact, and there is one as soon as a fact names the entity. */
  lemma {:induction false} ResolvedSource(facts: seq<Fact>, kind: EntityKind, name: string)
    ensures var r := ResolvedEntity(facts, kind, name);
      && (r.Some? ==> exists f :: f in facts && IsRecordOf(f, r.value) && Names(f, kind, name))
      && (r.None? ==> forall f :: f in facts ==> !Names(f, kind, name))
  {
    var r := ResolvedEntity(facts, kind, name);
    if r.Some? {
      RecordsMembers(facts, r.value);
    } else {
      assert Matching(facts, kind, name) == [];
      forall f | f in facts && f.body.EntityBody? ensures Record(f.trust, f.body.entity) in Records(facts) {
        assert IsRecordOf(f, Record(f.trust, f.body.entity));
        RecordsMembers(facts, Record(f.trust, f.body.entity));
      }
    }
  }

  predicate Names(f: Fact, kind: EntityKind, name: string) {
    f.body.EntityBody? && f.body.entity.kind == kind && f.body.entity.name == name
  }

  lemma {:induction false} AccountSource(facts: seq<Fact>, name: string)
    ensures var r := AccountFact(facts, name);
      && (r.Some? ==> exists f :: f in facts && IsRecordOf(f, r.value) && NamesTyped(f, name))
      && (r.None? ==> forall f :: f in facts ==> !NamesTyped(f, name))
  {
    var r := AccountFact(facts, name);
    if r.Some? {
      RecordsMembers(facts, r.value);
    } else {
      assert TypedAccounts(facts, name) == [];
      forall f | f in facts && f.body.EntityBody? ensures Record(f.trust, f.body.entity) in Records(facts) {
        assert IsRecordOf(f, Record(f.trust, f.body.entity));
        RecordsMembers(facts, Record(f.trust, f.body.entity));
      }
    }
  }

  predicate NamesTyped(f: Fact, name: string) {
    Names(f, Account, name) && f.body.entity.accountType.Some?
  }

  lemma {:induction false} ProjectionHasNoOwners(org: AccountState, a: Activity)
    ensures var facts := AccountFacts(StacklessAccount(org));
      AccountOf(facts, a).org == "" && AssetOf(facts, a).org == "" && !AccountOf(facts, a).privileged
          && Linked(facts, a)
  {
    var facts := AccountFacts(StacklessAccount(org));
    ResolvedSource(facts, Asset, Else(a.host, ""));
    AccountSource(facts, Else(a.account, ""));
    forall f | f in facts && f.body.EntityBody? ensures f.body.entity.ownerOrg == None
        && f.body.entity.privileged == None {
      ProjectedFacts(org, f);
    }
    hide AccountFacts, StacklessAccount, ResolvedEntity, AccountFact;
  }

  /** On the account track the projection is in scope exactly through sightings of the very tuple, seen at
      least five times and not an indicator of compromise; and policy always allows. */
  lemma {:induction false} StacklessInScopeIff(matches: Matcher, org: AccountState, a: Activity)
    requires a.track == AccountTrack
    ensures var c := Evaluate(matches, a, AccountFacts(StacklessAccount(org)), None);
      c.policyAllowed && (c.inScope <==> exists o :: o in org.observations && Routine(o, a))
  {
    var s := StacklessAccount(org);
    var facts := AccountFacts(s);
    var env := AssetOf(facts, a).env;
    assert s.observations == org.observations;
    EvaluatesAllRows(matches, s, a);
    RoutineRows(s, a);
    ProjectionHasNoOwners(org, a);
    forall f | f in facts ensures (AcctCovers(facts, f, a, env) <==> AcctRoutine(f, a)) && !f.body.ProhibitionBody? {
      ProjectedFacts(org, f);
      OnlyRoutineCovers(facts, f, a, env);
    }
    assert forall f :: AcctStopped(facts, f, a) ==> f.body.ProhibitionBody?;
    hide AccountFacts, StacklessAccount, AcctCovers, AcctRoutine, AcctStopped, AcctSanctions, ActorGenuine, Linked,
         AssetOf, Routine;
  }

  lemma {:induction false} OnlyRoutineCovers(facts: seq<Fact>, f: Fact, a: Activity, env: string)
    requires f.body.GrantBody? ==> f.body.grant.grantClass == RoutineObservation
    ensures AcctCovers(facts, f, a, env) <==> AcctRoutine(f, a)
  {
  }

  /** What is in scope with sightings alone stays in scope in the full state, if the organisations are
      linked there: freezes, policies and other records do not gate sightings. */
  lemma {:induction false} InScopeCarriesOver(matches: Matcher, org: AccountState, a: Activity)
    requires a.track == AccountTrack
    ensures Evaluate(matches, a, AccountFacts(StacklessAccount(org)), None).inScope
            ==> (Evaluate(matches, a, AccountFacts(org), None).inScope <==> Linked(AccountFacts(org), a))
  {
    StacklessInScopeIff(matches, org, a);
    RoutineRows(org, a);
    EvaluatesAllRows(matches, org, a);
    var facts := AccountFacts(org);
    hide AccountFacts, StacklessAccount, AcctTicketCovers, AcctBaselineCovers, AcctRoutine, AcctStopped,
         AcctSanctions, ActorGenuine, Linked, AssetOf, Routine, Evaluate;
    assert forall f :: AcctRoutine(f, a) ==> AcctCovers(facts, f, a, AssetOf(facts, a).env);
    hide AcctCovers;
  }

  // ----- the actor

  ghost predicate UniqueNames(org: AccountState) {
    && (forall i, j :: 0 <= i < j < |org.assets| ==> org.assets[i].name != org.assets[j].name)
    && (forall i, j :: 0 <= i < j < |org.accounts| ==> org.accounts[i].name != org.accounts[j].name)
  }

  lemma {:induction false} FlaggedIsListed(org: AccountState, f: Fact, name: string)
    requires f in AccountFacts(org) && FlagsCompromise(f, name)
    ensures name in org.compromisedAccounts
  {
    assert f in AccountGrants(org) || f in AccountBlocks(org) || f in AccountEntities(org);
    GrantFacts(org, f);
    BlockFacts(org, f);
    EntityFacts(org, f);
    hide AccountFacts, AccountGrants, AccountBlocks, AccountEntities;
  }

  lemma {:induction false} ListedRowFlags(org: AccountState, i: nat)
    requires i < |org.accounts| && org.accounts[i].name in org.compromisedAccounts
    ensures AccountCompromised(AccountFacts(org), org.accounts[i].name)
  {
    var f := AccountRowFact(i, org.accounts[i], org.compromisedAccounts);
    assert IsAccount(org, f);
    EntityFacts(org, f);
    assert f in AccountFacts(org);
    hide AccountGrants, AccountBlocks, AccountEntities;
  }

  lemma {:induction false} FlaggedIffListed(org: AccountState, name: string)
    ensures AccountCompromised(AccountFacts(org), name) <==> name in org.compromisedAccounts
  {
    hide AccountFacts, FlagsCompromise;
    forall f | f in AccountFacts(org) && FlagsCompromise(f, name) ensures name in org.compromisedAccounts {
      FlaggedIsListed(org, f, name);
    }
    if name in org.compromisedAccounts {
      if i :| 0 <= i < |org.accounts| && org.accounts[i].name == name {
        ListedRowFlags(org, i);
      } else {
        UnlistedFact(org, name);
      }
    }
  }

  lemma {:induction false} UnlistedFact(org: AccountState, name: string)
    requires name in org.compromisedAccounts && !exists a :: a in org.accounts && a.name == name
    ensures exists f :: f in AccountFacts(org) && FlagsCompromise(f, name)
  {
    var rest := Unlisted(org.compromisedAccounts, org.accounts);
    assert name in rest;
    var i :| 0 <= i < |rest| && rest[i] == name;
    var unlisted := MapIndexed(rest, CompromisedFact);
    assert unlisted[i] == CompromisedFact(i, name);
    assert unlisted[i] in AccountFacts(org);
    assert FlagsCompromise(unlisted[i], name);
  }

  lemma {:induction false} AssetFactsIff(org: AccountState, name: string)
    ensures forall f ::
      f in AccountFacts(org) && Names(f, Asset, name) <==> IsAsset(org, f) && f.body.entity.name == name
    ensures forall f ::
      f in AccountFacts(org) && NamesTyped(f, name) <==> IsAccount(org, f) && NamesTyped(f, name)
  {
    var facts := AccountFacts(org);
    assert forall f :: f in facts <==> f in AccountGrants(org) || f in AccountBlocks(org) || f in AccountEntities(org);
    hide AccountFacts;
    forall f ensures (f in facts && Names(f, Asset, name) <==> IsAsset(org, f) && f.body.entity.name == name)
                 && (f in facts && NamesTyped(f, name) <==> IsAccount(org, f) && NamesTyped(f, name))
    {
      GrantFacts(org, f);
      BlockFacts(org, f);
      EntityFacts(org, f);
      hide AccountGrants, AccountBlocks, AccountEntities;
    }
  }

  lemma {:induction false} AssetRowSpeaks(org: AccountState, i: nat)
    requires UniqueNames(org) && i < |org.assets|
    ensures AssetAttributes(ResolvedEntity(AccountFacts(org), Asset, org.assets[i].name)).compromise
         == Else(org.assets[i].compromise, Clean)
  {
    var facts, name := AccountFacts(org), org.assets[i].name;
    var r := ResolvedEntity(facts, Asset, name);
    hide AccountFacts, ResolvedEntity;
    ResolvedSource(facts, Asset, name);
    AssetFactsIff(org, name);
    assert IsAsset(org, AssetFact(i, org.assets[i]));
    var f :| f in facts && IsRecordOf(f, r.value) && Names(f, Asset, name);
    NamedAsset(org, f, i);
  }

  /** With unique names, an asset fact of that name is that of the row. */
  lemma {:induction false} NamedAsset(org: AccountState, f: Fact, i: nat)
    requires UniqueNames(org) && i < |org.assets| && IsAsset(org, f) && f.body.entity.name == org.assets[i].name
    ensures f.body.entity.compromise == org.assets[i].compromise
  {
    var j :| 0 <= j < |org.assets| && f == AssetFact(j, org.assets[j]);
    assert org.assets[j].name == org.assets[i].name;
    assert j == i;
  }

  lemma {:induction false} NoAssetRow(org: AccountState, name: string)
    requires forall i :: 0 <= i < |org.assets| ==> org.assets[i].name != name
    ensures ResolvedEntity(AccountFacts(org), Asset, name) == None
  {
    ResolvedSource(AccountFacts(org), Asset, name);
    AssetFactsIff(org, name);
    hide AccountFacts, ResolvedEntity;
  }

  lemma {:induction false} AccountRowSpeaks(org: AccountState, i: nat)
    requires UniqueNames(org) && i < |org.accounts|
    ensures AccountAttributes(AccountFact(AccountFacts(org), org.accounts[i].name)).kind == org.accounts[i].kind
  {
    var facts, name := AccountFacts(org), org.accounts[i].name;
    var r := AccountFact(facts, name);
    hide AccountFacts, AccountFact;
    AccountSource(facts, name);
    AssetFactsIff(org, name);
    if r.Some? {
      var f :| f in facts && IsRecordOf(f, r.value) && NamesTyped(f, name);
      NamedRow(org, f, i);
    } else {
      var f := AccountRowFact(i, org.accounts[i], org.compromisedAccounts);
      assert IsAccount(org, f) && Names(f, Account, name);
    }
  }

  /** With unique names, an account fact of that name is that of the row. */
  lemma {:induction false} NamedRow(org: AccountState, f: Fact, i: nat)
    requires UniqueNames(org) && i < |org.accounts| && IsAccount(org, f) && NamesTyped(f, org.accounts[i].name)
    ensures f.body.entity.accountType == org.accounts[i].kind
  {
    var j :| 0 <= j < |org.accounts| && f == AccountRowFact(j, org.accounts[j], org.compromisedAccounts);
    assert org.accounts[j].name == org.accounts[i].name;
    assert j == i;
  }

  lemma {:induction false} NoAccountRow(org: AccountState, name: string)
    requires forall i :: 0 <= i < |org.accounts| ==> org.accounts[i].name != name
    ensures AccountFact(AccountFacts(org), name) == None
  {
    AccountSource(AccountFacts(org), name);
    AssetFactsIff(org, name);
    hide AccountFacts, AccountFact;
  }

  lemma {:induction false} ProjectionKeepsRows(org: AccountState)
    ensures var s := StacklessAccount(org);
      && s.compromisedAccounts == org.compromisedAccounts && |s.assets| == |org.assets|
          && |s.accounts| == |org.accounts|
      && (forall i :: 0 <= i < |org.assets| ==>
            s.assets[i].name == org.assets[i].name && Else(s.assets[i].compromise, Clean)
                == Else(org.assets[i].compromise, Clean))
      && (forall i :: 0 <= i < |org.accounts| ==>
            s.accounts[i].name == org.accounts[i].name && s.accounts[i].kind == org.accounts[i].kind)
      && (UniqueNames(org) ==> UniqueNames(s))
  {
  }

  lemma {:induction false} ProjectionKeepsAsset(org: AccountState, name: string)
    requires UniqueNames(org)
    ensures AssetAttributes(ResolvedEntity(AccountFacts(org), Asset, name)).compromise
         == AssetAttributes(ResolvedEntity(AccountFacts(StacklessAccount(org)), Asset, name)).compromise
  {
    var s := StacklessAccount(org);
    ProjectionKeepsRows(org);
    hide AccountFacts, StacklessAccount, ResolvedEntity, UniqueNames;
    if i :| 0 <= i < |org.assets| && org.assets[i].name == name {
      AssetRowSpeaks(org, i);
      AssetRowSpeaks(s, i);
    } else {
      NoAssetRow(org, name);
      NoAssetRow(s, name);
    }
  }

  lemma {:induction false} ProjectionKeepsKind(org: AccountState, name: string)
    requires UniqueNames(org)
    ensures AccountAttributes(AccountFact(AccountFacts(org), name)).kind
         == AccountAttributes(AccountFact(AccountFacts(StacklessAccount(org)), name)).kind
  {
    var s := StacklessAccount(org);
    ProjectionKeepsRows(org);
    hide AccountFacts, StacklessAccount, AccountFact, UniqueNames;
    if i :| 0 <= i < |org.accounts| && org.accounts[i].name == name {
      AccountRowSpeaks(org, i);
      AccountRowSpeaks(s, i);
    } else {
      NoAccountRow(org, name);
      NoAccountRow(s, name);
    }
  }

  lemma {:induction false} ProjectionKeepsActors(org: AccountState, a: Activity)
    requires UniqueNames(org)
    ensures var full, part := AccountFacts(org), AccountFacts(StacklessAccount(org));
      && AssetOf(full, a).compromise == AssetOf(part, a).compromise
      && AccountOf(full, a).kind == AccountOf(part, a).kind
      && AccountCompromised(full, Else(a.account, "")) == AccountCompromised(part, Else(a.account, ""))
  {
    FlaggedIffListed(org, Else(a.account, ""));
    FlaggedIffListed(StacklessAccount(org), Else(a.account, ""));
    ProjectionKeepsAsset(org, Else(a.host, ""));
    ProjectionKeepsKind(org, Else(a.account, ""));
    ProjectionKeepsRows(org);
    hide AccountFacts, StacklessAccount, UniqueNames, ResolvedEntity, AccountFact, AccountCompromised;
  }

  /** With unique entity names, the actor is genuine in the full state exactly when it is genuine in the
      projection and is not a privileged person off call without break-glass. */
  lemma {:induction false} GenuineIff(matches: Matcher, org: AccountState, a: Activity)
    requires a.track == AccountTrack && UniqueNames(org)
    ensures var account := AccountOf(AccountFacts(org), a);
      Evaluate(matches, a, AccountFacts(org), None).actorGenuine
      <==> Evaluate(matches, a, AccountFacts(StacklessAccount(org)), None).actorGenuine
           && !(account.kind == Some(Person) && account.privileged && !account.onCall && !account.breakGlass)
  {
    ProjectionKeepsActors(org, a);
    ProjectionHasNoOwners(org, a);
    EvaluatesAllRows(matches, org, a);
    EvaluatesAllRows(matches, StacklessAccount(org), a);
    hide AccountFacts, StacklessAccount, AssetOf, AccountOf, AccountCompromised, IsCompromised, AcctCovers,
         AcctStopped, AcctSanctions, Linked, Evaluate;
  }

  // ----- the FIM track

  /** On the FIM track nothing is ever in scope after the projection, policy allows, and the class is
      `absent`, whatever the tenant. */
  lemma {:induction false} StacklessFimIsAbsent(matches: Matcher, org: FimState, a: Activity, tenant: Option<string>)
    requires a.track == FimTrack
    ensures var facts := FimFacts(StacklessFim(org));
      var c := Evaluate(matches, a, facts, tenant);
      && !c.inScope && !c.sanctionedOrRoutine && c.policyAllowed
      && DeriveClass(matches, Some(Context(tenant, a, facts))).0 == Absent
  {
    var facts := FimFacts(StacklessFim(org));
    forall f | f in facts ensures f.body.EntityBody? {
      ProjectedPaths(org, f);
    }
    NoGrantNotInScope(matches, a, facts, tenant);
    NothingStops(matches, SelectFacts(facts, a.track, tenant), a);
    ClassIff(matches, Context(tenant, a, facts));
    hide FimFacts, StacklessFim, SelectFacts, FimComponents, DeriveClass;
  }

  lemma {:induction false} ProjectedPaths(org: FimState, f: Fact)
    requires f in FimFacts(StacklessFim(org))
    ensures f.body.EntityBody?
  {
  }

  ghost predicate IsPath(org: FimState, f: Fact) {
    exists i :: 0 <= i < |org.paths| && f == PathFact(i, org.paths[i])
  }

  lemma {:induction false} PathFactsIff(org: FimState, name: string)
    ensures forall f :: f in FimFacts(org) ==> Plain(f, FimTrack)
    ensures forall f ::
      f in FimFacts(org) && Names(f, WatchedPath, name) <==> IsPath(org, f) && f.body.entity.name == name
  {
  }

  lemma {:induction false} PathRowSpeaks(org: FimState, i: nat)
    requires UniquePaths(org) && i < |org.paths|
    ensures PathAttributes(ResolvedEntity(FimFacts(org), WatchedPath, org.paths[i].path)).compromise
            == Else(org.paths[i].compromise, Clean)
  {
    var facts, name := FimFacts(org), org.paths[i].path;
    ResolvedSource(facts, WatchedPath, name);
    PathFactsIff(org, name);
    var r := ResolvedEntity(facts, WatchedPath, name);
    hide FimFacts, ResolvedEntity;
    assert IsPath(org, PathFact(i, org.paths[i]));
    var f :| f in facts && IsRecordOf(f, r.value) && Names(f, WatchedPath, name);
    var j :| 0 <= j < |org.paths| && f == PathFact(j, org.paths[j]);
    assert org.paths[j].path == name;
    assert j == i;
  }

  lemma {:induction false} NoPathRow(org: FimState, name: string)
    requires forall i :: 0 <= i < |org.paths| ==> org.paths[i].path != name
    ensures ResolvedEntity(FimFacts(org), WatchedPath, name) == None
  {
    ResolvedSource(FimFacts(org), WatchedPath, name);
    PathFactsIff(org, name);
    hide FimFacts, ResolvedEntity;
  }

  lemma {:induction false} ReadsAllPaths(matches: Matcher, org: FimState, a: Activity)
    requires a.track == FimTrack
    ensures Evaluate(matches, a, FimFacts(org), None).actorGenuine
            == !IsCompromised(PathOf(FimFacts(org), a).compromise)
  {
    var facts := FimFacts(org);
    var all := SelectFacts(facts, FimTrack, None);
    PathFactsIff(org, "");
    assert SameEntities(all, facts);
    ViewsAgree(all, facts, a);
    hide SelectFacts, FimFacts, PathOf, IsCompromised, FimSanctions, FimCovers, FimBlocked, FimStopped;
  }

  ghost predicate UniquePaths(org: FimState) {
    forall i, j :: 0 <= i < j < |org.paths| ==> org.paths[i].path != org.paths[j].path
  }

  lemma {:induction false} ProjectionKeepsPathRows(org: FimState)
    ensures var s := StacklessFim(org);
      && |s.paths| == |org.paths| && (UniquePaths(org) ==> UniquePaths(s))
      && forall i :: 0 <= i < |org.paths| ==>
           s.paths[i].path == org.paths[i].path && Else(s.paths[i].compromise, Clean)
               == Else(org.paths[i].compromise, Clean)
  {
  }

  lemma {:induction false} ProjectionKeepsPath(org: FimState, name: string)
    requires UniquePaths(org)
    ensures PathAttributes(ResolvedEntity(FimFacts(org), WatchedPath, name)).compromise
         == PathAttributes(ResolvedEntity(FimFacts(StacklessFim(org)), WatchedPath, name)).compromise
  {
    var s := StacklessFim(org);
    ProjectionKeepsPathRows(org);
    hide FimFacts, StacklessFim, ResolvedEntity, UniquePaths;
    if i :| 0 <= i < |org.paths| && org.paths[i].path == name {
      PathRowSpeaks(org, i);
      PathRowSpeaks(s, i);
    } else {
      NoPathRow(org, name);
      NoPathRow(s, name);
    }
  }

  /** With unique paths, the FIM actor is genuine in the full state exactly when it is in the projection. */
  lemma {:induction false} FimGenuineIff(matches: Matcher, org: FimState, a: Activity)
    requires a.track == FimTrack && UniquePaths(org)
    ensures Evaluate(matches, a, FimFacts(org), None).actorGenuine
         == Evaluate(matches, a, FimFacts(StacklessFim(org)), None).actorGenuine
  {
    ReadsAllPaths(matches, org, a);
    ReadsAllPaths(matches, StacklessFim(org), a);
    ProjectionKeepsPath(org, Else(a.path, ""));
    hide FimFacts, StacklessFim, Evaluate, ResolvedEntity, IsCompromised;
  }
}
