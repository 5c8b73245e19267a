/**
 The verdict of the evaluator said about the organisation-state rows themselves
 (src/soctalk/authorization/adapter.py: `facts_from_account_org_state`,
 `facts_from_fim_org_state`; src/soctalk/authorization/engine.py: the components).

 The predicates below read rows and the activity and nothing else; the two verdict lemmas say
 that turning rows into facts and evaluating those comes to the same.
 */
module RowVerdicts {
  import opened Wrappers
  import opened AuthorizationModel
  import opened AuthorizationEngine
  import opened AuthorizationOrder
  import opened AuthorizationCoverage
  import AuthorizationBlocks
  import opened OrgState
  import opened Stackless

  // ----- what rows say, on the account track

  /** The time of day, on the activity's own clock, lies in the window, both ends included; a row without one of
      the ends has no window. */
  predicate WithinHours(start: Option<nat>, end: Option<nat>, a: Activity) {
    start.Some? && end.Some? ==>
      start.value * 60_000_000 <= (a.time + a.offset) % 86_400_000_000 <= end.value * 60_000_000
  }

  predicate Tuple(account: string, host: string, action: string, a: Activity) {
    a.account == Some(account) && a.host == Some(host) && a.action == Some(action)
  }

  /** Approved, which is the default, and not turned down by a board it needs. */
  predicate Stands(status: Option<GrantStatus>, cabRequired: Option<bool>, cabApproved: Option<bool>) {
    (status.None? || status.value == Approved) && !(cabRequired == Some(true) && cabApproved == Some(false))
  }

  predicate FreezeStops(fr: FreezeRow, id: string, env: string, t: int) {
    env in fr.envs && fr.start <= t <= fr.end && !(fr.allowedIds.Some? && id in fr.allowedIds.value)
  }

  predicate TicketOpen(org: AccountState, t: Ticket, a: Activity, env: string) {
    && Tuple(t.account, t.host, t.action, a) && Stands(t.status, t.cabRequired, t.cabApproved)
    && WithinHours(t.windowStart, t.windowEnd, a)
    && (t.effectiveFrom.Some? ==> t.effectiveFrom.value <= a.time) && a.time <= t.validUntil
    && (t.freezeException == Some(true) || forall fr :: fr in org.freezes ==> !FreezeStops(fr, t.id, env, a.time))
  }

  predicate BaselineOpen(b: Baseline, a: Activity) {
    Tuple(b.account, b.host, b.action, a) && WithinHours(b.windowStart, b.windowEnd, a)
  }

  predicate Sighted(o: Observation, a: Activity) {
    && Tuple(o.account, o.host, o.action, a)
    && o.seenCount.Some? && o.seenCount.value >= 5 && o.ioc != Some(true)
  }

  /** Some row covers the activity. */
  predicate RowsCover(org: AccountState, a: Activity, env: string) {
    || (exists t :: t in org.tickets && TicketOpen(org, t, a, env))
    || (exists b :: b in org.baselines && BaselineOpen(b, a))
    || (exists o :: o in org.observations && Sighted(o, a))
  }

  /** Some row sanctions it: a standing ticket or a baseline for the account and the action, whatever the host
      and the hour, or a sighting. */
  predicate RowsSanction(org: AccountState, a: Activity) {
    || (exists t :: t in org.tickets && Stands(t.status, t.cabRequired, t.cabApproved)
                    && a.account == Some(t.account) && a.action == Some(t.action))
    || (exists b :: b in org.baselines && a.account == Some(b.account) && a.action == Some(b.action))
    || (exists o :: o in org.observations && Sighted(o, a))
  }

  /** `h` is the asset row of that name, if there is one. */
  ghost predicate IsAssetRow(org: AccountState, name: string, h: Option<AssetRow>) {
    && (h.Some? ==> h.value in org.assets && h.value.name == name)
    && (h.None? ==> forall x :: x in org.assets ==> x.name != name)
  }

  ghost predicate IsAccountRow(org: AccountState, name: string, u: Option<AccountRow>) {
    && (u.Some? ==> u.value in org.accounts && u.value.name == name)
    && (u.None? ==> forall x :: x in org.accounts ==> x.name != name)
  }

  function Environment(h: Option<AssetRow>): string {
    if h.Some? && h.value.environment.Some? then h.value.environment.value else "prod"
  }

  function Criticality(h: Option<AssetRow>): string {
    if h.Some? && h.value.criticality.Some? then h.value.criticality.value else "medium"
  }

  function Classification(h: Option<AssetRow>): string {
    if h.Some? && h.value.dataClassification.Some? then h.value.dataClassification.value else "none"
  }

  function AssetOwner(h: Option<AssetRow>): string {
    if h.Some? && h.value.ownerOrg.Some? then h.value.ownerOrg.value else ""
  }

  /** An account row speaks only if it says what kind of account it is. */
  predicate Speaks(u: Option<AccountRow>) {
    u.Some? && u.value.kind.Some?
  }

  function AccountOwner(u: Option<AccountRow>): string {
    if Speaks(u) && u.value.ownerOrg.Some? then u.value.ownerOrg.value else ""
  }

  predicate HasBreakGlass(u: Option<AccountRow>) {
    Speaks(u) && u.value.breakGlass == Some(true)
  }

  /** The organisations are the same, or the row of either lists the other. */
  predicate RowsLink(org: AccountState, x: string, y: string) {
    x == y || exists o :: o in org.orgs && ((o.name == x && y in o.linkedOrgs) || (o.name == y && x in o.linkedOrgs))
  }

  predicate RowCompromised(c: Option<Compromise>) {
    c == Some(Compromised) || c == Some(Contained)
  }

  /** Nothing speaks against the actor: neither the account nor the asset is compromised, no service account acts
      interactively, no privileged person off call acts without break-glass. */
  predicate RowsTrustActor(org: AccountState, a: Activity, h: Option<AssetRow>, u: Option<AccountRow>) {
    && Else(a.account, "") !in org.compromisedAccounts
    && !(h.Some? && RowCompromised(h.value.compromise))
    && !(Speaks(u) && u.value.kind == Some(Service) && a.interactive)
    && !(&& Speaks(u) && u.value.kind == Some(Person) && u.value.privileged == Some(true)
         && u.value.onCall == Some(false) && u.value.breakGlass != Some(true))
  }

  predicate PolicyApplies(p: Policy, a: Activity, h: Option<AssetRow>, u: Option<AccountRow>) {
    && a.action == Some(p.forbidAction)
    && (p.priority.None? || p.priority.value == High) && p.waiverPresent != Some(true)
    && (p.forbidAccountType.Some? ==> u.Some? && u.value.kind == p.forbidAccountType)
    && (p.envs.Some? ==> Environment(h) in p.envs.value)
    && (p.criticalities.Some? ==> Criticality(h) in p.criticalities.value)
    && (p.dataClasses.Some? ==> Classification(h) in p.dataClasses.value)
  }

  /** Every policy that applies provides for break-glass, and the account has it and an emergency ticket is
      open. */
  predicate RowsAllow(org: AccountState, a: Activity, h: Option<AssetRow>, u: Option<AccountRow>) {
    forall p :: p in org.policies && PolicyApplies(p, a, h, u) ==>
      && p.breakGlassException == Some(true) && HasBreakGlass(u)
      && exists t :: t in org.tickets && t.emergency == Some(true) && TicketOpen(org, t, a, Environment(h))
  }

  // ----- the facts of the rows

  ghost predicate FactOfTicket(org: AccountState, f: Fact) {
    exists t :: t in org.tickets && f == TicketFact(t)
  }

  ghost predicate FactOfBaseline(org: AccountState, f: Fact) {
    exists b :: b in org.baselines && f == BaselineFact(b)
  }

  ghost predicate FactOfPolicy(org: AccountState, f: Fact) {
    exists p :: p in org.policies && f == PolicyFact(p)
  }

  ghost predicate FactOfFreeze(org: AccountState, f: Fact) {
    exists i :: 0 <= i < |org.freezes| && f == FreezeFact(i, org.freezes[i])
  }

  lemma {:induction false} InMap<S, T>(rows: seq<S>, make: S -> T, x: T)
    ensures x in Map(rows, make) <==> exists r :: r in rows && x == make(r)
  {
    var facts := Map(rows, make);
    if r :| r in rows && x == make(r) {
      var i :| 0 <= i < |rows| && rows[i] == r;
      assert facts[i] == x;
    }
    if x in facts {
      var i :| 0 <= i < |facts| && facts[i] == x;
      assert rows[i] in rows;
    }
  }

  /** Every fact is that of a row, and every row has its fact. */
  lemma {:induction false} RuleFacts(org: AccountState, f: Fact)
    ensures f in AccountFacts(org) && f.body.GrantBody?
       <==> FactOfTicket(org, f) || FactOfBaseline(org, f) || IsObservation(org, f)
    ensures f in AccountFacts(org) && f.body.ProhibitionBody? <==> FactOfPolicy(org, f)
    ensures f in AccountFacts(org) && f.body.FreezeBody? <==> FactOfFreeze(org, f)
  {
    InMap(org.tickets, TicketFact, f);
    InMap(org.baselines, BaselineFact, f);
    InMap(org.policies, PolicyFact, f);
    var observed, freezes := MapIndexed(org.observations, ObservationFact), MapIndexed(org.freezes, FreezeFact);
    assert f in observed <==> IsObservation(org, f);
    assert f in freezes <==> FactOfFreeze(org, f);
    assert f in AccountFacts(org)
      <==> f in AccountGrants(org) || f in AccountBlocks(org) || f in AccountEntities(org);
    EntityFacts(org, f);
    hide AccountFacts, AccountEntities;
  }

  // ----- one grant row, one grant

  lemma {:induction false} HoursOf(start: Option<nat>, end: Option<nat>, a: Activity)
    ensures InWindow(WindowOf(start, end), a.time + a.offset) <==> WithinHours(start, end, a)
  {
  }

  lemma {:induction false} TicketRow(org: AccountState, t: Ticket, a: Activity, env: string)
    ensures AcctTicketCovers(AccountFacts(org), TicketFact(t), a, env) <==> TicketOpen(org, t, a, env)
    ensures AcctSanctions(TicketFact(t), a)
       <==> Stands(t.status, t.cabRequired, t.cabApproved) && a.account == Some(t.account) && a.action == Some(t.action)
    ensures !AcctBaselineCovers(TicketFact(t), a) && !AcctRoutine(TicketFact(t), a)
  {
    HoursOf(t.windowStart, t.windowEnd, a);
    FreezesOfRows(org, TicketFact(t), env, a.time);
    hide AccountFacts, AcctFreezeBlocks, FreezeStops, WithinHours, WindowOf, InWindow;
  }

  lemma {:induction false} FreezesOfRows(org: AccountState, f: Fact, env: string, t: int)
    requires f.body.GrantBody?
    ensures AcctFreezeBlocks(AccountFacts(org), env, f, t)
       <==> !f.body.grant.freezeException && exists fr :: fr in org.freezes && FreezeStops(fr, f.id, env, t)
  {
    var facts := AccountFacts(org);
    hide AccountFacts;
    forall i | 0 <= i < |org.freezes|
      ensures FreezeHits(FreezeFact(i, org.freezes[i]), env, f.id, t) <==> FreezeStops(org.freezes[i], f.id, env, t)
    {
    }
    hide FreezeFact, FreezeStops;
    if fr :| fr in facts && FreezeHits(fr, env, f.id, t) {
      RuleFacts(org, fr);
      hide FreezeHits;
    }
    if fr :| fr in org.freezes && FreezeStops(fr, f.id, env, t) {
      var i :| 0 <= i < |org.freezes| && org.freezes[i] == fr;
      assert FactOfFreeze(org, FreezeFact(i, org.freezes[i]));
      RuleFacts(org, FreezeFact(i, org.freezes[i]));
      hide FreezeHits;
    }
  }

  lemma {:induction false} BaselineRow(facts: seq<Fact>, b: Baseline, a: Activity, env: string)
    ensures AcctCovers(facts, BaselineFact(b), a, env) <==> BaselineOpen(b, a)
    ensures AcctSanctions(BaselineFact(b), a) <==> a.account == Some(b.account) && a.action == Some(b.action)
  {
    HoursOf(b.windowStart, b.windowEnd, a);
    hide WithinHours, WindowOf, InWindow;
  }

  lemma {:induction false} SightedRow(facts: seq<Fact>, i: nat, o: Observation, a: Activity, env: string)
    ensures AcctCovers(facts, ObservationFact(i, o), a, env) <==> Sighted(o, a)
    ensures AcctSanctions(ObservationFact(i, o), a) <==> Sighted(o, a)
  {
  }

  lemma {:induction false} CoverOfRows(org: AccountState, a: Activity, env: string)
    ensures (exists f :: f in AccountFacts(org) && AcctCovers(AccountFacts(org), f, a, env)) <==> RowsCover(org, a, env)
  {
    var facts := AccountFacts(org);
    hide AccountFacts, TicketFact, BaselineFact, ObservationFact, TicketOpen, BaselineOpen, Sighted, AcctTicketCovers,
         AcctBaselineCovers, AcctRoutine;
    forall t ensures AcctCovers(facts, TicketFact(t), a, env) <==> TicketOpen(org, t, a, env) {
      TicketRow(org, t, a, env);
    }
    hide AcctCovers;
    forall b ensures AcctCovers(facts, BaselineFact(b), a, env) <==> BaselineOpen(b, a) {
      BaselineRow(facts, b, a, env);
    }
    forall i: nat, o ensures AcctCovers(facts, ObservationFact(i, o), a, env) <==> Sighted(o, a) {
      SightedRow(facts, i, o, a, env);
    }
    if f :| f in facts && AcctCovers(facts, f, a, env) {
      CoveringIsGrant(facts, f, a, env);
      RuleFacts(org, f);
    }
    if t :| t in org.tickets && TicketOpen(org, t, a, env) {
      assert FactOfTicket(org, TicketFact(t));
      RuleFacts(org, TicketFact(t));
    }
    if b :| b in org.baselines && BaselineOpen(b, a) {
      assert FactOfBaseline(org, BaselineFact(b));
      RuleFacts(org, BaselineFact(b));
    }
    if o :| o in org.observations && Sighted(o, a) {
      var i :| 0 <= i < |org.observations| && org.observations[i] == o;
      assert IsObservation(org, ObservationFact(i, o));
      RuleFacts(org, ObservationFact(i, o));
    }
  }

  lemma {:induction false} SanctionOfRows(org: AccountState, a: Activity)
    ensures (exists f :: f in AccountFacts(org) && AcctSanctions(f, a)) <==> RowsSanction(org, a)
  {
    var facts := AccountFacts(org);
    forall t ensures AcctSanctions(TicketFact(t), a)
      <==> Stands(t.status, t.cabRequired, t.cabApproved) && a.account == Some(t.account) && a.action == Some(t.action)
    {
      TicketRow(org, t, a, "");
    }
    forall b ensures AcctSanctions(BaselineFact(b), a) <==> a.account == Some(b.account) && a.action == Some(b.action) {
      BaselineRow(facts, b, a, "");
    }
    forall i: nat, o ensures AcctSanctions(ObservationFact(i, o), a) <==> Sighted(o, a) {
      SightedRow(facts, i, o, a, "");
    }
    OnlyRulesCount(facts, a, "", (p, q) => true);
    hide AccountFacts, TicketFact, BaselineFact, ObservationFact, AcctSanctions, Stands, Sighted, AcctTicketCovers,
         AcctCovers;
    if f :| f in facts && AcctSanctions(f, a) {
      RuleFacts(org, f);
    }
    forall t | t in org.tickets && AcctSanctions(TicketFact(t), a) ensures TicketFact(t) in facts {
      assert FactOfTicket(org, TicketFact(t));
      RuleFacts(org, TicketFact(t));
    }
    forall b | b in org.baselines && AcctSanctions(BaselineFact(b), a) ensures BaselineFact(b) in facts {
      assert FactOfBaseline(org, BaselineFact(b));
      RuleFacts(org, BaselineFact(b));
    }
    if o :| o in org.observations && Sighted(o, a) {
      var i :| 0 <= i < |org.observations| && org.observations[i] == o;
      assert IsObservation(org, ObservationFact(i, o));
      RuleFacts(org, ObservationFact(i, o));
    }
  }

  // ----- the records of the entities

  ghost predicate UniqueRows(org: AccountState) {
    && UniqueNames(org)
    && forall i, j :: 0 <= i < j < |org.orgs| ==> org.orgs[i].name != org.orgs[j].name
  }

  /** The view of the asset is that of its row. */
  lemma {:induction false} AssetOfRow(org: AccountState, name: string, h: Option<AssetRow>)
    requires UniqueNames(org) && IsAssetRow(org, name, h)
    ensures AssetAttributes(ResolvedEntity(AccountFacts(org), Asset, name))
         == AssetView(Environment(h), Criticality(h), Classification(h), AssetOwner(h),
                      if h.Some? then Else(h.value.compromise, Clean) else Clean)
  {
    var facts := AccountFacts(org);
    if h.None? {
      NoAssetRow(org, name);
    } else {
      ResolvedSource(facts, Asset, name);
      AssetFactsIff(org, name);
      hide AccountFacts, ResolvedEntity;
      var i :| 0 <= i < |org.assets| && org.assets[i] == h.value;
      assert IsAsset(org, AssetFact(i, h.value));
      var r := ResolvedEntity(facts, Asset, name).value;
      var f :| f in facts && IsRecordOf(f, r) && Names(f, Asset, name);
      var j :| 0 <= j < |org.assets| && f == AssetFact(j, org.assets[j]);
      assert i == j;
      AssetViewOfRow(i, h.value, r);
      hide IsAsset, UniqueNames, Names, AssetFact, AssetAttributes, IsRecordOf;
    }
  }

  lemma {:induction false} AssetViewOfRow(i: nat, row: AssetRow, r: Record)
    requires IsRecordOf(AssetFact(i, row), r)
    ensures AssetAttributes(Some(r))
         == AssetView(Environment(Some(row)), Criticality(Some(row)), Classification(Some(row)), AssetOwner(Some(row)),
                      Else(row.compromise, Clean))
  {
  }

  lemma {:induction false} AccountOfRow(org: AccountState, name: string, u: Option<AccountRow>)
    requires UniqueNames(org) && IsAccountRow(org, name, u)
    ensures AccountAttributes(AccountFact(AccountFacts(org), name))
         == AccountView(if u.Some? then u.value.kind else None, AccountOwner(u),
                        Speaks(u) && u.value.privileged == Some(true), !(Speaks(u) && u.value.onCall == Some(false)),
                        HasBreakGlass(u))
  {
    var facts := AccountFacts(org);
    if u.None? {
      NoAccountRow(org, name);
    } else {
      AccountSource(facts, name);
      AssetFactsIff(org, name);
      hide AccountFacts, AccountFact;
      var i :| 0 <= i < |org.accounts| && org.accounts[i] == u.value;
      var own := AccountRowFact(i, u.value, org.compromisedAccounts);
      assert IsAccount(org, own);
      forall f | f in facts && NamesTyped(f, name) ensures f == own {
        OnlyAccount(org, i, f);
      }
      assert NamesTyped(own, name) <==> Speaks(u);
      ViewOfAccount(i, u.value, org.compromisedAccounts);
      hide IsAccount, UniqueNames, NamesTyped, Names, AccountRowFact, AccountAttributes;
      var r := AccountFact(facts, name);
      if r.Some? {
        var f :| f in facts && IsRecordOf(f, r.value) && NamesTyped(f, name);
        assert f == own && r.value == Record(own.trust, own.body.entity);
      }
      NoAccountView();
    }
  }

  lemma {:induction false} NoAccountView()
    ensures AccountAttributes(None) == AccountView(None, "", false, true, false)
  {
  }

  lemma {:induction false} ViewOfAccount(i: nat, u: AccountRow, compromised: seq<string>)
    ensures var f := AccountRowFact(i, u, compromised);
      && f.body.EntityBody?
      && (u.kind.Some? ==>
            AccountAttributes(Some(Record(f.trust, f.body.entity)))
            == AccountView(u.kind, AccountOwner(Some(u)), u.privileged == Some(true), u.onCall != Some(false),
                           u.breakGlass == Some(true)))
  {
  }

  lemma {:induction false} OnlyAccount(org: AccountState, i: nat, f: Fact)
    requires UniqueNames(org) && i < |org.accounts| && IsAccount(org, f) && Names(f, Account, org.accounts[i].name)
    ensures f == AccountRowFact(i, org.accounts[i], org.compromisedAccounts)
  {
    var j :| 0 <= j < |org.accounts| && f == AccountRowFact(j, org.accounts[j], org.compromisedAccounts);
    assert org.accounts[j].name == org.accounts[i].name;
  }

  ghost predicate IsOrgFact(orgs: seq<OrgRow>, n: nat, f: Fact)
    requires n <= |orgs|
  {
    exists i :: 0 <= i < n && orgs[i].linkedOrgs != [] && f == OrgFact(i, orgs[i])
  }

  lemma {:induction false} OrgFactOfRow(orgs: seq<OrgRow>, n: nat, f: Fact)
    requires n <= |orgs|
    ensures f in OrgFacts(orgs[..n]) <==> IsOrgFact(orgs, n, f)
  {
    hide OrgFact;
    if n > 0 {
      OrgFactOfRow(orgs, n - 1, f);
      OrgFactsStep(orgs, n);
      hide OrgFacts;
    }
  }

  lemma {:induction false} OrgFactsStep(orgs: seq<OrgRow>, n: nat)
    requires 0 < n <= |orgs|
    ensures OrgFacts(orgs[..n])
         == OrgFacts(orgs[..n - 1]) + (if orgs[n - 1].linkedOrgs == [] then [] else [OrgFact(n - 1, orgs[n - 1])])
  {
    hide OrgFact;
    assert orgs[..n][..n - 1] == orgs[..n - 1];
  }

  lemma {:induction false} OrgFactsIff(org: AccountState, name: string, f: Fact)
    ensures f in AccountFacts(org) && Names(f, Org, name) <==> f in OrgFacts(org.orgs) && Names(f, Org, name)
  {
    assert f in AccountFacts(org)
      <==> f in AccountGrants(org) || f in AccountBlocks(org) || f in AccountEntities(org);
    GrantFacts(org, f);
    BlockFacts(org, f);
    OrgFactsAreOrgs(org.orgs, f);
    EntitiesThatAreOrgs(org, f);
    hide AccountFacts, AccountGrants, AccountBlocks, AccountEntities, OrgFacts;
  }

  lemma {:induction false} EntitiesThatAreOrgs(org: AccountState, f: Fact)
    ensures f in OrgFacts(org.orgs) ==> f in AccountEntities(org)
    ensures f in AccountEntities(org) && f.body.EntityBody? && f.body.entity.kind == Org ==> f in OrgFacts(org.orgs)
  {
    OrgFactsAreOrgs(org.orgs, f);
    EntityFacts(org, f);
    hide OrgFacts, Unlisted;
  }

  predicate RowLists(org: AccountState, x: string, y: string) {
    exists o :: o in org.orgs && o.name == x && y in o.linkedOrgs
  }

  lemma {:induction false} ListedRowHasRecord(org: AccountState, x: string, y: string)
    requires RowLists(org, x, y)
    ensures exists f :: f in AccountFacts(org) && Names(f, Org, x)
  {
    var o :| o in org.orgs && o.name == x && y in o.linkedOrgs;
    var j :| 0 <= j < |org.orgs| && org.orgs[j] == o;
    var f := OrgFact(j, o);
    assert IsOrgFact(org.orgs, |org.orgs|, f) && Names(f, Org, x);
    assert org.orgs[..|org.orgs|] == org.orgs;
    OrgFactOfRow(org.orgs, |org.orgs|, f);
    OrgFactsIff(org, x, f);
  }

  lemma {:induction false} RecordListsRow(org: AccountState, x: string, y: string, f: Fact)
    requires UniqueRows(org) && f in AccountFacts(org) && Names(f, Org, x)
    ensures y in Else(f.body.entity.linkedOrgs, []) <==> RowLists(org, x, y)
  {
    hide AccountFacts, OrgFacts, UniqueNames;
    OrgFactsIff(org, x, f);
    assert org.orgs[..|org.orgs|] == org.orgs;
    OrgFactOfRow(org.orgs, |org.orgs|, f);
    var i :| 0 <= i < |org.orgs| && org.orgs[i].linkedOrgs != [] && f == OrgFact(i, org.orgs[i]);
    assert org.orgs[i] in org.orgs;
    forall o | o in org.orgs && o.name == x ensures o == org.orgs[i] {
      var j :| 0 <= j < |org.orgs| && org.orgs[j] == o;
      assert j == i;
    }
  }

  /** What the record of an organisation lists is what its row lists. */
  lemma {:induction false} LinksOfRow(org: AccountState, x: string, y: string)
    requires UniqueRows(org)
    ensures y in OrgLinks(ResolvedEntity(AccountFacts(org), Org, x)) <==> RowLists(org, x, y)
  {
    var facts := AccountFacts(org);
    ResolvedSource(facts, Org, x);
    hide AccountFacts, ResolvedEntity, RowLists, UniqueRows;
    var r := ResolvedEntity(facts, Org, x);
    if r.Some? {
      var f :| f in facts && IsRecordOf(f, r.value) && Names(f, Org, x);
      RecordListsRow(org, x, y, f);
    } else if RowLists(org, x, y) {
      ListedRowHasRecord(org, x, y);
    }
  }

  // ----- policies

  lemma {:induction false} PolicyRow(p: Policy, a: Activity, h: Option<AssetRow>, u: Option<AccountRow>,
      asset: AssetView, account: AccountView)
    requires asset.env == Environment(h) && asset.criticality == Criticality(h) && asset.dataClass == Classification(h)
    requires account.kind == if u.Some? then u.value.kind else None
    ensures AcctForbids(PolicyFact(p).body.prohibition, a, asset, account) <==> PolicyApplies(p, a, h, u)
    ensures PolicyFact(p).body.prohibition.breakGlassException <==> p.breakGlassException == Some(true)
  {
  }

  lemma {:induction false} EmergencyOfRows(org: AccountState, a: Activity, env: string)
    ensures AcctEmergency(AccountFacts(org), a, env)
       <==> exists t :: t in org.tickets && t.emergency == Some(true) && TicketOpen(org, t, a, env)
  {
    var facts := AccountFacts(org);
    forall t ensures (AcctTicketCovers(facts, TicketFact(t), a, env) <==> TicketOpen(org, t, a, env))
                 && (TicketFact(t).body.grant.emergency <==> t.emergency == Some(true))
    {
      TicketRow(org, t, a, env);
    }
    hide AccountFacts, TicketOpen, AcctTicketCovers;
    if f :| f in facts && f.body.GrantBody? && f.body.grant.emergency && AcctTicketCovers(facts, f, a, env) {
      RuleFacts(org, f);
      assert !(exists b :: f == BaselineFact(b)) && !IsObservation(org, f);
    }
    hide TicketFact;
    if t :| t in org.tickets && t.emergency == Some(true) && TicketOpen(org, t, a, env) {
      assert FactOfTicket(org, TicketFact(t));
      RuleFacts(org, TicketFact(t));
    }
  }

  /** The asset and account views the facts give are those of the rows. */
  ghost predicate ViewsAreRows(facts: seq<Fact>, a: Activity, h: Option<AssetRow>, u: Option<AccountRow>) {
    && AssetOf(facts, a).env == Environment(h) && AssetOf(facts, a).criticality == Criticality(h)
    && AssetOf(facts, a).dataClass == Classification(h)
    && AccountOf(facts, a).kind == (if u.Some? then u.value.kind else None)
    && AccountOf(facts, a).breakGlass == HasBreakGlass(u)
  }

  lemma {:induction false} StoppedByRow(facts: seq<Fact>, a: Activity, h: Option<AssetRow>, u: Option<AccountRow>,
      p: Policy)
    requires ViewsAreRows(facts, a, h, u)
    ensures AcctStopped(facts, PolicyFact(p), a)
       <==> PolicyApplies(p, a, h, u)
            && !(p.breakGlassException == Some(true) && HasBreakGlass(u) && AcctEmergency(facts, a, Environment(h)))
  {
    PolicyRow(p, a, h, u, AssetOf(facts, a), AccountOf(facts, a));
    hide AssetOf, AccountOf, AcctForbids, AcctEmergency, PolicyApplies, HasBreakGlass, Environment, Criticality,
         Classification;
  }

  lemma StoppedIsProhibition(facts: seq<Fact>, f: Fact, a: Activity)
    requires AcctStopped(facts, f, a)
    ensures f.body.ProhibitionBody?
  {
  }

  lemma {:induction false} PolicyOfRows(org: AccountState, a: Activity, h: Option<AssetRow>, u: Option<AccountRow>)
    requires ViewsAreRows(AccountFacts(org), a, h, u)
    ensures AccountComponents(AccountFacts(org), a).policyAllowed <==> RowsAllow(org, a, h, u)
  {
    var facts := AccountFacts(org);
    EmergencyOfRows(org, a, Environment(h));
    hide AccountFacts, ViewsAreRows, AcctStopped, AcctEmergency, PolicyApplies, TicketOpen, Linked, ActorGenuine,
         AcctSanctions, AcctCovers, HasBreakGlass, Environment, PolicyFact;
    if f :| f in facts && AcctStopped(facts, f, a) {
      StoppedIsProhibition(facts, f, a);
      RuleFacts(org, f);
      var p :| p in org.policies && f == PolicyFact(p);
      StoppedByRow(facts, a, h, u, p);
    }
    forall p | p in org.policies
      ensures PolicyFact(p) in facts
      ensures AcctStopped(facts, PolicyFact(p), a)
         <==> PolicyApplies(p, a, h, u)
              && !(p.breakGlassException == Some(true) && HasBreakGlass(u) && AcctEmergency(facts, a, Environment(h)))
    {
      StoppedByRow(facts, a, h, u, p);
      assert FactOfPolicy(org, PolicyFact(p));
      RuleFacts(org, PolicyFact(p));
    }
  }

  lemma {:induction false} ActorOfRows(org: AccountState, a: Activity, h: Option<AssetRow>, u: Option<AccountRow>)
    requires UniqueNames(org) && IsAssetRow(org, Else(a.host, ""), h) && IsAccountRow(org, Else(a.account, ""), u)
    ensures ActorGenuine(AccountFacts(org), a) <==> RowsTrustActor(org, a, h, u)
  {
    AssetOfRow(org, Else(a.host, ""), h);
    AccountOfRow(org, Else(a.account, ""), u);
    FlaggedIffListed(org, Else(a.account, ""));
    hide AccountFacts, ResolvedEntity, AccountFact, AccountCompromised, AssetAttributes, AccountAttributes, Environment,
         Criticality, Classification, AssetOwner, AccountOwner, UniqueNames, IsAccountRow, IsAssetRow;
  }

  lemma {:induction false} LinkedOfRows(org: AccountState, a: Activity, h: Option<AssetRow>, u: Option<AccountRow>)
    requires UniqueRows(org) && IsAssetRow(org, Else(a.host, ""), h) && IsAccountRow(org, Else(a.account, ""), u)
    ensures Linked(AccountFacts(org), a) <==> RowsLink(org, AccountOwner(u), AssetOwner(h))
  {
    AssetOfRow(org, Else(a.host, ""), h);
    AccountOfRow(org, Else(a.account, ""), u);
    LinksOfRow(org, AccountOwner(u), AssetOwner(h));
    LinksOfRow(org, AssetOwner(h), AccountOwner(u));
    hide AccountFacts, ResolvedEntity, AccountFact, AssetAttributes, AccountAttributes, Environment, OrgLinks,
         Criticality, Classification, AssetOwner, AccountOwner, UniqueRows, IsAccountRow, IsAssetRow;
  }

  /** The verdict on an account activity, read off the rows: with unique names, `h` the asset row of the host and
      `u` the account row, if there are any. */
  lemma {:induction false} AccountVerdict(matches: Matcher, org: AccountState, a: Activity, h: Option<AssetRow>,
      u: Option<AccountRow>)
    requires a.track == AccountTrack && UniqueRows(org)
    requires IsAssetRow(org, Else(a.host, ""), h) && IsAccountRow(org, Else(a.account, ""), u)
    ensures var c := Evaluate(matches, a, AccountFacts(org), None);
      && (c.sanctionedOrRoutine <==> RowsSanction(org, a))
      && (c.inScope <==> RowsCover(org, a, Environment(h)) && RowsLink(org, AccountOwner(u), AssetOwner(h)))
      && (c.actorGenuine <==> RowsTrustActor(org, a, h, u))
      && (c.policyAllowed <==> RowsAllow(org, a, h, u))
  {
    EvaluatesAllRows(matches, org, a);
    SanctionOfRows(org, a);
    CoverOfRows(org, a, Environment(h));
    ActorOfRows(org, a, h, u);
    LinkedOfRows(org, a, h, u);
    AssetOfRow(org, Else(a.host, ""), h);
    AccountOfRow(org, Else(a.account, ""), u);
    hide AccountFacts, ResolvedEntity, AccountFact, AssetAttributes, AccountAttributes, Environment, Evaluate,
         Criticality, Classification, AssetOwner, AccountOwner, UniqueRows, IsAccountRow, IsAssetRow, RowsAllow, Linked,
         RowsTrustActor, ActorGenuine, RowsCover, RowsSanction, AcctCovers, AcctSanctions, AcctStopped;
    PolicyOfRows(org, a, h, u);
  }

  // ----- what rows say, on the FIM track

  /** The path matches the row's pattern and the kind of change is the row's, `any` being the default. */
  predicate ChangeMatches(matches: Matcher, glob: string, kind: Option<ChangeKind>, a: Activity) {
    && matches(Else(a.path, ""), glob)
    && (kind.None? || kind.value == AnyChange || a.changeType == kind)
  }

  predicate RequestOpen(matches: Matcher, c: ChangeRequest, a: Activity) {
    && ChangeMatches(matches, c.pathGlob, c.changeType, a) && Stands(c.status, c.cabRequired, c.cabApproved)
    && WithinHours(c.windowStart, c.windowEnd, a)
    && (c.effectiveFrom.Some? ==> c.effectiveFrom.value <= a.time) && a.time <= c.validUntil
  }

  predicate ChangeBaselineOpen(matches: Matcher, b: ChangeBaseline, a: Activity) {
    ChangeMatches(matches, b.pathGlob, b.changeType, a) && WithinHours(b.windowStart, b.windowEnd, a)
  }

  predicate ChangesCovered(matches: Matcher, org: FimState, a: Activity) {
    || (exists c :: c in org.changeRequests && RequestOpen(matches, c, a))
    || (exists b :: b in org.baselines && ChangeBaselineOpen(matches, b, a))
  }

  /** Approval is enough to sanction, without the board and at any time. */
  predicate ChangesSanctioned(matches: Matcher, org: FimState, a: Activity) {
    || (exists c :: c in org.changeRequests && ChangeMatches(matches, c.pathGlob, c.changeType, a)
                    && (c.status.None? || c.status.value == Approved))
    || (exists b :: b in org.baselines && ChangeMatches(matches, b.pathGlob, b.changeType, a))
  }

  ghost predicate IsPathRow(org: FimState, path: string, p: Option<PathRow>) {
    && (p.Some? ==> p.value in org.paths && p.value.path == path)
    && (p.None? ==> forall x :: x in org.paths ==> x.path != path)
  }

  function ConfigClass(p: Option<PathRow>): string {
    if p.Some? && p.value.configClass.Some? then p.value.configClass.value else "app"
  }

  /** Some open request excepts the freeze. */
  predicate RequestExcepts(matches: Matcher, org: FimState, fr: ChangeFreeze, a: Activity) {
    exists c :: c in org.changeRequests && RequestOpen(matches, c, a)
      && (c.freezeException == Some(true) || (fr.allowedIds.Some? && c.id in fr.allowedIds.value))
  }

  /** Every freeze that is on for the class has an open request that it excepts. */
  predicate FreezesLetThrough(matches: Matcher, org: FimState, a: Activity, configClass: string) {
    forall fr :: fr in org.freezes && configClass in fr.configClasses && fr.start <= a.time <= fr.end ==>
      RequestExcepts(matches, org, fr, a)
  }

  predicate ChangePolicyApplies(p: ChangePolicy, a: Activity, configClass: string) {
    && (p.priority.None? || p.priority.value == High) && p.waiverPresent != Some(true)
    && (p.forbidToClass.Some? && |p.forbidToClass.value| > 0 ==> configClass in p.forbidToClass.value)
    && (p.forbidChangeType.Some? ==> AuthorizationBlocks.ChangeName(a.changeType) in p.forbidChangeType.value)
  }

  predicate ChangesAllowed(matches: Matcher, org: FimState, a: Activity, configClass: string) {
    forall p :: p in org.policies && ChangePolicyApplies(p, a, configClass) ==>
      && p.breakGlassException == Some(true)
      && exists c :: c in org.changeRequests && c.emergency == Some(true) && RequestOpen(matches, c, a)
  }

  // ----- the facts of the rows

  ghost predicate FactOfRequest(org: FimState, f: Fact) {
    exists c :: c in org.changeRequests && f == RequestFact(c)
  }

  ghost predicate FactOfChangeBaseline(org: FimState, f: Fact) {
    exists b :: b in org.baselines && f == ChangeBaselineFact(b)
  }

  ghost predicate FactOfChangePolicy(org: FimState, f: Fact) {
    exists p :: p in org.policies && f == ChangePolicyFact(p)
  }

  ghost predicate FactOfChangeFreeze(org: FimState, f: Fact) {
    exists i :: 0 <= i < |org.freezes| && f == ChangeFreezeFact(i, org.freezes[i])
  }

  lemma {:induction false} ChangeFacts(org: FimState, f: Fact)
    ensures f in FimFacts(org) && f.body.GrantBody? <==> FactOfRequest(org, f) || FactOfChangeBaseline(org, f)
    ensures f in FimFacts(org) && f.body.ProhibitionBody? <==> FactOfChangePolicy(org, f)
    ensures f in FimFacts(org) && f.body.FreezeBody? <==> FactOfChangeFreeze(org, f)
    ensures f in FimFacts(org) ==> Selected(f, FimTrack, None)
  {
    InMap(org.changeRequests, RequestFact, f);
    InMap(org.baselines, ChangeBaselineFact, f);
    InMap(org.policies, ChangePolicyFact, f);
    var freezes, paths := MapIndexed(org.freezes, ChangeFreezeFact), MapIndexed(org.paths, PathFact);
    assert f in freezes <==> FactOfChangeFreeze(org, f);
    assert f in paths ==> f.body.EntityBody? && Selected(f, FimTrack, None);
    assert f in FimFacts(org)
      <==> f in Map(org.changeRequests, RequestFact) || f in Map(org.baselines, ChangeBaselineFact) || f in freezes
           || f in Map(org.policies, ChangePolicyFact) || f in paths;
    hide FimFacts;
  }

  lemma {:induction false} EvaluatesAllChanges(matches: Matcher, org: FimState, a: Activity)
    requires a.track == FimTrack
    ensures Evaluate(matches, a, FimFacts(org), None) == FimComponents(matches, FimFacts(org), a)
  {
    var facts := FimFacts(org);
    var all := SelectFacts(facts, FimTrack, None);
    forall f | f in facts ensures Selected(f, FimTrack, None) {
      ChangeFacts(org, f);
    }
    assert SameFacts(all, facts);
    hide FimFacts, SelectFacts, FimComponents, SameFacts;
    SameFactsSpeakAlike(all, facts);
    ViewsOfAlike(all, facts, a);
    FimComponentsAgree(matches, all, facts, a);
  }

  lemma {:induction false} RequestRow(matches: Matcher, c: ChangeRequest, a: Activity)
    ensures FimTicketCovers(matches, RequestFact(c), a) <==> RequestOpen(matches, c, a)
    ensures !FimBaselineCovers(matches, RequestFact(c), a)
    ensures FimSanctions(matches, RequestFact(c), a)
       <==> ChangeMatches(matches, c.pathGlob, c.changeType, a) && (c.status.None? || c.status.value == Approved)
  {
    HoursOf(c.windowStart, c.windowEnd, a);
    hide WithinHours, WindowOf, InWindow;
  }

  lemma {:induction false} ChangeBaselineRow(matches: Matcher, b: ChangeBaseline, a: Activity)
    ensures FimBaselineCovers(matches, ChangeBaselineFact(b), a) <==> ChangeBaselineOpen(matches, b, a)
    ensures !FimTicketCovers(matches, ChangeBaselineFact(b), a)
    ensures FimSanctions(matches, ChangeBaselineFact(b), a) <==> ChangeMatches(matches, b.pathGlob, b.changeType, a)
  {
    HoursOf(b.windowStart, b.windowEnd, a);
    hide WithinHours, WindowOf, InWindow;
  }

  /** Every grant row is judged as its fact. */
  ghost predicate RowsJudged(matches: Matcher, a: Activity) {
    && (forall c :: FimTicketCovers(matches, RequestFact(c), a) <==> RequestOpen(matches, c, a))
    && (forall c :: !FimBaselineCovers(matches, RequestFact(c), a))
    && (forall c :: FimSanctions(matches, RequestFact(c), a)
          <==> ChangeMatches(matches, c.pathGlob, c.changeType, a) && (c.status.None? || c.status.value == Approved))
    && (forall b :: FimBaselineCovers(matches, ChangeBaselineFact(b), a) <==> ChangeBaselineOpen(matches, b, a))
    && (forall b :: !FimTicketCovers(matches, ChangeBaselineFact(b), a))
    && (forall b :: FimSanctions(matches, ChangeBaselineFact(b), a)
          <==> ChangeMatches(matches, b.pathGlob, b.changeType, a))
  }

  lemma {:induction false} AllRowsJudged(matches: Matcher, a: Activity)
    ensures RowsJudged(matches, a)
  {
    hide FimTicketCovers, FimBaselineCovers, FimSanctions, RequestFact, ChangeBaselineFact, RequestOpen,
         ChangeBaselineOpen, ChangeMatches;
    forall c ensures (FimTicketCovers(matches, RequestFact(c), a) <==> RequestOpen(matches, c, a))
                 && !FimBaselineCovers(matches, RequestFact(c), a)
                 && (FimSanctions(matches, RequestFact(c), a)
                     <==> ChangeMatches(matches, c.pathGlob, c.changeType, a)
                          && (c.status.None? || c.status.value == Approved))
    {
      RequestRow(matches, c, a);
    }
    forall b ensures (FimBaselineCovers(matches, ChangeBaselineFact(b), a) <==> ChangeBaselineOpen(matches, b, a))
                 && !FimTicketCovers(matches, ChangeBaselineFact(b), a)
                 && (FimSanctions(matches, ChangeBaselineFact(b), a)
                     <==> ChangeMatches(matches, b.pathGlob, b.changeType, a))
    {
      ChangeBaselineRow(matches, b, a);
    }
  }

  /** The grant rows have their facts among the facts. */
  lemma {:induction false} GrantRowsOnFile(org: FimState)
    ensures forall c :: c in org.changeRequests ==> RequestFact(c) in FimFacts(org)
    ensures forall b :: b in org.baselines ==> ChangeBaselineFact(b) in FimFacts(org)
    ensures forall p :: p in org.policies ==> ChangePolicyFact(p) in FimFacts(org)
  {
    hide FimFacts, RequestFact, ChangeBaselineFact, ChangePolicyFact;
    forall c | c in org.changeRequests ensures RequestFact(c) in FimFacts(org) {
      assert FactOfRequest(org, RequestFact(c));
      ChangeFacts(org, RequestFact(c));
    }
    forall b | b in org.baselines ensures ChangeBaselineFact(b) in FimFacts(org) {
      assert FactOfChangeBaseline(org, ChangeBaselineFact(b));
      ChangeFacts(org, ChangeBaselineFact(b));
    }
    forall p | p in org.policies ensures ChangePolicyFact(p) in FimFacts(org) {
      assert FactOfChangePolicy(org, ChangePolicyFact(p));
      ChangeFacts(org, ChangePolicyFact(p));
    }
  }

  lemma {:induction false} ChangeGrantsOfRows(matches: Matcher, org: FimState, a: Activity)
    ensures (exists f :: f in FimFacts(org) && FimSanctions(matches, f, a)) <==> ChangesSanctioned(matches, org, a)
    ensures (exists f :: f in FimFacts(org) && FimCovers(matches, f, a)) <==> ChangesCovered(matches, org, a)
  {
    var facts := FimFacts(org);
    AllRowsJudged(matches, a);
    GrantRowsOnFile(org);
    OnlyRulesCount(facts, a, "", matches);
    hide FimFacts, FimTicketCovers, FimBaselineCovers, FimSanctions, RequestFact, ChangeBaselineFact, RequestOpen,
         ChangeBaselineOpen, ChangeMatches;
    if f :| f in facts && FimSanctions(matches, f, a) {
      ChangeFacts(org, f);
    }
    if f :| f in facts && FimCovers(matches, f, a) {
      ChangeFacts(org, f);
    }
    assert forall c :: c in org.changeRequests && RequestOpen(matches, c, a) ==> FimCovers(matches, RequestFact(c), a);
    assert forall b :: (b in org.baselines && ChangeBaselineOpen(matches, b, a)
      ==> FimCovers(matches, ChangeBaselineFact(b), a));
  }

  lemma {:induction false} ChangeEmergencyOfRows(matches: Matcher, org: FimState, a: Activity)
    ensures FimEmergency(matches, FimFacts(org), a)
       <==> exists c :: c in org.changeRequests && c.emergency == Some(true) && RequestOpen(matches, c, a)
  {
    var facts := FimFacts(org);
    AllRowsJudged(matches, a);
    GrantRowsOnFile(org);
    assert forall c :: (RequestFact(c).body.GrantBody?
      && (RequestFact(c).body.grant.emergency <==> c.emergency == Some(true)));
    hide FimFacts, FimTicketCovers, FimBaselineCovers, FimSanctions, RequestFact, ChangeBaselineFact, RequestOpen,
         ChangeBaselineOpen, ChangeMatches;
    if f :| f in facts && f.body.GrantBody? && f.body.grant.emergency && FimTicketCovers(matches, f, a) {
      ChangeFacts(org, f);
    }
  }

  lemma {:induction false} ExceptedByRows(matches: Matcher, org: FimState, a: Activity, i: nat)
    requires i < |org.freezes|
    ensures Excepted(matches, FimFacts(org), ChangeFreezeFact(i, org.freezes[i]), a)
       <==> RequestExcepts(matches, org, org.freezes[i], a)
  {
    var facts, fr := FimFacts(org), ChangeFreezeFact(i, org.freezes[i]);
    AllRowsJudged(matches, a);
    GrantRowsOnFile(org);
    assert forall c :: (Excepts(RequestFact(c), fr)
      <==> c.freezeException == Some(true)
           || (org.freezes[i].allowedIds.Some? && c.id in org.freezes[i].allowedIds.value));
    OnlyRulesCount(facts, a, "", matches);
    hide FimFacts, FimTicketCovers, FimBaselineCovers, FimSanctions, RequestFact, ChangeBaselineFact, RequestOpen,
         ChangeBaselineOpen, ChangeMatches, ChangeFreezeFact, Excepts;
    if f :| f in facts && FimTicketCovers(matches, f, a) && Excepts(f, fr) {
      ChangeFacts(org, f);
    }
  }

  lemma {:induction false} FreezesOfChangeRows(matches: Matcher, org: FimState, a: Activity, configClass: string)
    requires PathOf(FimFacts(org), a).configClass == configClass
    ensures (exists fr :: fr in FimFacts(org) && FimBlocked(matches, FimFacts(org), fr, a))
       <==> !FreezesLetThrough(matches, org, a, configClass)
  {
    var facts := FimFacts(org);
    hide FimFacts, Excepted, PathOf, RequestExcepts;
    forall i | 0 <= i < |org.freezes|
      ensures ChangeFreezeFact(i, org.freezes[i]) in facts
      ensures var fr := org.freezes[i];
        FimBlocked(matches, facts, ChangeFreezeFact(i, fr), a)
        <==> configClass in fr.configClasses && fr.start <= a.time <= fr.end && !RequestExcepts(matches, org, fr, a)
    {
      ExceptedByRows(matches, org, a, i);
      assert FactOfChangeFreeze(org, ChangeFreezeFact(i, org.freezes[i]));
      ChangeFacts(org, ChangeFreezeFact(i, org.freezes[i]));
    }
    assert forall fr :: FimBlocked(matches, facts, fr, a) ==> fr.body.FreezeBody?;
    hide FimBlocked, ChangeFreezeFact;
    if fr :| fr in facts && FimBlocked(matches, facts, fr, a) {
      ChangeFacts(org, fr);
      var i :| 0 <= i < |org.freezes| && fr == ChangeFreezeFact(i, org.freezes[i]);
      assert org.freezes[i] in org.freezes;
    }
    if fr :| fr in org.freezes && configClass in fr.configClasses && fr.start <= a.time <= fr.end
             && !RequestExcepts(matches, org, fr, a)
    {
      var i :| 0 <= i < |org.freezes| && org.freezes[i] == fr;
      assert FimBlocked(matches, facts, ChangeFreezeFact(i, org.freezes[i]), a);
    }
  }

  lemma {:induction false} ChangePolicyRow(p: ChangePolicy, a: Activity, configClass: string)
    ensures FimForbids(ChangePolicyFact(p).body.prohibition, a, configClass) <==> ChangePolicyApplies(p, a, configClass)
    ensures ChangePolicyFact(p).body.prohibition.breakGlassException <==> p.breakGlassException == Some(true)
  {
  }

  lemma {:induction false} PolicyOfChangeRows(matches: Matcher, org: FimState, a: Activity, configClass: string)
    requires PathOf(FimFacts(org), a).configClass == configClass
    ensures FimComponents(matches, FimFacts(org), a).policyAllowed <==> ChangesAllowed(matches, org, a, configClass)
  {
    var facts := FimFacts(org);
    ChangeEmergencyOfRows(matches, org, a);
    GrantRowsOnFile(org);
    forall p ensures (FimForbids(ChangePolicyFact(p).body.prohibition, a, configClass)
                      <==> ChangePolicyApplies(p, a, configClass))
                 && (ChangePolicyFact(p).body.prohibition.breakGlassException <==> p.breakGlassException == Some(true))
    {
      ChangePolicyRow(p, a, configClass);
    }
    hide FimFacts, PathOf, FimForbids, FimEmergency, ChangePolicyApplies, RequestOpen, FimSanctions, FimCovers,
         FimBlocked;
    assert forall p :: (FimStopped(matches, facts, ChangePolicyFact(p), a)
      <==> ChangePolicyApplies(p, a, configClass)
           && !(p.breakGlassException == Some(true) && FimEmergency(matches, facts, a)));
    assert forall f :: FimStopped(matches, facts, f, a) ==> f.body.ProhibitionBody?;
    hide FimStopped, ChangePolicyFact;
    if f :| f in facts && FimStopped(matches, facts, f, a) {
      ChangeFacts(org, f);
    }
  }

  lemma {:induction false} PathOfRow(org: FimState, path: string, p: Option<PathRow>)
    requires UniquePaths(org) && IsPathRow(org, path, p)
    ensures PathAttributes(ResolvedEntity(FimFacts(org), WatchedPath, path))
         == PathView(ConfigClass(p), if p.Some? then Else(p.value.compromise, Clean) else Clean)
  {
    var facts := FimFacts(org);
    if p.None? {
      NoPathRow(org, path);
    } else {
      ResolvedSource(facts, WatchedPath, path);
      PathFactsIff(org, path);
      hide FimFacts, ResolvedEntity;
      var i :| 0 <= i < |org.paths| && org.paths[i] == p.value;
      assert IsPath(org, PathFact(i, p.value));
      var r := ResolvedEntity(facts, WatchedPath, path).value;
      var f :| f in facts && IsRecordOf(f, r) && Names(f, WatchedPath, path);
      var j :| 0 <= j < |org.paths| && f == PathFact(j, org.paths[j]);
      assert i == j;
      PathViewOfRow(i, p.value, r);
      hide IsPath, UniquePaths, Names, PathFact, PathAttributes, IsRecordOf;
    }
  }

  lemma {:induction false} PathViewOfRow(i: nat, row: PathRow, r: Record)
    requires IsRecordOf(PathFact(i, row), r)
    ensures PathAttributes(Some(r)) == PathView(ConfigClass(Some(row)), Else(row.compromise, Clean))
  {
  }

  /** The verdict on a file change, read off the rows: with unique paths, `p` the row of the path, if there is
      one. */
  lemma {:induction false} FimVerdict(matches: Matcher, org: FimState, a: Activity, p: Option<PathRow>)
    requires a.track == FimTrack && UniquePaths(org) && IsPathRow(org, Else(a.path, ""), p)
    ensures var c := Evaluate(matches, a, FimFacts(org), None);
      && (c.sanctionedOrRoutine <==> ChangesSanctioned(matches, org, a))
      && (c.inScope <==> ChangesCovered(matches, org, a) && FreezesLetThrough(matches, org, a, ConfigClass(p)))
      && (c.actorGenuine <==> !(p.Some? && RowCompromised(p.value.compromise)))
      && (c.policyAllowed <==> ChangesAllowed(matches, org, a, ConfigClass(p)))
  {
    EvaluatesAllChanges(matches, org, a);
    PathOfRow(org, Else(a.path, ""), p);
    ChangeGrantsOfRows(matches, org, a);
    FreezesOfChangeRows(matches, org, a, ConfigClass(p));
    PolicyOfChangeRows(matches, org, a, ConfigClass(p));
    hide RequestOpen, ChangeBaselineOpen, ChangePolicyApplies, RequestExcepts, Selected, SelectFacts, AccountComponents;
    hide FimFacts, ResolvedEntity, PathAttributes, Evaluate, ConfigClass, UniquePaths, IsPathRow, ChangesSanctioned,
         ChangesCovered, FreezesLetThrough, ChangesAllowed, FimSanctions, FimCovers, FimBlocked, FimStopped;
  }
}
