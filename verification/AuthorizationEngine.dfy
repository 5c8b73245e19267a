/**
 The deterministic authorization evaluator (src/soctalk/authorization/engine.py).

 `matches(path, pattern)` stands for Python's `fnmatch`; the results hold for every such
 function, and Glob.dfy gives it for patterns without brackets.  The components are specified by
 `AccountComponents` and `FimComponents`; the methods that follow the source's loops compute them.
 */
module AuthorizationEngine {
  import opened Wrappers
  import opened AuthorizationModel
  import opened EntityKey

  type Matcher = (string, string) -> bool

  const ROUTINE_MIN := 5

  // ----- which facts count

  function Keep(facts: seq<Fact>, p: Fact -> bool): (kept: seq<Fact>)
    ensures forall f :: f in kept <==> f in facts && p(f)
  {
    if facts == [] then []
    else
      var last := facts[|facts| - 1];
      assert facts == facts[..|facts| - 1] + [last];
      Keep(facts[..|facts| - 1], p) + (if p(last) then [last] else [])
  }

  predicate Selected(f: Fact, track: Track, tenant: Option<string>) {
    f.track == track && (tenant == None || f.tenant == tenant) && f.supersededBy == None
  }

  function SelectFacts(facts: seq<Fact>, track: Track, tenant: Option<string>): seq<Fact> {
    Keep(facts, f => Selected(f, track, tenant))
  }

  // ----- which record speaks for an entity

  datatype Record = Record(trust: int, entity: Entity)

  predicate IsRecordOf(f: Fact, r: Record) {
    f.body == EntityBody(r.entity) && f.trust == r.trust
  }

  function Records(facts: seq<Fact>): seq<Record> {
    if facts == [] then []
    else
      var last := facts[|facts| - 1];
      Records(facts[..|facts| - 1]) + (if last.body.EntityBody? then [Record(last.trust, last.body.entity)] else [])
  }

  lemma {:induction false} RecordsMembers(facts: seq<Fact>, r: Record)
    ensures r in Records(facts) <==> exists f :: f in facts && IsRecordOf(f, r)
  {
    if facts != [] {
      var init, last := facts[..|facts| - 1], facts[|facts| - 1];
      RecordsMembers(init, r);
      assert facts == init + [last];
      assert last in facts;
      if r in Records(facts) && r !in Records(init) {
        assert IsRecordOf(last, r);
      }
    }
  }

  function KeepRecords(rs: seq<Record>, p: Record -> bool): (kept: seq<Record>)
    ensures forall r :: r in kept <==> r in rs && p(r)
  {
    if rs == [] then []
    else
      var last := rs[|rs| - 1];
      assert rs == rs[..|rs| - 1] + [last];
      KeepRecords(rs[..|rs| - 1], p) + (if p(last) then [last] else [])
  }

  /** How `max` compares records: by trust, then by key. */
  predicate Less(a: Record, b: Record) {
    a.trust < b.trust || (a.trust == b.trust && TextLess(KeyText(a.entity, a.trust), KeyText(b.entity, b.trust)))
  }

  /** The first greatest record, as `max` picks it. */
  function Max(rs: seq<Record>): (r: Record)
    requires rs != []
    ensures r in rs
  {
    var last := rs[|rs| - 1];
    if |rs| == 1 then last
    else
      var m := Max(rs[..|rs| - 1]);
      if Less(m, last) then last else m
  }

  function MaxOrNone(rs: seq<Record>): Option<Record> {
    if rs == [] then None else Some(Max(rs))
  }

  function Matching(facts: seq<Fact>, kind: EntityKind, name: string): seq<Record> {
    KeepRecords(Records(facts), (r: Record) => r.entity.kind == kind && r.entity.name == name)
  }

  function ResolvedEntity(facts: seq<Fact>, kind: EntityKind, name: string): Option<Record> {
    MaxOrNone(Matching(facts, kind, name))
  }

  function TypedAccounts(facts: seq<Fact>, name: string): seq<Record> {
    KeepRecords(Records(facts), (r: Record) => r.entity.kind == Account && r.entity.name == name
        && r.entity.accountType.Some?)
  }

  function AccountFact(facts: seq<Fact>, name: string): Option<Record> {
    MaxOrNone(TypedAccounts(facts, name))
  }

  predicate IsCompromised(c: Compromise) {
    c == Compromised || c == Contained
  }

  predicate FlagsCompromise(f: Fact, name: string) {
    && f.body.EntityBody? && f.body.entity.kind == Account && f.body.entity.name == name
    && f.body.entity.compromise.Some? && IsCompromised(f.body.entity.compromise.value)
  }

  predicate AccountCompromised(facts: seq<Fact>, name: string) {
    exists f :: f in facts && FlagsCompromise(f, name)
  }

  // ----- what the evaluator reads off the resolved records, defaults filled in

  datatype AssetView = AssetView(env: string, criticality: string, dataClass: string, org: string,
      compromise: Compromise)

  function AssetAttributes(r: Option<Record>): AssetView {
    if r == None then AssetView("prod", "medium", "none", "", Clean)
    else
      var e := r.value.entity;
      AssetView(Else(e.environment, "prod"), Else(e.criticality, "medium"), Else(e.dataClassification, "none"),
                Else(e.ownerOrg, ""), Else(e.compromise, Clean))
  }

  datatype AccountView = AccountView(kind: Option<AccountKind>, org: string, privileged: bool, onCall: bool,
      breakGlass: bool)

  function AccountAttributes(r: Option<Record>): AccountView {
    if r == None then AccountView(None, "", false, true, false)
    else
      var e := r.value.entity;
      AccountView(e.accountType, Else(e.ownerOrg, ""), Else(e.privileged, false), Else(e.onCall, true),
          Else(e.breakGlass, false))
  }

  datatype PathView = PathView(configClass: string, compromise: Compromise)

  function PathAttributes(r: Option<Record>): PathView {
    if r == None then PathView("app", Clean)
    else PathView(Else(r.value.entity.configClass, "app"), Else(r.value.entity.compromise, Clean))
  }

  function OrgLinks(r: Option<Record>): seq<string> {
    if r == None then [] else Else(r.value.entity.linkedOrgs, [])
  }

  function AssetOf(facts: seq<Fact>, a: Activity): AssetView {
    AssetAttributes(ResolvedEntity(facts, Asset, Else(a.host, "")))
  }

  function AccountOf(facts: seq<Fact>, a: Activity): AccountView {
    AccountAttributes(AccountFact(facts, Else(a.account, "")))
  }

  function PathOf(facts: seq<Fact>, a: Activity): PathView {
    PathAttributes(ResolvedEntity(facts, WatchedPath, Else(a.path, "")))
  }

  predicate OrgLinked(facts: seq<Fact>, a: string, b: string) {
    a == b || b in OrgLinks(ResolvedEntity(facts, Org, a)) || a in OrgLinks(ResolvedEntity(facts, Org, b))
  }

  /** The organisations of the account and of the asset are linked. */
  predicate Linked(facts: seq<Fact>, a: Activity) {
    OrgLinked(facts, AccountOf(facts, a).org, AssetOf(facts, a).org)
  }

  // ----- times

  const MICROS_PER_MINUTE := 60_000_000
  const MICROS_PER_DAY := 86_400_000_000

  predicate InWindow(w: Option<Window>, t: int) {
    w == None || w.value.start * MICROS_PER_MINUTE <= t % MICROS_PER_DAY <= w.value.end * MICROS_PER_MINUTE
  }

  predicate InValidity(f: Fact, t: int) {
    (f.validFrom.Some? ==> f.validFrom.value <= t) && (f.validUntil.Some? ==> t <= f.validUntil.value)
  }

  /** A window is read on the clock of the activity's own offset, a validity as an instant. */
  predicate InTime(f: Fact, a: Activity) {
    InWindow(f.scope.window, a.time + a.offset) && InValidity(f, a.time)
  }

  // ----- coverage on the account track

  predicate IsGrant(f: Fact, c: GrantClass) {
    f.body.GrantBody? && f.body.grant.grantClass == c
  }

  /** Approved, and approved by the board where that is required. */
  predicate GrantOk(g: Grant) {
    g.status == Approved && (!g.cabRequired || g.cabApproved)
  }

  predicate ActiveFor(fr: Freeze, scopes: seq<string>, s: string, t: int) {
    s in scopes && fr.start <= t <= fr.end
  }

  predicate AcctFreezeBlocks(facts: seq<Fact>, env: string, f: Fact, t: int)
    requires f.body.GrantBody?
  {
    && !f.body.grant.freezeException
    && exists fr :: fr in facts && FreezeHits(fr, env, f.id, t)
  }

  predicate FreezeHits(fr: Fact, env: string, id: string, t: int) {
    fr.body.FreezeBody? && ActiveFor(fr.body.freeze, fr.body.freeze.envs, env, t)
        && id !in fr.body.freeze.allowedExceptionIds
  }

  predicate ForTuple(f: Fact, a: Activity) {
    f.scope.subject == a.account && f.scope.target == a.host && f.scope.action == a.action
  }

  predicate AcctTicketCovers(facts: seq<Fact>, f: Fact, a: Activity, env: string) {
    && IsGrant(f, ChangeTicket) && GrantOk(f.body.grant)
    && ForTuple(f, a) && InTime(f, a)
    && !AcctFreezeBlocks(facts, env, f, a.time)
  }

  predicate AcctBaselineCovers(f: Fact, a: Activity) {
    IsGrant(f, StandingBaseline) && ForTuple(f, a) && InTime(f, a)
  }

  predicate AcctRoutine(f: Fact, a: Activity) {
    && IsGrant(f, RoutineObservation) && ForTuple(f, a)
    && Else(f.body.grant.seenCount, 0) >= ROUTINE_MIN && !Else(f.body.grant.ioc, false)
    && InTime(f, a)
  }

  predicate AcctCovers(facts: seq<Fact>, f: Fact, a: Activity, env: string) {
    AcctTicketCovers(facts, f, a, env) || AcctBaselineCovers(f, a) || AcctRoutine(f, a)
  }

  /** Sanction is looser than coverage: no host, no window. */
  predicate AcctSanctions(f: Fact, a: Activity) {
    || (((IsGrant(f, ChangeTicket) && GrantOk(f.body.grant)) || IsGrant(f, StandingBaseline))
        && f.scope.subject == a.account && f.scope.action == a.action)
    || AcctRoutine(f, a)
  }

  predicate ActorGenuine(facts: seq<Fact>, a: Activity) {
    var account := AccountOf(facts, a);
    && !AccountCompromised(facts, Else(a.account, ""))
    && !IsCompromised(AssetOf(facts, a).compromise)
    && !(account.kind == Some(Service) && a.interactive)
    && !(account.kind == Some(Person) && account.privileged && !account.onCall && !account.breakGlass)
  }

  predicate Lists(values: Option<seq<string>>, v: string) {
    values == None || v in values.value
  }

  /** The prohibition forbids the activity, break-glass aside. */
  predicate AcctForbids(p: Prohibition, a: Activity, asset: AssetView, account: AccountView) {
    && p.forbidAction == a.action && p.priority == High && !p.waiverPresent
    && (p.forbidAccountType.Some? ==> account.kind == p.forbidAccountType)
    && Lists(p.envs, asset.env) && Lists(p.criticalities, asset.criticality) && Lists(p.dataClasses, asset.dataClass)
  }

  predicate AcctEmergency(facts: seq<Fact>, a: Activity, env: string) {
    exists f :: f in facts && f.body.GrantBody? && f.body.grant.emergency && AcctTicketCovers(facts, f, a, env)
  }

  predicate AcctStopped(facts: seq<Fact>, f: Fact, a: Activity) {
    && f.body.ProhibitionBody? && AcctForbids(f.body.prohibition, a, AssetOf(facts, a), AccountOf(facts, a))
    && !(&& f.body.prohibition.breakGlassException && AccountOf(facts, a).breakGlass
         && AcctEmergency(facts, a, AssetOf(facts, a).env))
  }

  function AccountComponents(facts: seq<Fact>, a: Activity): Components {
    Components(
      exists f :: f in facts && AcctSanctions(f, a),
      (exists f :: f in facts && AcctCovers(facts, f, a, AssetOf(facts, a).env)) && Linked(facts, a),
      ActorGenuine(facts, a),
      !exists f :: f in facts && AcctStopped(facts, f, a))
  }

  /** `_acct_components`, step by step. */
  method ComputeAccountComponents(facts: seq<Fact>, a: Activity) returns (c: Components)
    ensures c == AccountComponents(facts, a)
  {
    var asset := AssetOf(facts, a);
    var record := AccountFact(facts, Else(a.account, ""));
    var account := AccountAttributes(record);
    hide AccountFact, ResolvedEntity, AcctForbids, AcctTicketCovers, AcctBaselineCovers, AcctRoutine, AcctEmergency;

    var covered :=
      || (exists f :: f in facts && AcctTicketCovers(facts, f, a, asset.env))
      || (exists f :: f in facts && AcctBaselineCovers(f, a))
      || (exists f :: f in facts && AcctRoutine(f, a));
    var inScope := covered && OrgLinked(facts, account.org, asset.org);

    var actorGenuine := true;
    if AccountCompromised(facts, Else(a.account, "")) {
      actorGenuine := false;
    } else if IsCompromised(asset.compromise) {
      actorGenuine := false;
    } else if record.Some? {
      if account.kind == Some(Service) && a.interactive {
        actorGenuine := false;
      } else if account.kind == Some(Person) && account.privileged && !account.onCall && !account.breakGlass {
        actorGenuine := false;
      }
    }

    var policyAllowed := true;
    for i := 0 to |facts|
      invariant policyAllowed
      invariant forall f :: f in facts[..i] ==> !AcctStopped(facts, f, a)
    {
      var f := facts[i];
      assert facts[..i + 1] == facts[..i] + [f];
      if f.body.ProhibitionBody? && AcctForbids(f.body.prohibition, a, asset, account) {
        var broken := f.body.prohibition.breakGlassException && record.Some? && account.breakGlass
                      && AcctEmergency(facts, a, asset.env);
        if !broken {
          assert AcctStopped(facts, f, a);
          policyAllowed := false;
          break;
        }
      }
    }
    assert facts[..|facts|] == facts;
    assert policyAllowed == !exists f :: f in facts && AcctStopped(facts, f, a);
    assert actorGenuine == ActorGenuine(facts, a);
    CoversSplits(facts, a, asset.env);
    hide AcctStopped, AcctSanctions, ActorGenuine, AcctCovers;
    c := Components(exists f :: f in facts && AcctSanctions(f, a), inScope, actorGenuine, policyAllowed);
  }

  lemma {:induction false} CoversSplits(facts: seq<Fact>, a: Activity, env: string)
    ensures (exists f :: f in facts && AcctCovers(facts, f, a, env)) <==>
            || (exists f :: f in facts && AcctTicketCovers(facts, f, a, env))
            || (exists f :: f in facts && AcctBaselineCovers(f, a))
            || (exists f :: f in facts && AcctRoutine(f, a))
  {
  }

  // ----- coverage on the FIM track

  predicate TypeMatches(s: Scope, change: Option<ChangeKind>) {
    s.changeType == None || s.changeType == Some(AnyChange) || s.changeType == change
  }

  predicate ForPath(matches: Matcher, f: Fact, a: Activity) {
    f.scope.target.Some? && matches(Else(a.path, ""), f.scope.target.value) && TypeMatches(f.scope, a.changeType)
  }

  predicate FimTicketCovers(matches: Matcher, f: Fact, a: Activity) {
    IsGrant(f, ChangeTicket) && GrantOk(f.body.grant) && ForPath(matches, f, a) && InTime(f, a)
  }

  predicate FimBaselineCovers(matches: Matcher, f: Fact, a: Activity) {
    IsGrant(f, StandingBaseline) && ForPath(matches, f, a) && InTime(f, a)
  }

  predicate FimCovers(matches: Matcher, f: Fact, a: Activity) {
    FimTicketCovers(matches, f, a) || FimBaselineCovers(matches, f, a)
  }

  /** Approval only, no board, no time. */
  predicate FimSanctions(matches: Matcher, f: Fact, a: Activity) {
    && ForPath(matches, f, a)
    && ((IsGrant(f, ChangeTicket) && f.body.grant.status == Approved) || IsGrant(f, StandingBaseline))
  }

  predicate FimFrozen(fr: Fact, a: Activity, configClass: string) {
    fr.body.FreezeBody? && ActiveFor(fr.body.freeze, fr.body.freeze.configClasses, configClass, a.time)
  }

  predicate Excepts(f: Fact, fr: Fact) {
    f.body.GrantBody? && fr.body.FreezeBody? && (f.body.grant.freezeException
        || f.id in fr.body.freeze.allowedExceptionIds)
  }

  /** Some covering ticket excepts the freeze. */
  predicate Excepted(matches: Matcher, facts: seq<Fact>, fr: Fact, a: Activity) {
    exists f :: f in facts && FimTicketCovers(matches, f, a) && Excepts(f, fr)
  }

  predicate FimBlocked(matches: Matcher, facts: seq<Fact>, fr: Fact, a: Activity) {
    FimFrozen(fr, a, PathOf(facts, a).configClass) && !Excepted(matches, facts, fr, a)
  }

  function ChangeText(c: Option<ChangeKind>): string {
    match c
    case None => ""
    case Some(Modify) => "modify"
    case Some(Add) => "add"
    case Some(Delete) => "delete"
    case Some(AnyChange) => "any"
  }

  predicate FimForbids(p: Prohibition, a: Activity, configClass: string) {
    && p.priority == High && !p.waiverPresent
    && (Else(p.configClasses, []) != [] ==> configClass in p.configClasses.value)
    && Lists(p.forbidChangeType, ChangeText(a.changeType))
  }

  predicate FimEmergency(matches: Matcher, facts: seq<Fact>, a: Activity) {
    exists f :: f in facts && f.body.GrantBody? && f.body.grant.emergency && FimTicketCovers(matches, f, a)
  }

  predicate FimStopped(matches: Matcher, facts: seq<Fact>, f: Fact, a: Activity) {
    && f.body.ProhibitionBody? && FimForbids(f.body.prohibition, a, PathOf(facts, a).configClass)
    && !(f.body.prohibition.breakGlassException && FimEmergency(matches, facts, a))
  }

  function FimComponents(matches: Matcher, facts: seq<Fact>, a: Activity): Components {
    Components(
      exists f :: f in facts && FimSanctions(matches, f, a),
      (exists f :: f in facts && FimCovers(matches, f, a))
      && !exists fr :: fr in facts && FimBlocked(matches, facts, fr, a),
      !IsCompromised(PathOf(facts, a).compromise),
      !exists f :: f in facts && FimStopped(matches, facts, f, a))
  }

  /** `_fim_components`, step by step. */
  method ComputeFimComponents(matches: Matcher, facts: seq<Fact>, a: Activity) returns (c: Components)
    ensures c == FimComponents(matches, facts, a)
  {
    var wp := PathOf(facts, a);
    hide ResolvedEntity, PathOf, FimForbids, FimTicketCovers, FimBaselineCovers, FimEmergency, Keep, FimFrozen,
         Excepts;

    var sanctioned := false;
    for i := 0 to |facts|
      invariant !sanctioned
      invariant forall f :: f in facts[..i] ==> !FimSanctions(matches, f, a)
    {
      var f := facts[i];
      assert facts[..i + 1] == facts[..i] + [f];
      if ForPath(matches, f, a) {
        if IsGrant(f, ChangeTicket) && f.body.grant.status == Approved {
          assert FimSanctions(matches, f, a);
          sanctioned := true;
          break;
        }
        if IsGrant(f, StandingBaseline) {
          assert FimSanctions(matches, f, a);
          sanctioned := true;
          break;
        }
      }
    }
    assert facts[..|facts|] == facts;

    var coveringTickets := Keep(facts, f => FimTicketCovers(matches, f, a));
    var covered := coveringTickets != [] || exists f :: f in facts && FimBaselineCovers(matches, f, a);
    assert covered <==> exists f :: f in facts && FimCovers(matches, f, a) by {
      if coveringTickets != [] {
        assert coveringTickets[0] in facts && FimCovers(matches, coveringTickets[0], a);
      }
    }
    var inScope := covered;
    if covered {
      for i := 0 to |facts|
        invariant inScope
        invariant forall fr :: fr in facts[..i] ==> !FimBlocked(matches, facts, fr, a)
      {
        var fr := facts[i];
        assert facts[..i + 1] == facts[..i] + [fr];
        if FimFrozen(fr, a, wp.configClass) && !exists f :: f in coveringTickets && Excepts(f, fr) {
          assert FimBlocked(matches, facts, fr, a);
          inScope := false;
          break;
        }
      }
    }

    var policyAllowed := true;
    for i := 0 to |facts|
      invariant policyAllowed
      invariant forall f :: f in facts[..i] ==> !FimStopped(matches, facts, f, a)
    {
      var f := facts[i];
      assert facts[..i + 1] == facts[..i] + [f];
      if f.body.ProhibitionBody? && FimForbids(f.body.prohibition, a, wp.configClass) {
        if !(f.body.prohibition.breakGlassException && FimEmergency(matches, facts, a)) {
          assert FimStopped(matches, facts, f, a);
          policyAllowed := false;
          break;
        }
      }
    }
    assert policyAllowed == !exists f :: f in facts && FimStopped(matches, facts, f, a);
    hide FimStopped, FimBlocked, FimSanctions, FimCovers, IsCompromised;
    c := Components(sanctioned, inScope, !IsCompromised(wp.compromise), policyAllowed);
  }

  // ----- the public surface

  function Evaluate(matches: Matcher, a: Activity, facts: seq<Fact>, tenant: Option<string>): Components {
    var selected := SelectFacts(facts, a.track, tenant);
    if a.track == FimTrack then FimComponents(matches, selected, a) else AccountComponents(selected, a)
  }

  function FindCoveringGrants(matches: Matcher, a: Activity, facts: seq<Fact>, tenant: Option<string>): seq<Fact> {
    var selected := SelectFacts(facts, a.track, tenant);
    if a.track == FimTrack then Keep(selected, f => FimCovers(matches, f, a))
    else Keep(selected, f => AcctCovers(selected, f, a, AssetOf(selected, a).env))
  }

  datatype AuthzClass = Covered | Contradicted | Absent

  function DeriveClass(matches: Matcher, context: Option<Context>): (AuthzClass, Option<Components>) {
    if context == None then (Absent, None)
    else
      var ctx := context.value;
      var selected := SelectFacts(ctx.facts, ctx.activity.track, ctx.tenant);
      if selected == [] then (Absent, None)
      else
        var c := Evaluate(matches, ctx.activity, ctx.facts, ctx.tenant);
        if !c.policyAllowed then (Contradicted, Some(c))
        else if c.inScope then (Covered, Some(c))
        else if exists f :: f in selected && f.body.GrantBody? then (Contradicted, Some(c))
        else (Absent, Some(c))
  }
}
