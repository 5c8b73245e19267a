/**
 Organisation-state rows turned into facts, and the projection to what a deployment without
 change-management records can know (src/soctalk/authorization/adapter.py).

 Rows are typed: `None` stands for a key the row does not have, or for an empty value where the
 source treats both alike.  Rows the fact models reject are not part of this model.
 */
module OrgState {
  import opened Wrappers
  import opened AuthorizationModel
  import opened EntityKey

  datatype Ticket = Ticket(
    id: string, account: string, host: string, action: string, windowStart: Option<nat>, windowEnd: Option<nat>,
    status: Option<GrantStatus>, cabRequired: Option<bool>, cabApproved: Option<bool>, emergency: Option<bool>,
    freezeException: Option<bool>, effectiveFrom: Option<int>, validUntil: int)

  datatype Baseline = Baseline(
    id: string, account: string, host: string, action: string, windowStart: Option<nat>, windowEnd: Option<nat>)

  datatype Observation = Observation(account: string, host: string, action: string, seenCount: Option<int>,
      ioc: Option<bool>)

  datatype Policy = Policy(
    id: string, forbidAction: string, forbidAccountType: Option<AccountKind>, envs: Option<seq<string>>,
    criticalities: Option<seq<string>>, dataClasses: Option<seq<string>>, priority: Option<Priority>,
    waiverPresent: Option<bool>, breakGlassException: Option<bool>)

  datatype FreezeRow = FreezeRow(envs: seq<string>, start: int, end: int, allowedIds: Option<seq<string>>)

  datatype AssetRow = AssetRow(
    name: string, environment: Option<string>, criticality: Option<string>, dataClassification: Option<string>,
    ownerOrg: Option<string>, custodian: Option<string>, compromise: Option<Compromise>, reliability: Option<int>)

  datatype AccountRow = AccountRow(
    name: string, kind: Option<AccountKind>, ownerOrg: Option<string>, privileged: Option<bool>,
    onCall: Option<bool>, breakGlass: Option<bool>, serviceOwner: Option<string>)

  datatype OrgRow = OrgRow(name: string, linkedOrgs: seq<string>)

  datatype AccountState = AccountState(
    host: string, tickets: seq<Ticket>, baselines: seq<Baseline>, observations: seq<Observation>, policies: seq<Policy>,
    freezes: seq<FreezeRow>, assets: seq<AssetRow>, accounts: seq<AccountRow>, compromisedAccounts: seq<string>,
    orgs: seq<OrgRow>)

  datatype ChangeRequest = ChangeRequest(
    id: string, pathGlob: string, changeType: Option<ChangeKind>, windowStart: Option<nat>, windowEnd: Option<nat>,
    status: Option<GrantStatus>, cabRequired: Option<bool>, cabApproved: Option<bool>, emergency: Option<bool>,
    freezeException: Option<bool>, effectiveFrom: Option<int>, validUntil: int)

  datatype ChangeBaseline = ChangeBaseline(
    id: string, pathGlob: string, changeType: Option<ChangeKind>, windowStart: Option<nat>, windowEnd: Option<nat>)

  datatype ChangeFreeze = ChangeFreeze(configClasses: seq<string>, start: int, end: int,
      allowedIds: Option<seq<string>>)

  datatype ChangePolicy = ChangePolicy(
    id: string, forbidChangeType: Option<seq<string>>, forbidToClass: Option<seq<string>>, priority: Option<Priority>,
    waiverPresent: Option<bool>, breakGlassException: Option<bool>)

  datatype PathRow = PathRow(
    path: string, configClass: Option<string>, criticality: Option<string>, environment: Option<string>,
    ownerOrg: Option<string>, approver: Option<string>, compromise: Option<Compromise>, reliability: Option<int>)

  datatype FimState = FimState(
    path: string, changeRequests: seq<ChangeRequest>, baselines: seq<ChangeBaseline>, freezes: seq<ChangeFreeze>,
    policies: seq<ChangePolicy>, paths: seq<PathRow>)

  // ----- one row, one fact

  function WindowOf(start: Option<nat>, end: Option<nat>): Option<Window> {
    if start.Some? && end.Some? then Some(Window(start.value, end.value)) else None
  }

  function Envelope(id: string, track: Track, scope: Scope, trust: int, from: Option<int>, until: Option<int>,
      body: Body): Fact {
    Fact(id, track, None, scope, trust, from, until, None, body)
  }

  /** The grant of a ticket or change request, defaults filled in. */
  function TicketGrant(status: Option<GrantStatus>, cabRequired: Option<bool>, cabApproved: Option<bool>,
      emergency: Option<bool>, freezeException: Option<bool>): Body {
    GrantBody(Grant(ChangeTicket, Else(status, Approved), Else(cabRequired, false), Else(cabApproved, true),
                    Else(emergency, false), Else(freezeException, false), None, None))
  }

  const BASELINE_GRANT := GrantBody(Grant(StandingBaseline, Approved, false, true, false, false, None, None))

  function TicketFact(t: Ticket): Fact {
    var window := WindowOf(t.windowStart, t.windowEnd);
    Envelope(t.id, AccountTrack, Scope(Some(t.account), Some(t.host), Some(t.action), None, window),
             SYSTEM_TRUST, t.effectiveFrom, Some(t.validUntil),
             TicketGrant(t.status, t.cabRequired, t.cabApproved, t.emergency, t.freezeException))
  }

  function BaselineFact(b: Baseline): Fact {
    var window := WindowOf(b.windowStart, b.windowEnd);
    Envelope(b.id, AccountTrack, Scope(Some(b.account), Some(b.host), Some(b.action), None, window),
             SYSTEM_TRUST, None, None, BASELINE_GRANT)
  }

  function ObservationFact(i: nat, o: Observation): Fact {
    Envelope("OBS-" + NatText(i), AccountTrack, Scope(Some(o.account), Some(o.host), Some(o.action), None, None),
             TELEMETRY_TRUST, None, None,
             GrantBody(Grant(RoutineObservation, Approved, false, true, false, false,
                             Some(Else(o.seenCount, 0)), Some(Else(o.ioc, false)))))
  }

  function PolicyFact(p: Policy): Fact {
    var prohibition := Prohibition(
      Some(p.forbidAction), None, p.forbidAccountType, p.envs, p.criticalities, p.dataClasses, None,
      Else(p.priority, High), Else(p.waiverPresent, false), Else(p.breakGlassException, false));
    Envelope(p.id, AccountTrack, ANYWHERE, SYSTEM_TRUST, None, None, ProhibitionBody(prohibition))
  }

  function FreezeFact(i: nat, fr: FreezeRow): Fact {
    Envelope("FRZ-" + NatText(i), AccountTrack, ANYWHERE, SYSTEM_TRUST, None, None,
             FreezeBody(Freeze(fr.envs, [], fr.start, fr.end, Else(fr.allowedIds, []))))
  }

  const BLANK := Entity(Asset, "", None, None, None, None, None, None, None, None, None, None, None, None, None, None)

  function AssetFact(i: nat, a: AssetRow): Fact {
    var entity := BLANK.(
      kind := Asset, name := a.name, environment := a.environment, criticality := a.criticality,
      dataClassification := a.dataClassification, ownerOrg := a.ownerOrg, custodianAccount := a.custodian,
      compromise := a.compromise);
    Envelope("ENT-A" + NatText(i), AccountTrack, ANYWHERE, Else(a.reliability, 100), None, None, EntityBody(entity))
  }

  function AccountRowFact(i: nat, a: AccountRow, compromised: seq<string>): Fact {
    var entity := BLANK.(
      kind := Account, name := a.name, accountType := a.kind, ownerOrg := a.ownerOrg, privileged := a.privileged,
      onCall := a.onCall, breakGlass := a.breakGlass, serviceOwner := a.serviceOwner,
      compromise := if a.name in compromised then Some(Compromised) else None);
    Envelope("ENT-U" + NatText(i), AccountTrack, ANYWHERE, SYSTEM_TRUST, None, None, EntityBody(entity))
  }

  function CompromisedFact(i: nat, name: string): Fact {
    var entity := BLANK.(kind := Account, name := name, compromise := Some(Compromised));
    Envelope("ENT-C" + NatText(i), AccountTrack, ANYWHERE, SYSTEM_TRUST, None, None, EntityBody(entity))
  }

  function OrgFact(i: nat, o: OrgRow): Fact {
    var entity := BLANK.(kind := Org, name := o.name, linkedOrgs := Some(o.linkedOrgs));
    Envelope("ENT-O" + NatText(i), AccountTrack, ANYWHERE, SYSTEM_TRUST, None, None, EntityBody(entity))
  }

  function RequestFact(c: ChangeRequest): Fact {
    var change, window := Else(c.changeType, AnyChange), WindowOf(c.windowStart, c.windowEnd);
    Envelope(c.id, FimTrack, Scope(None, Some(c.pathGlob), None, Some(change), window),
             SYSTEM_TRUST, c.effectiveFrom, Some(c.validUntil),
             TicketGrant(c.status, c.cabRequired, c.cabApproved, c.emergency, c.freezeException))
  }

  function ChangeBaselineFact(b: ChangeBaseline): Fact {
    var change, window := Else(b.changeType, AnyChange), WindowOf(b.windowStart, b.windowEnd);
    Envelope(b.id, FimTrack, Scope(None, Some(b.pathGlob), None, Some(change), window),
             SYSTEM_TRUST, None, None, BASELINE_GRANT)
  }

  function ChangeFreezeFact(i: nat, fr: ChangeFreeze): Fact {
    Envelope("FRZ-" + NatText(i), FimTrack, ANYWHERE, SYSTEM_TRUST, None, None,
             FreezeBody(Freeze([], fr.configClasses, fr.start, fr.end, Else(fr.allowedIds, []))))
  }

  function ChangePolicyFact(p: ChangePolicy): Fact {
    var prohibition := Prohibition(
      None, p.forbidChangeType, None, None, None, None, Some(Else(p.forbidToClass, [])),
      Else(p.priority, High), Else(p.waiverPresent, false), Else(p.breakGlassException, false));
    Envelope(p.id, FimTrack, ANYWHERE, SYSTEM_TRUST, None, None, ProhibitionBody(prohibition))
  }

  function PathFact(i: nat, p: PathRow): Fact {
    var entity := BLANK.(
      kind := WatchedPath, name := p.path, configClass := p.configClass, criticality := p.criticality,
      environment := p.environment, ownerOrg := p.ownerOrg, approver := p.approver, compromise := p.compromise);
    Envelope("ENT-P" + NatText(i), FimTrack, ANYWHERE, Else(p.reliability, 100), None, None, EntityBody(entity))
  }

  // ----- all rows

  function Map<S, T>(rows: seq<S>, f: S -> T): (facts: seq<T>)
    ensures |facts| == |rows| && forall i :: 0 <= i < |rows| ==> facts[i] == f(rows[i])
  {
    seq(|rows|, i requires 0 <= i < |rows| => f(rows[i]))
  }

  function MapIndexed<S, T>(rows: seq<S>, f: (nat, S) -> T): (facts: seq<T>)
    ensures |facts| == |rows| && forall i :: 0 <= i < |rows| ==> facts[i] == f(i, rows[i])
  {
    seq(|rows|, i requires 0 <= i < |rows| => f(i, rows[i]))
  }

  /** The compromised names without an account row, in order. */
  function Unlisted(names: seq<string>, accounts: seq<AccountRow>): (rest: seq<string>)
    ensures forall n :: n in rest <==> n in names && !exists a :: a in accounts && a.name == n
  {
    if names == [] then []
    else
      var last := names[|names| - 1];
      assert names == names[..|names| - 1] + [last];
      Unlisted(names[..|names| - 1], accounts) + (if exists a :: a in accounts && a.name == last then [] else [last])
  }

  /** The facts of the organisation rows; rows without links give none, but keep their number. */
  function OrgFacts(orgs: seq<OrgRow>): seq<Fact> {
    if orgs == [] then []
    else
      var i := |orgs| - 1;
      OrgFacts(orgs[..i]) + (if orgs[i].linkedOrgs == [] then [] else [OrgFact(i, orgs[i])])
  }

  function AccountGrants(org: AccountState): seq<Fact> {
    Map(org.tickets, TicketFact) + Map(org.baselines, BaselineFact) + MapIndexed(org.observations, ObservationFact)
  }

  function AccountBlocks(org: AccountState): seq<Fact> {
    Map(org.policies, PolicyFact) + MapIndexed(org.freezes, FreezeFact)
  }

  function AccountEntities(org: AccountState): seq<Fact> {
    MapIndexed(org.assets, AssetFact)
    + MapIndexed(org.accounts, (i, a) => AccountRowFact(i, a, org.compromisedAccounts))
    + MapIndexed(Unlisted(org.compromisedAccounts, org.accounts), CompromisedFact)
    + OrgFacts(org.orgs)
  }

  function AccountFacts(org: AccountState): seq<Fact> {
    AccountGrants(org) + AccountBlocks(org) + AccountEntities(org)
  }

  function FimFacts(org: FimState): seq<Fact> {
    Map(org.changeRequests, RequestFact) + Map(org.baselines, ChangeBaselineFact)
    + MapIndexed(org.freezes, ChangeFreezeFact) + Map(org.policies, ChangePolicyFact) + MapIndexed(org.paths, PathFact)
  }

  // ----- the loops that build them

  method GrantsOf(org: AccountState) returns (facts: seq<Fact>)
    ensures facts == AccountGrants(org)
  {
    hide TicketFact, BaselineFact, ObservationFact;
    facts := [];
    for i := 0 to |org.tickets|
      invariant facts == Map(org.tickets[..i], TicketFact)
    {
      facts := facts + [TicketFact(org.tickets[i])];
    }
    assert org.tickets[..|org.tickets|] == org.tickets;
    for i := 0 to |org.baselines|
      invariant facts == Map(org.tickets, TicketFact) + Map(org.baselines[..i], BaselineFact)
    {
      facts := facts + [BaselineFact(org.baselines[i])];
    }
    assert org.baselines[..|org.baselines|] == org.baselines;
    for i := 0 to |org.observations|
      invariant facts == Map(org.tickets, TicketFact) + Map(org.baselines, BaselineFact)
                         + MapIndexed(org.observations[..i], ObservationFact)
    {
      facts := facts + [ObservationFact(i, org.observations[i])];
    }
    assert org.observations[..|org.observations|] == org.observations;
  }

  method BlocksOf(org: AccountState) returns (facts: seq<Fact>)
    ensures facts == AccountBlocks(org)
  {
    facts := [];
    for i := 0 to |org.policies|
      invariant facts == Map(org.policies[..i], PolicyFact)
    {
      facts := facts + [PolicyFact(org.policies[i])];
    }
    assert org.policies[..|org.policies|] == org.policies;
    for i := 0 to |org.freezes|
      invariant facts == Map(org.policies, PolicyFact) + MapIndexed(org.freezes[..i], FreezeFact)
    {
      facts := facts + [FreezeFact(i, org.freezes[i])];
    }
    assert org.freezes[..|org.freezes|] == org.freezes;
  }

  method EntitiesOf(org: AccountState) returns (facts: seq<Fact>)
    ensures facts == AccountEntities(org)
  {
    hide AssetFact, AccountRowFact, CompromisedFact, OrgFact, Unlisted;
    facts := [];
    for i := 0 to |org.assets|
      invariant facts == MapIndexed(org.assets[..i], AssetFact)
    {
      facts := facts + [AssetFact(i, org.assets[i])];
    }
    assert org.assets[..|org.assets|] == org.assets;
    var compromised := org.compromisedAccounts;
    ghost var done := facts;
    for i := 0 to |org.accounts|
      invariant facts == done + MapIndexed(org.accounts[..i], (i, a) => AccountRowFact(i, a, compromised))
    {
      facts := facts + [AccountRowFact(i, org.accounts[i], compromised)];
    }
    assert org.accounts[..|org.accounts|] == org.accounts;
    done := facts;
    var unlisted := Unlisted(compromised, org.accounts);
    for i := 0 to |unlisted|
      invariant facts == done + MapIndexed(unlisted[..i], CompromisedFact)
    {
      facts := facts + [CompromisedFact(i, unlisted[i])];
    }
    assert unlisted[..|unlisted|] == unlisted;
    done := facts;
    for i := 0 to |org.orgs|
      invariant facts == done + OrgFacts(org.orgs[..i])
    {
      assert org.orgs[..i + 1][..i] == org.orgs[..i];
      if org.orgs[i].linkedOrgs != [] {
        facts := facts + [OrgFact(i, org.orgs[i])];
      }
    }
    assert org.orgs[..|org.orgs|] == org.orgs;
  }

  /** `facts_from_account_org_state`. */
  method FactsFromAccountState(org: AccountState) returns (facts: seq<Fact>)
    ensures facts == AccountFacts(org)
  {
    facts := GrantsOf(org);
    var blocks := BlocksOf(org);
    var entities := EntitiesOf(org);
    facts := facts + blocks + entities;
  }

  /** `facts_from_fim_org_state`. */
  method FactsFromFimState(org: FimState) returns (facts: seq<Fact>)
    ensures facts == FimFacts(org)
  {
    hide RequestFact, ChangeBaselineFact, ChangeFreezeFact, ChangePolicyFact, PathFact;
    facts := [];
    for i := 0 to |org.changeRequests|
      invariant facts == Map(org.changeRequests[..i], RequestFact)
    {
      facts := facts + [RequestFact(org.changeRequests[i])];
    }
    assert org.changeRequests[..|org.changeRequests|] == org.changeRequests;
    ghost var done := facts;
    for i := 0 to |org.baselines|
      invariant facts == done + Map(org.baselines[..i], ChangeBaselineFact)
    {
      facts := facts + [ChangeBaselineFact(org.baselines[i])];
    }
    assert org.baselines[..|org.baselines|] == org.baselines;
    done := facts;
    for i := 0 to |org.freezes|
      invariant facts == done + MapIndexed(org.freezes[..i], ChangeFreezeFact)
    {
      facts := facts + [ChangeFreezeFact(i, org.freezes[i])];
    }
    assert org.freezes[..|org.freezes|] == org.freezes;
    done := facts;
    for i := 0 to |org.policies|
      invariant facts == done + Map(org.policies[..i], ChangePolicyFact)
    {
      facts := facts + [ChangePolicyFact(org.policies[i])];
    }
    assert org.policies[..|org.policies|] == org.policies;
    done := facts;
    for i := 0 to |org.paths|
      invariant facts == done + MapIndexed(org.paths[..i], PathFact)
    {
      facts := facts + [PathFact(i, org.paths[i])];
    }
    assert org.paths[..|org.paths|] == org.paths;
  }

  // ----- the stackless projection

  function StacklessAccount(org: AccountState): AccountState {
    AccountState(
      org.host, [], [], org.observations, [], [],
      Map(org.assets, (a: AssetRow) =>
        AssetRow(a.name, None, None, None, None, None,
                 Some(Else(a.compromise, Clean)), Some(Else(a.reliability, 100)))),
      Map(org.accounts, (a: AccountRow) => AccountRow(a.name, a.kind, None, None, None, None, None)),
      org.compromisedAccounts, [])
  }

  function StacklessFim(org: FimState): FimState {
    FimState(
      org.path, [], [], [], [],
      Map(org.paths, (p: PathRow) =>
        PathRow(p.path, None, None, None, None, None, Some(Else(p.compromise, Clean)), Some(Else(p.reliability, 100)))))
  }
}
