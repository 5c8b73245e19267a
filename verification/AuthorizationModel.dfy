/**
 The authorization facts and activities (src/soctalk/models/authorization.py).

 Times are microseconds in UTC, and an activity keeps the offset its time was given in; a recurring
 window holds its two ends as minutes of the day.
 Only what the evaluator or the entity tiebreak reads is kept of a fact: provenance, creation
 and review stamps are not part of this model.  Facts are taken as the validators leave them.
 */
module AuthorizationModel {
  import opened Wrappers

  datatype Track = AccountTrack | FimTrack

  datatype GrantClass = ChangeTicket | StandingBaseline | RoutineObservation

  datatype GrantStatus = Approved | Pending | Rejected

  datatype Priority = High | Medium | Low

  datatype AccountKind = Service | Person

  datatype EntityKind = Asset | Account | WatchedPath | Org

  datatype ChangeKind = Modify | Add | Delete | AnyChange

  datatype Compromise = Clean | Suspected | Compromised | Contained

  datatype Window = Window(start: nat, end: nat)

  datatype Scope = Scope(
    subject: Option<string>, target: Option<string>, action: Option<string>,
    changeType: Option<ChangeKind>, window: Option<Window>)

  const ANYWHERE := Scope(None, None, None, None, None)

  datatype Grant = Grant(
    grantClass: GrantClass, status: GrantStatus, cabRequired: bool, cabApproved: bool,
    emergency: bool, freezeException: bool, seenCount: Option<int>, ioc: Option<bool>)

  /** For `envs`, `criticalities` and `dataClasses`, None means any and [] nowhere; for `configClasses`
      both mean any; for `forbidChangeType`, None means any and [] none. */
  datatype Prohibition = Prohibition(
    forbidAction: Option<string>, forbidChangeType: Option<seq<string>>, forbidAccountType: Option<AccountKind>,
    envs: Option<seq<string>>, criticalities: Option<seq<string>>, dataClasses: Option<seq<string>>,
    configClasses: Option<seq<string>>,
    priority: Priority, waiverPresent: bool, breakGlassException: bool)

  datatype Freeze = Freeze(envs: seq<string>, configClasses: seq<string>, start: int, end: int,
      allowedExceptionIds: seq<string>)

  datatype Entity = Entity(
    kind: EntityKind, name: string,
    environment: Option<string>, criticality: Option<string>, dataClassification: Option<string>,
    configClass: Option<string>, ownerOrg: Option<string>, custodianAccount: Option<string>,
    approver: Option<string>, serviceOwner: Option<string>, accountType: Option<AccountKind>,
    privileged: Option<bool>, onCall: Option<bool>, breakGlass: Option<bool>,
    compromise: Option<Compromise>, linkedOrgs: Option<seq<string>>)

  datatype Body =
    | GrantBody(grant: Grant)
    | ProhibitionBody(prohibition: Prohibition)
    | FreezeBody(freeze: Freeze)
    | EntityBody(entity: Entity)

  datatype Fact = Fact(
    id: string, track: Track, tenant: Option<string>, scope: Scope, trust: int,
    validFrom: Option<int>, validUntil: Option<int>, supersededBy: Option<string>, body: Body)

  datatype Activity = Activity(
    track: Track, host: Option<string>, account: Option<string>, action: Option<string>,
    path: Option<string>, changeType: Option<ChangeKind>, time: int, offset: int, interactive: bool)

  datatype Components = Components(sanctionedOrRoutine: bool, inScope: bool, actorGenuine: bool, policyAllowed: bool)

  datatype Context = Context(tenant: Option<string>, activity: Activity, facts: seq<Fact>)

  // ----- trust per source

  const TELEMETRY_TRUST := 40
  const ANALYST_TRUST := 60
  const SYSTEM_TRUST := 80

  /** `x or default`, `None` standing for the missing value. */
  function Else<T>(x: Option<T>, default: T): T {
    if x.Some? then x.value else default
  }
}
