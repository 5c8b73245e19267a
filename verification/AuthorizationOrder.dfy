/**
 The evaluator does not depend on the order, the repetition or the presence of inert facts
 (src/soctalk/authorization/engine.py: `_select`, `_resolved_entity`, `entity_resolution_key`,
 `evaluate_authorization`, `derive_authz_class`).
 */
module AuthorizationOrder {
  import opened Wrappers
  import opened AuthorizationModel
  import opened EntityKey
  import opened AuthorizationEngine

  // ----- the greatest record

  lemma {:induction false} LessTransitive(a: Record, b: Record, c: Record)
    requires Less(a, b) && Less(b, c)
    ensures Less(a, c)
  {
    hide KeyText, TextLess;
    if a.trust == b.trust && b.trust == c.trust {
      TextLessTransitive(KeyText(a.entity, a.trust), KeyText(b.entity, b.trust), KeyText(c.entity, c.trust));
    }
  }

  lemma {:induction false} LessIrreflexive(a: Record, b: Record)
    ensures !Less(a, a) && !(Less(a, b) && Less(b, a))
    ensures Less(a, b) || Less(b, a) || (a.trust == b.trust && KeyText(a.entity, a.trust) == KeyText(b.entity, b.trust))
  {
    hide KeyText, TextLess;
    TextLessTotal(KeyText(a.entity, a.trust), KeyText(b.entity, b.trust));
    TextLessTotal(KeyText(a.entity, a.trust), KeyText(a.entity, a.trust));
  }

  lemma {:induction false} MaxIsGreatest(rs: seq<Record>, r: Record)
    requires r in rs
    ensures !Less(Max(rs), r)
  {
    var init, last := rs[..|rs| - 1], rs[|rs| - 1];
    assert rs == init + [last];
    LessIrreflexive(last, last);
    hide Less;
    if init != [] {
      var m := Max(init);
      if r in init {
        MaxIsGreatest(init, r);
        if Less(m, last) && Less(last, r) {
          LessTransitive(m, last, r);
        }
      }
    }
  }

  /** `max` by trust, then by key: of all facts about the entity, none has more trust than the record that
      speaks for it, and none of the same trust a key text that comes after its key text; and the record is
      that of one of them. */
  lemma {:induction false} GreatestSpeaks(facts: seq<Fact>, kind: EntityKind, name: string, f: Fact)
    requires f in facts && f.body.EntityBody? && f.body.entity.kind == kind && f.body.entity.name == name
    ensures var r := ResolvedEntity(facts, kind, name);
      && r.Some? && r.value.entity.kind == kind && r.value.entity.name == name
      && (exists g :: g in facts && g.body == EntityBody(r.value.entity) && g.trust == r.value.trust)
      && (|| f.trust < r.value.trust
          || (&& f.trust == r.value.trust
              && !TextLess(KeyText(r.value.entity, r.value.trust), KeyText(f.body.entity, f.trust))))
  {
    var rs, s := Matching(facts, kind, name), Record(f.trust, f.body.entity);
    assert IsRecordOf(f, s);
    RecordsMembers(facts, s);
    MaxIsGreatest(rs, s);
    RecordsMembers(facts, Max(rs));
    hide Records, KeyText, TextLess, Max;
    var g :| g in facts && IsRecordOf(g, Max(rs));
  }

  /** The same among the account's records of known type; the others never speak. */
  lemma {:induction false} GreatestAccountSpeaks(facts: seq<Fact>, name: string, f: Fact)
    requires f in facts && f.body.EntityBody? && f.body.entity.kind == Account && f.body.entity.name == name
             && f.body.entity.accountType.Some?
    ensures var r := AccountFact(facts, name);
      && r.Some? && r.value.entity.kind == Account && r.value.entity.name == name && r.value.entity.accountType.Some?
      && (exists g :: g in facts && g.body == EntityBody(r.value.entity) && g.trust == r.value.trust)
      && (|| f.trust < r.value.trust
          || (&& f.trust == r.value.trust
              && !TextLess(KeyText(r.value.entity, r.value.trust), KeyText(f.body.entity, f.trust))))
  {
    var rs, s := TypedAccounts(facts, name), Record(f.trust, f.body.entity);
    assert IsRecordOf(f, s);
    RecordsMembers(facts, s);
    MaxIsGreatest(rs, s);
    RecordsMembers(facts, Max(rs));
    hide Records, KeyText, TextLess, Max;
    var g :| g in facts && IsRecordOf(g, Max(rs));
  }

  /** A conflict between two records of one asset that are alike in trust and in all but the owner: the record
      with the greater owner speaks. */
  lemma {:induction false} GreaterOwnerSpeaks(facts: seq<Fact>, e: Entity, trust: int, p: string, c: char, d: char,
      u: string, v: string)
    requires e.kind == Asset && e.ownerOrg == Some(p + [c] + u) && Unescaped(c) && Unescaped(d) && c < d
    requires var f := e.(ownerOrg := Some(p + [d] + v));
      && (exists g :: g in facts && g.body == EntityBody(f) && g.trust == trust)
      && forall g: Fact ::
           g in facts && g.body.EntityBody? && g.body.entity.kind == Asset && g.body.entity.name == e.name ==>
             g.trust == trust && (g.body.entity == e || g.body.entity == f)
    ensures ResolvedEntity(facts, Asset, e.name) == Some(Record(trust, e.(ownerOrg := Some(p + [d] + v))))
  {
    var f := e.(ownerOrg := Some(p + [d] + v));
    var g :| g in facts && g.body == EntityBody(f) && g.trust == trust;
    GreatestSpeaks(facts, Asset, e.name, g);
    GreaterOwnerText(e, f, trust, p, c, d, u, v);
    hide ResolvedEntity, KeyText, TextLess;
  }

  /** Whatever the order, the greatest records tie. */
  lemma {:induction false} GreatestTie(rs: seq<Record>, ss: seq<Record>)
    requires rs != [] && ss != [] && forall r :: r in rs <==> r in ss
    ensures Max(rs).trust == Max(ss).trust
    ensures KeyText(Max(rs).entity, Max(rs).trust) == KeyText(Max(ss).entity, Max(ss).trust)
  {
    hide Less, Max, KeyText;
    MaxIsGreatest(rs, Max(ss));
    MaxIsGreatest(ss, Max(rs));
    LessIrreflexive(Max(rs), Max(ss));
  }

  // ----- tied records read alike

  lemma {:induction false} CompromiseTextIsInjective(c: Compromise, d: Compromise)
    requires CompromiseText(c) == CompromiseText(d)
    ensures c == d
  {
  }

  predicate Tied(r: Record, s: Record) {
    r.entity.kind == s.entity.kind && r.trust == s.trust && KeyText(r.entity, r.trust) == KeyText(s.entity, s.trust)
  }

  lemma {:induction false} FieldsInOrder()
    ensures (Environment, Text("prod")) in KeyOrder(Asset) && (Criticality, Text("medium")) in KeyOrder(Asset)
         && (DataClassification, Text("none")) in KeyOrder(Asset) && (OwnerOrg, Text("")) in KeyOrder(Asset)
         && (CompromiseStatus, Text("clean")) in KeyOrder(Asset)
    ensures (ConfigClass, Text("app")) in KeyOrder(WatchedPath)
            && (CompromiseStatus, Text("clean")) in KeyOrder(WatchedPath)
    ensures (AccountType, Text("")) in KeyOrder(Account) && (OwnerOrg, Text("")) in KeyOrder(Account)
         && (Privileged, Flag(false)) in KeyOrder(Account) && (BreakGlass, Flag(false)) in KeyOrder(Account)
         && (OnCall, Flag(true)) in KeyOrder(Account)
    ensures (LinkedOrgs, Texts([])) in KeyOrder(Org)
  {
  }

  lemma {:induction false} SlotAgrees(r: Record, s: Record, slot: (Field, Json))
    requires Tied(r, s) && slot in KeyOrder(r.entity.kind)
    ensures Canonical(r.entity, slot) == Canonical(s.entity, slot)
  {
    hide KeyText, KeyOrder, Canonical;
    EqualKeysAgree(r.entity, s.entity, r.trust);
  }

  lemma {:induction false} TiedAssetsReadAlike(r: Record, s: Record)
    requires Tied(r, s) && r.entity.kind == Asset
    ensures AssetAttributes(Some(r)) == AssetAttributes(Some(s))
  {
    hide Tied, CompromiseText, KeyOrder;
    var e, f := r.entity, s.entity;
    FieldsInOrder();
    CompromiseDefault();
    SlotAgrees(r, s, (Environment, Text("prod")));
    SlotAgrees(r, s, (Criticality, Text("medium")));
    SlotAgrees(r, s, (DataClassification, Text("none")));
    SlotAgrees(r, s, (OwnerOrg, Text("")));
    SlotAgrees(r, s, (CompromiseStatus, Text("clean")));
    CompromiseTextIsInjective(Else(e.compromise, Clean), Else(f.compromise, Clean));
  }

  lemma {:induction false} CompromiseDefault()
    ensures CompromiseText(Clean) == "clean"
  {
  }

  lemma {:induction false} TiedPathsReadAlike(r: Record, s: Record)
    requires Tied(r, s) && r.entity.kind == WatchedPath
    ensures PathAttributes(Some(r)) == PathAttributes(Some(s))
  {
    hide Tied, CompromiseText, KeyOrder;
    var e, f := r.entity, s.entity;
    FieldsInOrder();
    CompromiseDefault();
    SlotAgrees(r, s, (ConfigClass, Text("app")));
    SlotAgrees(r, s, (CompromiseStatus, Text("clean")));
    CompromiseTextIsInjective(Else(e.compromise, Clean), Else(f.compromise, Clean));
  }

  lemma {:induction false} TiedAccountsReadAlike(r: Record, s: Record)
    requires Tied(r, s) && r.entity.kind == Account && r.entity.accountType.Some? && s.entity.accountType.Some?
    ensures AccountAttributes(Some(r)) == AccountAttributes(Some(s))
  {
    hide Tied, KeyOrder, AccountKindText;
    var e, f := r.entity, s.entity;
    FieldsInOrder();
    SlotAgrees(r, s, (AccountType, Text("")));
    SlotAgrees(r, s, (OwnerOrg, Text("")));
    SlotAgrees(r, s, (Privileged, Flag(false)));
    SlotAgrees(r, s, (BreakGlass, Flag(false)));
    SlotAgrees(r, s, (OnCall, Flag(true)));
    AccountKindTextIsInjective(e.accountType.value, f.accountType.value);
  }

  lemma {:induction false} AccountKindTextIsInjective(k: AccountKind, l: AccountKind)
    requires AccountKindText(k) == AccountKindText(l)
    ensures k == l
  {
  }

  lemma {:induction false} TiedOrgsReadAlike(r: Record, s: Record)
    requires Tied(r, s) && r.entity.kind == Org
    ensures OrgLinks(Some(r)) == OrgLinks(Some(s))
  {
    hide Tied, KeyOrder;
    var e, f := r.entity, s.entity;
    FieldsInOrder();
    SlotAgrees(r, s, (LinkedOrgs, Texts([])));
  }

  // ----- lists with the same entity facts

  ghost predicate SameEntities(a: seq<Fact>, b: seq<Fact>) {
    forall f: Fact :: f.body.EntityBody? ==> (f in a <==> f in b)
  }

  lemma {:induction false} SameRecords(a: seq<Fact>, b: seq<Fact>)
    requires SameEntities(a, b)
    ensures forall r :: r in Records(a) <==> r in Records(b)
  {
    forall r ensures r in Records(a) <==> r in Records(b) {
      RecordsMembers(a, r);
      RecordsMembers(b, r);
    }
  }

  lemma {:induction false} EmptyAlike<T>(a: seq<T>, b: seq<T>)
    requires forall x :: x in a <==> x in b
    ensures a == [] <==> b == []
  {
    assert a != [] ==> a[0] in b;
    assert b != [] ==> b[0] in a;
  }

  /** Both resolve to nothing, or to tied records. */
  predicate Alike(x: Option<Record>, y: Option<Record>, kind: EntityKind) {
    x.Some? == y.Some? && (x.Some? ==> Tied(x.value, y.value) && x.value.entity.kind == kind)
  }

  lemma {:induction false} ResolvedTie(a: seq<Fact>, b: seq<Fact>, kind: EntityKind, name: string)
    requires SameEntities(a, b)
    ensures Alike(ResolvedEntity(a, kind, name), ResolvedEntity(b, kind, name), kind)
  {
    SameRecords(a, b);
    hide SameEntities, Records, Max, KeyText, KeepRecords;
    var rs, ss := Matching(a, kind, name), Matching(b, kind, name);
    assert forall r :: r in rs <==> r in ss;
    EmptyAlike(rs, ss);
    if rs != [] {
      GreatestTie(rs, ss);
    }
  }

  lemma {:induction false} AccountTie(a: seq<Fact>, b: seq<Fact>, name: string)
    requires SameEntities(a, b)
    ensures Alike(AccountFact(a, name), AccountFact(b, name), Account)
    ensures var x, y := AccountFact(a, name), AccountFact(b, name);
      x.Some? ==> x.value.entity.accountType.Some? && y.value.entity.accountType.Some?
  {
    SameRecords(a, b);
    hide SameEntities, Records, Max, KeyText, KeepRecords;
    var rs, ss := TypedAccounts(a, name), TypedAccounts(b, name);
    assert forall r :: r in rs <==> r in ss;
    EmptyAlike(rs, ss);
    if rs != [] {
      GreatestTie(rs, ss);
    }
  }

  lemma {:induction false} CompromisedAgree(a: seq<Fact>, b: seq<Fact>, name: string)
    requires SameEntities(a, b)
    ensures AccountCompromised(a, name) == AccountCompromised(b, name)
  {
  }

  /** Whoever asks about an entity gets the same answer from both lists. */
  ghost predicate SpeakAlike(a: seq<Fact>, b: seq<Fact>) {
    && (forall kind, name :: Alike(ResolvedEntity(a, kind, name), ResolvedEntity(b, kind, name), kind))
    && (forall name :: AccountAttributes(AccountFact(a, name)) == AccountAttributes(AccountFact(b, name)))
    && (forall name :: AccountCompromised(a, name) == AccountCompromised(b, name))
  }

  lemma {:induction false} AlikeAccounts(x: Option<Record>, y: Option<Record>)
    requires Alike(x, y, Account) && (x.Some? ==> x.value.entity.accountType.Some? && y.value.entity.accountType.Some?)
    ensures AccountAttributes(x) == AccountAttributes(y)
  {
    hide AccountAttributes, Tied;
    if x.Some? {
      TiedAccountsReadAlike(x.value, y.value);
    }
  }

  lemma {:induction false} SameEntitiesSpeakAlike(a: seq<Fact>, b: seq<Fact>)
    requires SameEntities(a, b)
    ensures SpeakAlike(a, b)
  {
    hide SameEntities, Alike, ResolvedEntity, AccountFact, AccountCompromised, AccountAttributes;
    forall kind, name ensures Alike(ResolvedEntity(a, kind, name), ResolvedEntity(b, kind, name), kind) {
      ResolvedTie(a, b, kind, name);
    }
    forall name ensures AccountAttributes(AccountFact(a, name)) == AccountAttributes(AccountFact(b, name)) {
      AccountTie(a, b, name);
      AlikeAccounts(AccountFact(a, name), AccountFact(b, name));
    }
    forall name ensures AccountCompromised(a, name) == AccountCompromised(b, name) {
      CompromisedAgree(a, b, name);
    }
  }

  // ----- what the evaluator sees of the entities

  ghost predicate SameViews(a: seq<Fact>, b: seq<Fact>, act: Activity) {
    && AssetOf(a, act) == AssetOf(b, act) && AccountOf(a, act) == AccountOf(b, act) && PathOf(a, act) == PathOf(b, act)
    && Linked(a, act) == Linked(b, act) && ActorGenuine(a, act) == ActorGenuine(b, act)
  }

  lemma {:induction false} AlikeAttributes(x: Option<Record>, y: Option<Record>, kind: EntityKind)
    requires Alike(x, y, kind)
    ensures kind == Asset ==> AssetAttributes(x) == AssetAttributes(y)
    ensures kind == WatchedPath ==> PathAttributes(x) == PathAttributes(y)
    ensures kind == Org ==> OrgLinks(x) == OrgLinks(y)
  {
    hide AssetAttributes, PathAttributes, OrgLinks, Tied;
    if x.Some? {
      match kind
      case Asset => TiedAssetsReadAlike(x.value, y.value);
      case WatchedPath => TiedPathsReadAlike(x.value, y.value);
      case Org => TiedOrgsReadAlike(x.value, y.value);
      case Account =>
    }
  }

  lemma {:induction false} OrgLinkedAgree(a: seq<Fact>, b: seq<Fact>, x: string, y: string)
    requires SpeakAlike(a, b)
    ensures OrgLinked(a, x, y) == OrgLinked(b, x, y)
  {
    AlikeAttributes(ResolvedEntity(a, Org, x), ResolvedEntity(b, Org, x), Org);
    AlikeAttributes(ResolvedEntity(a, Org, y), ResolvedEntity(b, Org, y), Org);
    hide SpeakAlike, ResolvedEntity, OrgLinks;
  }

  /** Lists that speak alike show the evaluator the same asset, account, path, links and actor. */
  lemma {:induction false} ViewsOfAlike(a: seq<Fact>, b: seq<Fact>, act: Activity)
    requires SpeakAlike(a, b)
    ensures SameViews(a, b, act)
  {
    hide ResolvedEntity, AccountFact, Alike, AssetAttributes, PathAttributes, AccountAttributes, OrgLinks,
         IsCompromised, AccountCompromised, OrgLinked;
    AlikeAttributes(ResolvedEntity(a, Asset, Else(act.host, "")), ResolvedEntity(b, Asset, Else(act.host, "")), Asset);
    AlikeAttributes(ResolvedEntity(a, WatchedPath, Else(act.path, "")),
        ResolvedEntity(b, WatchedPath, Else(act.path, "")), WatchedPath);
    assert AccountOf(a, act) == AccountOf(b, act);
    assert AccountCompromised(a, Else(act.account, "")) == AccountCompromised(b, Else(act.account, ""));
    OrgLinkedAgree(a, b, AccountOf(a, act).org, AssetOf(a, act).org);
    hide SpeakAlike;
  }

  lemma {:induction false} ViewsAgree(a: seq<Fact>, b: seq<Fact>, act: Activity)
    requires SameEntities(a, b)
    ensures SameViews(a, b, act)
  {
    SameEntitiesSpeakAlike(a, b);
    ViewsOfAlike(a, b, act);
  }

  // ----- lists with the same facts

  ghost predicate SameFacts(a: seq<Fact>, b: seq<Fact>) {
    forall f :: f in a <==> f in b
  }

  /** Two lists with the same grants, prohibitions and freezes. */
  ghost predicate SameRules(a: seq<Fact>, b: seq<Fact>) {
    forall f: Fact :: !f.body.EntityBody? ==> (f in a <==> f in b)
  }

  ghost predicate SameFreezes(a: seq<Fact>, b: seq<Fact>) {
    forall f: Fact :: f.body.FreezeBody? ==> (f in a <==> f in b)
  }

  lemma {:induction false} TicketCoversAgree(a: seq<Fact>, b: seq<Fact>, act: Activity, env: string)
    requires SameFreezes(a, b)
    ensures forall f :: AcctTicketCovers(a, f, act, env) == AcctTicketCovers(b, f, act, env)
  {
  }

  lemma {:induction false} OnlyRulesCount(facts: seq<Fact>, act: Activity, env: string, matches: Matcher)
    ensures forall f :: AcctTicketCovers(facts, f, act, env) ==> f.body.GrantBody?
    ensures forall f :: AcctCovers(facts, f, act, env) || AcctSanctions(f, act) ==> f.body.GrantBody?
    ensures forall f :: FimCovers(matches, f, act) || FimTicketCovers(matches, f, act) ==> f.body.GrantBody?
    ensures forall f :: FimSanctions(matches, f, act) ==> f.body.GrantBody?
    ensures forall f, c :: FimFrozen(f, act, c) ==> f.body.FreezeBody?
  {
    hide ForTuple, InTime, GrantOk, AcctFreezeBlocks, ForPath, ActiveFor;
  }

  lemma {:induction false} StoppedAgree(a: seq<Fact>, b: seq<Fact>, act: Activity)
    requires SameRules(a, b) && SameViews(a, b, act)
    ensures forall f :: AcctStopped(a, f, act) == AcctStopped(b, f, act)
  {
    var env := AssetOf(a, act).env;
    TicketCoversAgree(a, b, act, env);
    hide AssetOf, AccountOf, Linked, ActorGenuine, AcctTicketCovers, AcctForbids;
    assert AcctEmergency(a, act, env) == AcctEmergency(b, act, env);
    hide AcctEmergency;
  }

  lemma {:induction false} AccountComponentsAgree(a: seq<Fact>, b: seq<Fact>, act: Activity)
    requires SameRules(a, b) && SameViews(a, b, act)
    ensures AccountComponents(a, act) == AccountComponents(b, act)
  {
    var env := AssetOf(a, act).env;
    TicketCoversAgree(a, b, act, env);
    OnlyRulesCount(a, act, env, (p, q) => true);
    StoppedAgree(a, b, act);
    assert forall f :: AcctStopped(a, f, act) ==> f.body.ProhibitionBody?;
    hide AssetOf, AccountOf, Linked, ActorGenuine, AcctSanctions, AcctTicketCovers, AcctBaselineCovers, AcctRoutine,
         AcctStopped;
    assert forall f :: AcctCovers(a, f, act, env) == AcctCovers(b, f, act, env);
    hide AcctCovers;
  }

  lemma {:induction false} FimStoppedAgree(matches: Matcher, a: seq<Fact>, b: seq<Fact>, act: Activity)
    requires SameRules(a, b) && SameViews(a, b, act)
    ensures forall f :: FimStopped(matches, a, f, act) == FimStopped(matches, b, f, act)
    ensures forall fr :: FimBlocked(matches, a, fr, act) == FimBlocked(matches, b, fr, act)
  {
    OnlyRulesCount(a, act, "", matches);
    hide PathOf, FimTicketCovers, FimForbids, FimFrozen, Excepts, Linked, ActorGenuine, AssetOf, AccountOf;
    assert FimEmergency(matches, a, act) == FimEmergency(matches, b, act);
    assert forall fr :: Excepted(matches, a, fr, act) == Excepted(matches, b, fr, act);
    hide FimEmergency, Excepted;
  }

  lemma {:induction false} BlockersAreRules(matches: Matcher, facts: seq<Fact>, act: Activity)
    ensures forall f :: FimStopped(matches, facts, f, act) ==> f.body.ProhibitionBody?
    ensures forall fr :: FimBlocked(matches, facts, fr, act) ==> fr.body.FreezeBody?
  {
    hide PathOf, FimForbids, FimEmergency, Excepted, ActiveFor;
  }

  lemma {:induction false} FimComponentsAgree(matches: Matcher, a: seq<Fact>, b: seq<Fact>, act: Activity)
    requires SameRules(a, b) && SameViews(a, b, act)
    ensures FimComponents(matches, a, act) == FimComponents(matches, b, act)
  {
    hide PathOf, FimSanctions, FimCovers, FimStopped, FimBlocked, Linked, ActorGenuine, AssetOf, AccountOf;
    OnlyRulesCount(a, act, "", matches);
    FimStoppedAgree(matches, a, b, act);
    BlockersAreRules(matches, a, act);
  }

  lemma {:induction false} SameFactsSpeakAlike(a: seq<Fact>, b: seq<Fact>)
    requires SameFacts(a, b)
    ensures SameRules(a, b) && SpeakAlike(a, b)
  {
    SameEntitiesSpeakAlike(a, b);
  }

  /** The two lists agree on every fact the evaluation selects. */
  ghost predicate SameSelection(a: seq<Fact>, b: seq<Fact>, track: Track, tenant: Option<string>) {
    forall f :: Selected(f, track, tenant) ==> (f in a <==> f in b)
  }

  lemma {:induction false} SelectionAgrees(a: seq<Fact>, b: seq<Fact>, track: Track, tenant: Option<string>)
    requires SameSelection(a, b, track, tenant)
    ensures SameFacts(SelectFacts(a, track, tenant), SelectFacts(b, track, tenant))
  {
  }

  /** Selections with the same rules that speak alike of the entities give the same components. */
  lemma {:induction false} EvaluateAlike(matches: Matcher, act: Activity, a: seq<Fact>, b: seq<Fact>,
      tenant: Option<string>)
    requires SameRules(SelectFacts(a, act.track, tenant), SelectFacts(b, act.track, tenant))
    requires SpeakAlike(SelectFacts(a, act.track, tenant), SelectFacts(b, act.track, tenant))
    ensures Evaluate(matches, act, a, tenant) == Evaluate(matches, act, b, tenant)
  {
    var x, y := SelectFacts(a, act.track, tenant), SelectFacts(b, act.track, tenant);
    hide SelectFacts, AccountComponents, FimComponents, SameRules, SpeakAlike, SameViews;
    ViewsOfAlike(x, y, act);
    if act.track == FimTrack {
      FimComponentsAgree(matches, x, y, act);
    } else {
      AccountComponentsAgree(x, y, act);
    }
  }

  /** Facts that agree on what is selected give the same components. */
  lemma {:induction false} EvaluateAgrees(matches: Matcher, act: Activity, a: seq<Fact>, b: seq<Fact>,
      tenant: Option<string>)
    requires SameSelection(a, b, act.track, tenant)
    ensures Evaluate(matches, act, a, tenant) == Evaluate(matches, act, b, tenant)
  {
    SelectionAgrees(a, b, act.track, tenant);
    hide SameFacts, SelectFacts, Evaluate, SameRules, SpeakAlike, SameSelection;
    SameFactsSpeakAlike(SelectFacts(a, act.track, tenant), SelectFacts(b, act.track, tenant));
    EvaluateAlike(matches, act, a, b, tenant);
  }

  lemma {:induction false} DeriveAgrees(matches: Matcher, act: Activity, a: seq<Fact>, b: seq<Fact>,
      tenant: Option<string>)
    requires SameSelection(a, b, act.track, tenant)
    ensures DeriveClass(matches, Some(Context(tenant, act, a))) == DeriveClass(matches, Some(Context(tenant, act, b)))
  {
    SelectionAgrees(a, b, act.track, tenant);
    EvaluateAgrees(matches, act, a, b, tenant);
    var x, y := SelectFacts(a, act.track, tenant), SelectFacts(b, act.track, tenant);
    hide SelectFacts, Evaluate;
    EmptyAlike(x, y);
  }

  /** Every permutation of the facts, and every repetition, gives the same components and the same class. */
  lemma {:induction false} OrderDoesNotMatter(matches: Matcher, act: Activity, a: seq<Fact>, b: seq<Fact>,
      tenant: Option<string>)
    requires multiset(a) == multiset(b) || SameFacts(a, b)
    ensures Evaluate(matches, act, a, tenant) == Evaluate(matches, act, b, tenant)
    ensures DeriveClass(matches, Some(Context(tenant, act, a))) == DeriveClass(matches, Some(Context(tenant, act, b)))
  {
    hide Evaluate, DeriveClass;
    assert SameSelection(a, b, act.track, tenant) by {
      forall f ensures f in a <==> f in b {
        assert f in a <==> f in multiset(a);
        assert f in b <==> f in multiset(b);
      }
    }
    EvaluateAgrees(matches, act, a, b, tenant);
    DeriveAgrees(matches, act, a, b, tenant);
  }

  /** A fact of the other track, of no or another tenant under a tenant, or superseded. */
  predicate Inert(f: Fact, track: Track, tenant: Option<string>) {
    f.track != track || (tenant.Some? && f.tenant != tenant) || f.supersededBy.Some?
  }

  /** Interleaving inert facts anywhere changes nothing. */
  lemma {:induction false} InertFactsDoNotMatter(matches: Matcher, act: Activity, a: seq<Fact>, b: seq<Fact>,
      tenant: Option<string>)
    requires forall f :: f in a ==> f in b
    requires forall f :: f in b && f !in a ==> Inert(f, act.track, tenant)
    ensures Evaluate(matches, act, a, tenant) == Evaluate(matches, act, b, tenant)
    ensures DeriveClass(matches, Some(Context(tenant, act, a))) == DeriveClass(matches, Some(Context(tenant, act, b)))
  {
    hide Evaluate, DeriveClass;
    assert SameSelection(a, b, act.track, tenant);
    EvaluateAgrees(matches, act, a, b, tenant);
    DeriveAgrees(matches, act, a, b, tenant);
  }
}
