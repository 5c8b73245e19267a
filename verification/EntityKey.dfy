/**
 The tiebreak between entity records of equal trust: the canonical JSON text of their attributes
 (src/soctalk/authorization/engine.py: `entity_resolution_key` and its field orders), and the
 order Python compares such texts by.
 */
module EntityKey {
  import opened Wrappers
  import opened AuthorizationModel

  // ----- JSON text, as json.dumps writes it with separators (",", ":") and ASCII escapes

  datatype Json = Text(text: string) | Flag(flag: bool) | Texts(texts: seq<string>) | Number(number: int)

  function HexDigit(k: nat): char
    requires k < 16
  {
    "0123456789abcdef"[k]
  }

  function Hex4(n: nat): string
    requires n < 0x10000
  {
    [HexDigit(n / 4096), HexDigit(n / 256 % 16), HexDigit(n / 16 % 16), HexDigit(n % 16)]
  }

  function Unicode(n: nat): string
    requires n < 0x10000
  {
    "\\u" + Hex4(n)
  }

  function HighSurrogate(c: char): (n: nat)
    requires c as int >= 0x10000
    ensures 0xD800 <= n < 0xDC00
  {
    0xD800 + (c as int - 0x10000) / 1024
  }

  function LowSurrogate(c: char): (n: nat)
    requires c as int >= 0x10000
    ensures 0xDC00 <= n < 0xE000
  {
    0xDC00 + (c as int - 0x10000) % 1024
  }

  /** One character of a string: printable ASCII as it is, everything else escaped, above the basic
      plane as a surrogate pair. */
  function EscapeChar(c: char): string {
    if c == '\"' then "\\\""
    else if c == '\\' then "\\\\"
    else if ' ' <= c <= '~' then [c]
    else if c == '\n' then "\\n"
    else if c == '\r' then "\\r"
    else if c == '\t' then "\\t"
    else if c as int == 8 then "\\b"
    else if c as int == 12 then "\\f"
    else if c as int < 0x10000 then Unicode(c as int)
    else
      Unicode(HighSurrogate(c)) + Unicode(LowSurrogate(c))
  }

  function Escape(s: string): string {
    if s == "" then "" else EscapeChar(s[0]) + Escape(s[1..])
  }

  function Quote(s: string): string {
    "\"" + Escape(s) + "\""
  }

  function Quotes(s: seq<string>): string {
    if s == [] then "]"
    else Quote(s[0]) + (if |s| == 1 then "]" else "," + Quotes(s[1..]))
  }

  function NatText(n: nat): string {
    (if n < 10 then "" else NatText(n / 10)) + ["0123456789"[n % 10]]
  }

  function IntText(n: int): string {
    if n < 0 then "-" + NatText(-n) else NatText(n)
  }

  function FlagText(b: bool): string {
    if b then "true" else "false"
  }

  function Dump(v: Json): string {
    match v
    case Text(s) => Quote(s)
    case Flag(b) => FlagText(b)
    case Texts(ss) => "[" + Quotes(ss)
    case Number(n) => IntText(n)
  }

  /** The members of an object, in order. */
  type Members = seq<(string, Json)>

  function DumpMembers(ms: Members): string {
    if ms == [] then "}"
    else Quote(ms[0].0) + ":" + Dump(ms[0].1) + (if |ms| == 1 then "}" else "," + DumpMembers(ms[1..]))
  }

  function DumpObject(ms: Members): string {
    "{" + DumpMembers(ms)
  }

  // ----- the field orders

  datatype Field =
    | Name | Environment | Criticality | OwnerOrg | Custodian | DataClassification | CompromiseStatus
    | ConfigClass | Approver | AccountType | Privileged | BreakGlass | ServiceOwner | OnCall | LinkedOrgs

  function FieldName(f: Field): string {
    match f
    case Name => "name"
    case Environment => "environment"
    case Criticality => "criticality"
    case OwnerOrg => "owner_org"
    case Custodian => "custodian_account"
    case DataClassification => "data_classification"
    case CompromiseStatus => "compromise_status"
    case ConfigClass => "config_class"
    case Approver => "approver"
    case AccountType => "account_type"
    case Privileged => "privileged"
    case BreakGlass => "break_glass"
    case ServiceOwner => "service_owner"
    case OnCall => "on_call"
    case LinkedOrgs => "linked_orgs"
  }

  const ASSET_ORDER: seq<(Field, Json)> :=
    [(Name, Text("")), (Environment, Text("prod")), (Criticality, Text("medium")), (OwnerOrg, Text("")),
     (Custodian, Text("")), (DataClassification, Text("none")), (CompromiseStatus, Text("clean"))]

  const WATCHED_PATH_ORDER: seq<(Field, Json)> :=
    [(Name, Text("")), (ConfigClass, Text("app")), (Criticality, Text("medium")), (Environment, Text("prod")),
     (OwnerOrg, Text("")), (Approver, Text("")), (CompromiseStatus, Text("clean"))]

  const ACCOUNT_ORDER: seq<(Field, Json)> :=
    [(Name, Text("")), (AccountType, Text("")), (OwnerOrg, Text("")), (Privileged, Flag(false)),
     (BreakGlass, Flag(false)), (ServiceOwner, Text("")), (OnCall, Flag(true))]

  const ORG_ORDER: seq<(Field, Json)> :=
    [(Name, Text("")), (LinkedOrgs, Texts([]))]

  function KeyOrder(kind: EntityKind): seq<(Field, Json)> {
    match kind
    case Asset => ASSET_ORDER
    case WatchedPath => WATCHED_PATH_ORDER
    case Account => ACCOUNT_ORDER
    case Org => ORG_ORDER
  }

  function CompromiseText(c: Compromise): string {
    match c
    case Clean => "clean"
    case Suspected => "suspected"
    case Compromised => "compromised"
    case Contained => "contained"
  }

  function AccountKindText(k: AccountKind): string {
    match k
    case Service => "service"
    case Person => "human"
  }

  function TextOr(x: Option<string>): Option<Json> {
    if x.Some? then Some(Text(x.value)) else None
  }

  function FlagOr(x: Option<bool>): Option<Json> {
    if x.Some? then Some(Flag(x.value)) else None
  }

  function Attribute(e: Entity, f: Field): Option<Json> {
    match f
    case Name => Some(Text(e.name))
    case Environment => TextOr(e.environment)
    case Criticality => TextOr(e.criticality)
    case OwnerOrg => TextOr(e.ownerOrg)
    case Custodian => TextOr(e.custodianAccount)
    case DataClassification => TextOr(e.dataClassification)
    case CompromiseStatus => if e.compromise.Some? then Some(Text(CompromiseText(e.compromise.value))) else None
    case ConfigClass => TextOr(e.configClass)
    case Approver => TextOr(e.approver)
    case AccountType => if e.accountType.Some? then Some(Text(AccountKindText(e.accountType.value))) else None
    case Privileged => FlagOr(e.privileged)
    case BreakGlass => FlagOr(e.breakGlass)
    case ServiceOwner => TextOr(e.serviceOwner)
    case OnCall => FlagOr(e.onCall)
    case LinkedOrgs => if e.linkedOrgs.Some? then Some(Texts(e.linkedOrgs.value)) else None
  }

  /** The attribute with its default filled in. */
  function Canonical(e: Entity, slot: (Field, Json)): Json {
    Else(Attribute(e, slot.0), slot.1)
  }

  function MembersOf(e: Entity, order: seq<(Field, Json)>): Members {
    seq(|order|, i requires 0 <= i < |order| => (FieldName(order[i].0), Canonical(e, order[i])))
  }

  function KeyText(e: Entity, trust: int): string {
    DumpObject(MembersOf(e, KeyOrder(e.kind)) + [("trust", Number(trust))])
  }

  /** The key of a record depends on its attributes and trust only, not on id, scope or lifecycle. */
  method EntityResolutionKey(e: Entity, trust: int) returns (key: string)
    ensures key == KeyText(e, trust)
  {
    hide DumpObject, FieldName;
    var order := KeyOrder(e.kind);
    hide KeyOrder;
    var out: Members := [];
    for i := 0 to |order|
      invariant |out| == i && forall j :: 0 <= j < i ==> out[j] == (FieldName(order[j].0), Canonical(e, order[j]))
    {
      var (field, default) := order[i];
      if field == Name {
        out := out + [(FieldName(field), Text(e.name))];
      } else {
        var value := Attribute(e, field);
        out := out + [(FieldName(field), if value == None then default else value.value)];
      }
    }
    assert out == MembersOf(e, order);
    out := out + [("trust", Number(trust))];
    key := DumpObject(out);
  }

  // ----- JSON text is injective: every value ends where its text says

  lemma {:induction false} HexIsInjective(a: nat, b: nat)
    requires a < 0x10000 && b < 0x10000 && Hex4(a) == Hex4(b)
    ensures a == b
  {
    var s, t := Hex4(a), Hex4(b);
    DigitIsInjective(a / 4096, b / 4096);
    DigitIsInjective(a / 256 % 16, b / 256 % 16);
    DigitIsInjective(a / 16 % 16, b / 16 % 16);
    DigitIsInjective(a % 16, b % 16);
    hide HexDigit;
    assert s[0] == t[0] && s[1] == t[1] && s[2] == t[2] && s[3] == t[3];
    Digits(a);
    Digits(b);
  }

  lemma {:induction false} Digits(n: nat)
    ensures n == (n / 4096) * 4096 + (n / 256 % 16) * 256 + (n / 16 % 16) * 16 + n % 16
  {
    assert n / 256 == (n / 4096) * 16 + n / 256 % 16;
    assert n / 16 == (n / 256) * 16 + n / 16 % 16;
  }

  lemma {:induction false} DigitIsInjective(j: nat, k: nat)
    requires j < 16 && k < 16
    ensures HexDigit(j) == HexDigit(k) ==> j == k
  {
  }

  predicate IsShort(c: char) {
    c == '\"' || c == '\\' || c == '\n' || c == '\r' || c == '\t' || c as int == 8 || c as int == 12
  }

  lemma {:induction false} UnicodeIsInjective(a: nat, b: nat, x: string, y: string)
    requires a < 0x10000 && b < 0x10000 && Unicode(a) + x == Unicode(b) + y
    ensures a == b && x == y
  {
    var s, t := Unicode(a) + x, Unicode(b) + y;
    assert s[..6] == Unicode(a) && t[..6] == Unicode(b);
    assert s[6..] == x && t[6..] == y;
    assert Unicode(a)[2..] == Hex4(a) && Unicode(b)[2..] == Hex4(b);
    HexIsInjective(a, b);
  }

  /** How the text of an escaped character starts tells the three forms apart. */
  lemma {:induction false} EscapeForms(c: char, x: string)
    ensures var s := EscapeChar(c) + x;
      && s != "" && s[0] != '\"'
      && (s[0] == '\\' <==> IsShort(c) || !(' ' <= c <= '~'))
      && (s[0] == '\\' ==> |s| >= 2 && (s[1] == 'u' <==> !IsShort(c)))
      && (s[0] != '\\' ==> s[0] == c && s[1..] == x)
      && (s[0] == '\\' && s[1] != 'u' ==> s[1] == EscapeChar(c)[1] && s[2..] == x)
  {
  }

  lemma {:induction false} ShortIsInjective(c: char, d: char)
    requires IsShort(c) && IsShort(d) && EscapeChar(c)[1] == EscapeChar(d)[1]
    ensures c == d
  {
  }

  lemma {:induction false} SurrogatesIdentify(c: char, d: char)
    requires c as int >= 0x10000 && d as int >= 0x10000
    requires HighSurrogate(c) == HighSurrogate(d) && LowSurrogate(c) == LowSurrogate(d)
    ensures c == d
  {
  }

  /** The text of a character that needs \u escapes. */
  lemma {:induction false} UnicodeForm(c: char, x: string) returns (n: nat, rest: string)
    requires !IsShort(c) && !(' ' <= c <= '~')
    ensures n < 0x10000 && EscapeChar(c) + x == Unicode(n) + rest
    ensures if c as int < 0x10000 then n == c as int && rest == x
            else n == HighSurrogate(c) && rest == Unicode(LowSurrogate(c)) + x
  {
    hide Unicode, HighSurrogate, LowSurrogate;
    if c as int < 0x10000 {
      n, rest := c as int, x;
    } else {
      n, rest := HighSurrogate(c), Unicode(LowSurrogate(c)) + x;
      assert EscapeChar(c) + x == Unicode(n) + rest;
    }
  }

  lemma {:induction false} UnicodeFormIsInjective(c: char, d: char, x: string, y: string)
    requires !IsShort(c) && !(' ' <= c <= '~') && !IsShort(d) && !(' ' <= d <= '~')
    requires EscapeChar(c) + x == EscapeChar(d) + y
    ensures c == d && x == y
  {
    hide EscapeChar, Unicode, IsShort, HighSurrogate, LowSurrogate;
    var n, rest := UnicodeForm(c, x);
    var m, rest' := UnicodeForm(d, y);
    UnicodeIsInjective(n, m, rest, rest');
    if c as int >= 0x10000 {
      UnicodeIsInjective(LowSurrogate(c), LowSurrogate(d), x, y);
      SurrogatesIdentify(c, d);
    }
  }

  /** An escaped character ends where its text says. */
  lemma {:induction false} EscapeCharDelimits(c: char, d: char, x: string, y: string)
    requires EscapeChar(c) + x == EscapeChar(d) + y
    ensures c == d && x == y
  {
    EscapeForms(c, x);
    EscapeForms(d, y);
    hide EscapeChar;
    if !IsShort(c) && !(' ' <= c <= '~') {
      UnicodeFormIsInjective(c, d, x, y);
    } else if IsShort(c) {
      ShortIsInjective(c, d);
    }
  }

  lemma {:induction false} EscapeStart(a: string, x: string)
    ensures (Escape(a) + "\"" + x)[0] == '\"' <==> a == ""
    ensures a == "" ==> (Escape(a) + "\"" + x)[1..] == x
    ensures a != "" ==> Escape(a) + "\"" + x == EscapeChar(a[0]) + (Escape(a[1..]) + "\"" + x)
  {
    hide EscapeChar;
    if a != "" {
      EscapeForms(a[0], Escape(a[1..]) + "\"" + x);
      assert Escape(a) + "\"" + x == EscapeChar(a[0]) + (Escape(a[1..]) + "\"" + x);
    }
  }

  lemma {:induction false} EscapeDelimits(a: string, b: string, x: string, y: string)
    requires Escape(a) + "\"" + x == Escape(b) + "\"" + y
    ensures a == b && x == y
  {
    EscapeStart(a, x);
    EscapeStart(b, y);
    hide EscapeChar, Escape;
    if a != "" {
      EscapeCharDelimits(a[0], b[0], Escape(a[1..]) + "\"" + x, Escape(b[1..]) + "\"" + y);
      EscapeDelimits(a[1..], b[1..], x, y);
      assert a == [a[0]] + a[1..] && b == [b[0]] + b[1..];
    }
  }

  lemma {:induction false} QuoteDelimits(a: string, b: string, x: string, y: string)
    requires Quote(a) + x == Quote(b) + y
    ensures a == b && x == y
  {
    hide Escape;
    assert (Quote(a) + x)[1..] == Escape(a) + "\"" + x;
    assert (Quote(b) + y)[1..] == Escape(b) + "\"" + y;
    EscapeDelimits(a, b, x, y);
  }

  function QuotesRest(s: seq<string>): string
    requires s != []
  {
    if |s| == 1 then "]" else "," + Quotes(s[1..])
  }

  lemma {:induction false} QuotesForm(s: seq<string>, x: string)
    ensures (Quotes(s) + x)[0] == (if s == [] then ']' else '\"')
    ensures s == [] ==> (Quotes(s) + x)[1..] == x
    ensures s != [] ==> Quotes(s) + x == Quote(s[0]) + (QuotesRest(s) + x)
  {
    hide Escape;
  }

  lemma {:induction false} QuotesRestForm(s: seq<string>, x: string)
    requires s != []
    ensures (QuotesRest(s) + x)[0] == (if |s| == 1 then ']' else ',')
    ensures (QuotesRest(s) + x)[1..] == (if |s| == 1 then x else Quotes(s[1..]) + x)
  {
    hide Quotes;
  }

  lemma {:induction false} QuotesDelimit(a: seq<string>, b: seq<string>, x: string, y: string)
    requires Quotes(a) + x == Quotes(b) + y
    ensures a == b && x == y
  {
    QuotesForm(a, x);
    QuotesForm(b, y);
    hide Quote, Quotes, QuotesRest;
    if a != [] {
      QuoteDelimits(a[0], b[0], QuotesRest(a) + x, QuotesRest(b) + y);
      QuotesRestForm(a, x);
      QuotesRestForm(b, y);
      assert a == [a[0]] + a[1..] && b == [b[0]] + b[1..];
      if |a| > 1 {
        QuotesDelimit(a[1..], b[1..], x, y);
      }
    }
  }

  lemma {:induction false} SameStart(text: string, x: string, y: string)
    requires text + x == text + y
    ensures x == y
  {
    assert x == (text + x)[|text|..] && y == (text + y)[|text|..];
  }

  predicate SameShape(v: Json, w: Json) {
    (v.Text? && w.Text?) || (v.Flag? && w.Flag?) || (v.Texts? && w.Texts?) || (v.Number? && v == w)
  }

  lemma {:induction false} FlagsDelimit(b: bool, c: bool, x: string, y: string)
    requires FlagText(b) + x == FlagText(c) + y
    ensures b == c && x == y
  {
    assert (FlagText(b) + x)[0] == (FlagText(c) + y)[0];
    assert x == (FlagText(b) + x)[|FlagText(b)|..] && y == (FlagText(c) + y)[|FlagText(c)|..];
  }

  lemma {:induction false} DumpDelimits(v: Json, w: Json, x: string, y: string)
    requires SameShape(v, w) && Dump(v) + x == Dump(w) + y
    ensures v == w && x == y
  {
    hide Quote, Quotes, IntText, FlagText;
    match v
    case Text(s) => QuoteDelimits(s, w.text, x, y);
    case Flag(b) => FlagsDelimit(b, w.flag, x, y);
    case Texts(ss) =>
      assert (Dump(v) + x)[1..] == Quotes(ss) + x && (Dump(w) + y)[1..] == Quotes(w.texts) + y;
      QuotesDelimit(ss, w.texts, x, y);
    case Number(n) => SameStart(IntText(n), x, y);
  }

  predicate Parallel(a: Members, b: Members) {
    |a| == |b| && forall i :: 0 <= i < |a| ==> a[i].0 == b[i].0 && SameShape(a[i].1, b[i].1)
  }

  function MembersRest(ms: Members): string
    requires ms != []
  {
    if |ms| == 1 then "}" else "," + DumpMembers(ms[1..])
  }

  lemma {:induction false} MembersForm(ms: Members)
    requires ms != []
    ensures var head := Quote(ms[0].0) + ":";
      |head| <= |DumpMembers(ms)| && DumpMembers(ms)[|head|..] == Dump(ms[0].1) + MembersRest(ms)
  {
    hide Quote, Dump;
    var head := Quote(ms[0].0) + ":";
    assert DumpMembers(ms) == head + (Dump(ms[0].1) + MembersRest(ms));
  }

  /** Equal texts have equal first members, and equal texts for what follows. */
  lemma {:induction false} HeadsDelimit(a: Members, b: Members)
    requires a != [] && b != [] && Parallel(a, b) && DumpMembers(a) == DumpMembers(b)
    ensures a[0] == b[0] && MembersRest(a) == MembersRest(b)
  {
    hide Quote, Dump, DumpMembers, MembersRest;
    MembersForm(a);
    MembersForm(b);
    DumpDelimits(a[0].1, b[0].1, MembersRest(a), MembersRest(b));
  }

  lemma {:induction false} TailsDelimit(a: Members, b: Members)
    requires |a| > 1 && |a| == |b| && MembersRest(a) == MembersRest(b)
    ensures DumpMembers(a[1..]) == DumpMembers(b[1..])
  {
    hide DumpMembers;
    assert MembersRest(a)[1..] == DumpMembers(a[1..]) && MembersRest(b)[1..] == DumpMembers(b[1..]);
  }

  lemma {:induction false} TailsParallel(a: Members, b: Members)
    requires a != [] && Parallel(a, b)
    ensures Parallel(a[1..], b[1..])
  {
    hide SameShape;
  }

  lemma {:induction false} HeadAndTail<T>(a: seq<T>, b: seq<T>)
    requires a != [] && b != [] && a[0] == b[0] && a[1..] == b[1..]
    ensures a == b
  {
    assert a == [a[0]] + a[1..] && b == [b[0]] + b[1..];
  }

  lemma {:induction false} MembersDelimit(a: Members, b: Members)
    requires Parallel(a, b) && DumpMembers(a) == DumpMembers(b)
    ensures a == b
  {
    if a != [] {
      hide DumpMembers, MembersRest;
      HeadsDelimit(a, b);
      TailsParallel(a, b);
      hide Parallel;
      if |a| > 1 {
        TailsDelimit(a, b);
        MembersDelimit(a[1..], b[1..]);
      }
      HeadAndTail(a, b);
    }
  }

  // ----- equal keys mean equal attributes

  lemma {:induction false} AttributeShape(e: Entity, f: Entity, slot: (Field, Json))
    requires slot in KeyOrder(e.kind)
    ensures SameShape(Canonical(e, slot), Canonical(f, slot))
  {
    hide CompromiseText, AccountKindText;
  }

  lemma {:induction false} KeyMembersAgree(e: Entity, f: Entity, order: seq<(Field, Json)>, trust: int)
    requires forall slot :: slot in order ==> SameShape(Canonical(e, slot), Canonical(f, slot))
    requires var last := [("trust", Number(trust))];
      DumpMembers(MembersOf(e, order) + last) == DumpMembers(MembersOf(f, order) + last)
    ensures forall slot :: slot in order ==> Canonical(e, slot) == Canonical(f, slot)
  {
    hide Canonical, DumpMembers, FieldName;
    var a := MembersOf(e, order) + [("trust", Number(trust))];
    var b := MembersOf(f, order) + [("trust", Number(trust))];
    MembersDelimit(a, b);
    forall slot | slot in order ensures Canonical(e, slot) == Canonical(f, slot) {
      var i :| 0 <= i < |order| && order[i] == slot;
      assert a[i].1 == Canonical(e, slot) && b[i].1 == Canonical(f, slot);
    }
  }

  /** Two records of one kind, equal trust and equal keys agree on every attribute of the field order,
      defaults filled in. */
  lemma {:induction false} EqualKeysAgree(e: Entity, f: Entity, trust: int)
    requires e.kind == f.kind && KeyText(e, trust) == KeyText(f, trust)
    ensures forall slot :: slot in KeyOrder(e.kind) ==> Canonical(e, slot) == Canonical(f, slot)
  {
    hide KeyOrder, Canonical, DumpMembers, MembersOf;
    var order, last := KeyOrder(e.kind), [("trust", Number(trust))];
    assert KeyText(e, trust)[1..] == DumpMembers(MembersOf(e, order) + last);
    assert KeyText(f, trust)[1..] == DumpMembers(MembersOf(f, order) + last);
    forall slot | slot in order ensures SameShape(Canonical(e, slot), Canonical(f, slot)) {
      AttributeShape(e, f, slot);
    }
    KeyMembersAgree(e, f, order, trust);
  }

  // ----- the order of texts and of records

  /** Python's order of strings, by code point. */
  predicate TextLess(a: string, b: string) {
    if b == "" then false
    else if a == "" then true
    else a[0] < b[0] || (a[0] == b[0] && TextLess(a[1..], b[1..]))
  }

  lemma {:induction false} TextLessTransitive(a: string, b: string, c: string)
    requires TextLess(a, b) && TextLess(b, c)
    ensures TextLess(a, c)
  {
    if a != "" && a[0] == b[0] && b[0] == c[0] {
      TextLessTransitive(a[1..], b[1..], c[1..]);
    }
  }

  lemma {:induction false} TextLessTotal(a: string, b: string)
    ensures TextLess(a, b) || a == b || TextLess(b, a)
    ensures !(TextLess(a, b) && TextLess(b, a)) && !TextLess(a, a)
  {
    if a != "" && b != "" {
      TextLessTotal(a[1..], b[1..]);
      assert a == [a[0]] + a[1..] && b == [b[0]] + b[1..];
    }
    if a != "" {
      TextLessTotal(a[1..], a[1..]);
    }
  }

  /** The texts first differ at k, or one ends there. */
  predicate SplitsAt(a: string, b: string, k: nat) {
    k < |b| && k <= |a| && a[..k] == b[..k] && (k == |a| || a[k] < b[k])
  }

  /** One text comes before another exactly when it has the smaller character at the first difference, or is
      a proper beginning of the other. */
  lemma {:induction false} TextLessIff(a: string, b: string)
    ensures TextLess(a, b) <==> exists k :: SplitsAt(a, b, k)
  {
    forall k: nat | SplitsAt(a, b, k) ensures TextLess(a, b) {
      if k > 0 {
        assert a[..k][0] == b[..k][0];
        assert a[1..][..k - 1] == a[..k][1..] && b[1..][..k - 1] == b[..k][1..];
        assert SplitsAt(a[1..], b[1..], k - 1);
        TextLessIff(a[1..], b[1..]);
      }
    }
    if TextLess(a, b) {
      if a != "" && a[0] == b[0] {
        TextLessIff(a[1..], b[1..]);
        var k: nat :| SplitsAt(a[1..], b[1..], k);
        assert a[..k + 1] == [a[0]] + a[1..][..k] && b[..k + 1] == [b[0]] + b[1..][..k];
        assert SplitsAt(a, b, k + 1);
      } else {
        assert SplitsAt(a, b, 0);
      }
    }
  }

  // ----- the key texts, member by member

  function Pair(name: string, text: string, rest: string): string {
    Quote(name) + ":" + text + "," + rest
  }

  function Last(name: string, text: string): string {
    Quote(name) + ":" + text + "}"
  }

  lemma {:induction false} DumpCons(m: (string, Json), rest: Members)
    requires rest != []
    ensures DumpMembers([m] + rest) == Pair(m.0, Dump(m.1), DumpMembers(rest))
  {
    hide Quote, Dump;
    assert ([m] + rest)[1..] == rest;
  }

  lemma {:induction false} DumpLast(m: (string, Json))
    ensures DumpMembers([m]) == Last(m.0, Dump(m.1))
  {
    hide Quote, Dump;
  }

  /** The members of two fields, one after the other. */
  lemma {:induction false} DumpTwo(a: (string, Json), b: (string, Json))
    ensures DumpMembers([a, b]) == Pair(a.0, Dump(a.1), Last(b.0, Dump(b.1)))
  {
    assert [a, b] == [a] + [b];
    DumpLast(b);
    DumpCons(a, [b]);
  }

  lemma {:induction false} DumpEight(a: (string, Json), b: (string, Json), c: (string, Json), d: (string, Json),
      e: (string, Json), f: (string, Json), g: (string, Json), h: (string, Json))
    ensures DumpMembers([a, b, c, d, e, f, g, h])
         == Pair(a.0, Dump(a.1), Pair(b.0, Dump(b.1), Pair(c.0, Dump(c.1), Pair(d.0, Dump(d.1), Pair(e.0, Dump(e.1),
              Pair(f.0, Dump(f.1), Pair(g.0, Dump(g.1), Last(h.0, Dump(h.1)))))))))
  {
    hide DumpMembers, Dump, Pair, Last;
    DumpTwo(g, h);
    DumpCons(f, [g, h]);
    DumpCons(e, [f, g, h]);
    DumpCons(d, [e, f, g, h]);
    DumpCons(c, [d, e, f, g, h]);
    DumpCons(b, [c, d, e, f, g, h]);
    DumpCons(a, [b, c, d, e, f, g, h]);
    assert [f] + [g, h] == [f, g, h] && [e] + [f, g, h] == [e, f, g, h] && [d] + [e, f, g, h] == [d, e, f, g, h];
    assert [c] + [d, e, f, g, h] == [c, d, e, f, g, h] && [b] + [c, d, e, f, g, h] == [b, c, d, e, f, g, h];
    assert [a] + [b, c, d, e, f, g, h] == [a, b, c, d, e, f, g, h];
  }

  lemma {:induction false} CleanText()
    ensures CompromiseText(Clean) == "clean"
  {
  }

  /** The key of an asset record: seven attributes and the trust, in this order, with these defaults. */
  lemma {:induction false} AssetKeyText(e: Entity, trust: int)
    requires e.kind == Asset
    ensures KeyText(e, trust) == "{"
      + Pair("name", Quote(e.name),
          Pair("environment", Quote(Else(e.environment, "prod")),
            Pair("criticality", Quote(Else(e.criticality, "medium")),
              Pair("owner_org", Quote(Else(e.ownerOrg, "")),
                Pair("custodian_account", Quote(Else(e.custodianAccount, "")),
                  Pair("data_classification", Quote(Else(e.dataClassification, "none")),
                    Pair("compromise_status", Quote(CompromiseText(Else(e.compromise, Clean))),
                      Last("trust", IntText(trust)))))))))
  {
    CleanText();
    hide DumpMembers, Quote, CompromiseText, IntText, Pair, Last;
    var ms := MembersOf(e, ASSET_ORDER) + [("trust", Number(trust))];
    assert ms == [ms[0], ms[1], ms[2], ms[3], ms[4], ms[5], ms[6], ms[7]];
    DumpEight(ms[0], ms[1], ms[2], ms[3], ms[4], ms[5], ms[6], ms[7]);
  }

  lemma {:induction false} PathKeyText(e: Entity, trust: int)
    requires e.kind == WatchedPath
    ensures KeyText(e, trust) == "{"
      + Pair("name", Quote(e.name),
          Pair("config_class", Quote(Else(e.configClass, "app")),
            Pair("criticality", Quote(Else(e.criticality, "medium")),
              Pair("environment", Quote(Else(e.environment, "prod")),
                Pair("owner_org", Quote(Else(e.ownerOrg, "")),
                  Pair("approver", Quote(Else(e.approver, "")),
                    Pair("compromise_status", Quote(CompromiseText(Else(e.compromise, Clean))),
                      Last("trust", IntText(trust)))))))))
  {
    CleanText();
    hide DumpMembers, Quote, CompromiseText, IntText, Pair, Last;
    var ms := MembersOf(e, WATCHED_PATH_ORDER) + [("trust", Number(trust))];
    assert ms == [ms[0], ms[1], ms[2], ms[3], ms[4], ms[5], ms[6], ms[7]];
    DumpEight(ms[0], ms[1], ms[2], ms[3], ms[4], ms[5], ms[6], ms[7]);
  }

  lemma {:induction false} AccountKeyText(e: Entity, trust: int)
    requires e.kind == Account
    ensures KeyText(e, trust) == "{"
      + Pair("name", Quote(e.name),
          Pair("account_type", Quote(if e.accountType.Some? then AccountKindText(e.accountType.value) else ""),
            Pair("owner_org", Quote(Else(e.ownerOrg, "")),
              Pair("privileged", FlagText(e.privileged == Some(true)),
                Pair("break_glass", FlagText(e.breakGlass == Some(true)),
                  Pair("service_owner", Quote(Else(e.serviceOwner, "")),
                    Pair("on_call", FlagText(e.onCall != Some(false)),
                      Last("trust", IntText(trust)))))))))
  {
    hide DumpMembers, Quote, AccountKindText, FlagText, IntText, Pair, Last;
    var ms := MembersOf(e, ACCOUNT_ORDER) + [("trust", Number(trust))];
    assert ms == [ms[0], ms[1], ms[2], ms[3], ms[4], ms[5], ms[6], ms[7]];
    DumpEight(ms[0], ms[1], ms[2], ms[3], ms[4], ms[5], ms[6], ms[7]);
  }

  lemma {:induction false} OrgKeyText(e: Entity, trust: int)
    requires e.kind == Org
    ensures KeyText(e, trust) == "{"
      + Pair("name", Quote(e.name),
          Pair("linked_orgs", "[" + Quotes(Else(e.linkedOrgs, [])), Last("trust", IntText(trust))))
  {
    hide DumpMembers, Quote, Quotes, IntText, Pair, Last;
    var ms := MembersOf(e, ORG_ORDER) + [("trust", Number(trust))];
    assert ms == [ms[0], ms[1], ms[2]] && [ms[0]] + [ms[1], ms[2]] == [ms[0], ms[1], ms[2]];
    DumpTwo(ms[1], ms[2]);
    DumpCons(ms[0], [ms[1], ms[2]]);
  }

  // ----- what the order makes of an attribute

  lemma {:induction false} TextLessCommon(p: string, a: string, b: string)
    ensures TextLess(p + a, p + b) == TextLess(a, b)
  {
    if p == "" {
      assert p + a == a && p + b == b;
    } else {
      assert (p + a)[1..] == p[1..] + a && (p + b)[1..] == p[1..] + b;
      TextLessCommon(p[1..], a, b);
    }
  }

  lemma {:induction false} EscapeConcat(a: string, b: string)
    ensures Escape(a + b) == Escape(a) + Escape(b)
  {
    hide EscapeChar;
    if a == "" {
      assert a + b == b;
    } else {
      assert (a + b)[1..] == a[1..] + b;
      EscapeConcat(a[1..], b);
    }
  }

  /** A character JSON leaves as it is. */
  predicate Unescaped(c: char) {
    ' ' <= c <= '~' && c != '\"' && c != '\\'
  }

  /** Of two texts that first differ in unescaped characters, the one with the greater character is the greater
      one quoted, too, whatever follows. */
  lemma {:induction false} QuotedOrder(p: string, c: char, d: char, u: string, v: string, x: string, y: string)
    requires Unescaped(c) && Unescaped(d) && c < d
    ensures TextLess(Quote(p + [c] + u) + x, Quote(p + [d] + v) + y)
  {
    QuotedForm(p, c, u, x);
    QuotedForm(p, d, v, y);
    TextLessCommon("\"" + Escape(p), [c] + (Escape(u) + "\"" + x), [d] + (Escape(v) + "\"" + y));
    hide Escape, Quote;
  }

  lemma {:induction false} QuotedForm(p: string, c: char, u: string, x: string)
    requires Unescaped(c)
    ensures Quote(p + [c] + u) + x == ("\"" + Escape(p)) + ([c] + (Escape(u) + "\"" + x))
  {
    EscapeConcat(p + [c], u);
    EscapeConcat(p, [c]);
    EscapePlain(c);
    hide Escape;
    assert Escape(p + [c] + u) == Escape(p) + [c] + Escape(u);
    hide Unescaped;
    Regroup("\"", Escape(p), [c], Escape(u), x);
  }

  lemma EscapePlain(c: char)
    requires Unescaped(c)
    ensures Escape([c]) == [c]
  {
    assert [c][1..] == "" && [c] + "" == [c];
  }

  lemma Regroup(q: string, a: string, b: string, c: string, d: string)
    ensures q + (a + b + c) + q + d == (q + a) + (b + (c + q + d))
  {
  }

  lemma {:induction false} PairOrder(name: string, text: string, a: string, b: string)
    ensures TextLess(Pair(name, text, a), Pair(name, text, b)) == TextLess(a, b)
  {
    hide Quote;
    TextLessCommon(Quote(name) + ":" + text + ",", a, b);
  }

  /** Of two asset records alike but for their owner, the greater owner makes the greater key. */
  lemma {:induction false} GreaterOwnerText(e: Entity, f: Entity, trust: int, p: string, c: char, d: char, u: string,
      v: string)
    requires e.kind == Asset && f == e.(ownerOrg := Some(p + [d] + v)) && e.ownerOrg == Some(p + [c] + u)
    requires Unescaped(c) && Unescaped(d) && c < d
    ensures TextLess(KeyText(e, trust), KeyText(f, trust))
  {
    AssetKeyText(e, trust);
    AssetKeyText(f, trust);
    hide KeyText, Quote, CompromiseText, IntText, TextLess;
    var tail :=
      Pair("custodian_account", Quote(Else(e.custodianAccount, "")),
        Pair("data_classification", Quote(Else(e.dataClassification, "none")),
          Pair("compromise_status", Quote(CompromiseText(Else(e.compromise, Clean))), Last("trust", IntText(trust)))));
    var x, y := Pair("owner_org", Quote(e.ownerOrg.value), tail), Pair("owner_org", Quote(f.ownerOrg.value), tail);
    OwnerOrder(p, c, d, u, v, tail);
    hide Pair, Last;
    var cx := Pair("criticality", Quote(Else(e.criticality, "medium")), x);
    var cy := Pair("criticality", Quote(Else(e.criticality, "medium")), y);
    PairOrder("criticality", Quote(Else(e.criticality, "medium")), x, y);
    var ex := Pair("environment", Quote(Else(e.environment, "prod")), cx);
    var ey := Pair("environment", Quote(Else(e.environment, "prod")), cy);
    PairOrder("environment", Quote(Else(e.environment, "prod")), cx, cy);
    PairOrder("name", Quote(e.name), ex, ey);
    TextLessCommon("{", Pair("name", Quote(e.name), ex), Pair("name", Quote(e.name), ey));
  }

  lemma {:induction false} OwnerOrder(p: string, c: char, d: char, u: string, v: string, tail: string)
    requires Unescaped(c) && Unescaped(d) && c < d
    ensures TextLess(Pair("owner_org", Quote(p + [c] + u), tail), Pair("owner_org", Quote(p + [d] + v), tail))
  {
    QuotedOrder(p, c, d, u, v, "," + tail, "," + tail);
    hide Quote, TextLess;
    var head := Quote("owner_org") + ":";
    var x, y := Quote(p + [c] + u), Quote(p + [d] + v);
    TextLessCommon(head, x + ("," + tail), y + ("," + tail));
    assert Pair("owner_org", x, tail) == head + (x + ("," + tail));
    assert Pair("owner_org", y, tail) == head + (y + ("," + tail));
  }
}
