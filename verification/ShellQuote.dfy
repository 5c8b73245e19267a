/**
 The shell-sourced env file the setup wizard writes (setup-wizard/install.go), read back
 by the quoting and token rules of the Shell Command Language (POSIX.1-2017, Volume 3,
 sections 2.2.1, 2.2.2, 2.2.3 and 2.3).

 The reader gives up (`None`) on anything that would make the shell do more than assign:
 an unquoted or double-quoted `$` or backquote, an unquoted tilde, an operator, an
 unterminated quotation, or a line that is not exactly one assignment.
 */
module ShellQuote {
  import opened Wrappers

  // ----- the writer

  /** Every single quote of `s` replaced by '\'' . */
  function Escaped(s: string): string {
    if s == "" then ""
    else (if s[0] == '\'' then "'\\''" else [s[0]]) + Escaped(s[1..])
  }

  function Quote(s: string): string {
    "'" + Escaped(s) + "'"
  }

  datatype Request = Request(hostname: string, msspName: string, adminEmail: string, adminPw: string)

  function EffectiveHost(req: Request): string {
    if req.hostname == "" then "soctalk.local" else req.hostname
  }

  function TenantName(req: Request): string {
    req.msspName + " \U{2014} Demo"
  }

  function EnvContents(req: Request): string {
    "ADMIN_EMAIL=" + Quote(req.adminEmail) + "\n"
    + "ADMIN_PW=" + Quote(req.adminPw) + "\n"
    + "INGRESS_HOST=" + Quote(EffectiveHost(req)) + "\n"
    + "TENANT_SLUG=demo\n"
    + "TENANT_NAME=" + Quote(TenantName(req)) + "\n"
  }

  // ----- the reader

  /** A character of a word, and whether quoting took away any special meaning it had. */
  datatype WordChar = WordChar(c: char, quoted: bool)

  type Word = seq<WordChar>

  datatype Mode = Plain | Single | Double

  predicate IsBlank(c: char) { c == ' ' || c == '\t' }

  predicate IsOperator(c: char) { c in {'&', '|', ';', '<', '>', '(', ')'} }

  predicate Expands(c: char) { c in {'$', '`', '~'} }

  /** A reader: the words of the current line, the word in progress if any, the quoting mode. */
  datatype Reader = Reader(lines: seq<seq<Word>>, line: seq<Word>, word: Option<Word>, mode: Mode)
  {
    function Add(c: char, quoted: bool): Reader {
      this.(word := Some(Started() + [WordChar(c, quoted)]))
    }

    /** The word in progress; an opening quote starts one even if nothing follows. */
    function Started(): Word {
      if word.Some? then word.value else []
    }

    function EndWord(): Reader {
      if word.Some? then this.(line := line + [word.value], word := None) else this
    }

    function EndLine(): Reader {
      var r := EndWord();
      if r.line == [] then r else r.(lines := r.lines + [r.line], line := [])
    }
  }

  /** Drop a comment: everything up to the next newline. */
  function SkipComment(s: string): (rest: string)
    ensures |rest| <= |s|
  {
    if s == "" || s[0] == '\n' then s else SkipComment(s[1..])
  }

  function Read(s: string, r: Reader): Option<seq<seq<Word>>>
    decreases |s|
  {
    if s == "" then
      if r.mode == Plain then Some(r.EndLine().lines) else None
    else
      var c, rest := s[0], s[1..];
      match r.mode
      case Single =>
        if c == '\'' then Read(rest, r.(mode := Plain)) else Read(rest, r.Add(c, true))
      case Double =>
        if c == '"' then Read(rest, r.(mode := Plain))
        else if c == '$' || c == '`' then None
        else if c == '\\' && rest != "" && rest[0] in {'$', '`', '"', '\\'} then Read(rest[1..], r.Add(rest[0], true))
        else if c == '\\' && rest != "" && rest[0] == '\n' then Read(rest[1..], r)
        else Read(rest, r.Add(c, true))
      case Plain =>
        if c == '\\' then
          if rest == "" then Read(rest, r.Add(c, true))
          else if rest[0] == '\n' then Read(rest[1..], r)
          else Read(rest[1..], r.Add(rest[0], true))
        else if c == '\'' then Read(rest, r.(word := Some(r.Started()), mode := Single))
        else if c == '"' then Read(rest, r.(word := Some(r.Started()), mode := Double))
        else if Expands(c) || IsOperator(c) then None
        else if c == '\n' then Read(rest, r.EndLine())
        else if IsBlank(c) then Read(rest, r.EndWord())
        else if c == '#' && r.word == None then Read(SkipComment(rest), r)
        else Read(rest, r.Add(c, false))
  }

  const START := Reader([], [], None, Plain)

  predicate IsNameStart(c: char) { 'a' <= c <= 'z' || 'A' <= c <= 'Z' || c == '_' }

  predicate IsNameChar(c: char) { IsNameStart(c) || '0' <= c <= '9' }

  /** Quote removal. */
  function Text(w: Word): string {
    seq(|w|, i requires 0 <= i < |w| => w[i].c)
  }

  /** The length of the unquoted name that `w` starts with. */
  function NameLength(w: Word): (n: nat)
    ensures n <= |w|
  {
    if w == [] || w[0].quoted || !IsNameChar(w[0].c) then 0 else 1 + NameLength(w[1..])
  }

  /** An assignment word is an unquoted name, an unquoted equals sign and a value. */
  function Assignment(w: Word): Option<(string, string)> {
    var n := NameLength(w);
    if n == 0 || !IsNameStart(w[0].c) || n == |w| || w[n] != WordChar('=', false) then None
    else Some((Text(w[..n]), Text(w[n + 1..])))
  }

  function Assignments(lines: seq<seq<Word>>): Option<seq<(string, string)>> {
    if lines == [] then Some([])
    else if |lines[0]| != 1 then None
    else
      match (Assignment(lines[0][0]), Assignments(lines[1..]))
      case (Some(a), Some(more)) => Some([a] + more)
      case _ => None
  }

  /** What sourcing the file assigns. */
  function Source(file: string): Option<seq<(string, string)>> {
    match Read(file, START)
    case Some(lines) => Assignments(lines)
    case None => None
  }

  // ----- reading back a quoted string

  /** The characters of a word all written the same way. */
  function Marked(s: string, quoted: bool): Word {
    seq(|s|, i requires 0 <= i < |s| => WordChar(s[i], quoted))
  }

  lemma {:induction false} ReadEscaped(s: string, rest: string, r: Reader)
    requires r.mode == Single && r.word.Some?
    ensures Read(Escaped(s) + "'" + rest, r)
         == Read(rest, r.(word := Some(r.word.value + Marked(s, true)), mode := Plain))
  {
    hide Read;
    if s == "" {
      assert Escaped(s) + "'" + rest == "'" + rest;
      ReadSingleStep('\'', rest, r);
      assert r.word.value + Marked(s, true) == r.word.value;
    } else {
      var tail := Escaped(s[1..]) + "'" + rest;
      ReadEscaped(s[1..], rest, r.Add(s[0], true));
      MarkedStep(r.word.value, s, true);
      if s[0] == '\'' {
        ReadEscapedQuote(tail, r);
        assert Escaped(s) + "'" + rest == "'\\''" + tail;
      } else {
        ReadSingleStep(s[0], tail, r);
        assert Escaped(s) + "'" + rest == [s[0]] + tail;
      }
    }
  }

  lemma {:induction false} ReadSingleStep(c: char, tail: string, r: Reader)
    requires r.mode == Single
    ensures Read([c] + tail, r) == Read(tail, if c == '\'' then r.(mode := Plain) else r.Add(c, true))
  {
  }

  lemma {:induction false} MarkedStep(w: Word, s: string, quoted: bool)
    requires s != ""
    ensures w + Marked(s, quoted) == w + [WordChar(s[0], quoted)] + Marked(s[1..], quoted)
  {
  }

  /** The four characters '\'' inside a single-quoted string add one literal quote. */
  lemma {:induction false} ReadEscapedQuote(tail: string, r: Reader)
    requires r.mode == Single && r.word.Some?
    ensures Read("'\\''" + tail, r) == Read(tail, r.Add('\'', true))
  {
    var text := "'\\''" + tail;
    var plain := r.(mode := Plain);
    assert text[1..] == "\\''" + tail;
    assert Read(text, r) == Read("\\''" + tail, plain);
    assert ("\\''" + tail)[1..][1..] == "'" + tail;
    assert Read("\\''" + tail, plain) == Read("'" + tail, plain.Add('\'', true));
    assert ("'" + tail)[1..] == tail;
  }

  /** Wherever a word may continue, a quoted string adds exactly its own characters to it, all literal. */
  lemma {:induction false} ReadQuoted(s: string, rest: string, r: Reader)
    requires r.mode == Plain
    ensures Read(Quote(s) + rest, r) == Read(rest, r.(word := Some(r.Started() + Marked(s, true))))
  {
    var text := Quote(s) + rest;
    var tail := Escaped(s) + "'" + rest;
    assert text == ['\''] + tail;
    assert text[1..] == tail;
    ReadEscaped(s, rest, r.(word := Some(r.Started()), mode := Single));
  }

  /** A character that stands for itself in an unquoted word already begun. */
  predicate Ordinary(c: char) {
    !IsBlank(c) && !IsOperator(c) && !Expands(c) && c !in {'\'', '"', '\\', '\n', '#'}
  }

  lemma {:induction false} ReadOrdinary(s: string, rest: string, r: Reader)
    requires r.mode == Plain && s != "" && forall i :: 0 <= i < |s| ==> Ordinary(s[i])
    ensures Read(s + rest, r) == Read(rest, r.(word := Some(r.Started() + Marked(s, false))))
  {
    assert (s + rest)[1..] == s[1..] + rest;
    assert Read(s + rest, r) == Read(s[1..] + rest, r.Add(s[0], false));
    if |s| == 1 {
      assert s[1..] + rest == rest;
      assert Marked(s, false) == [WordChar(s[0], false)];
    } else {
      ReadOrdinary(s[1..], rest, r.Add(s[0], false));
      assert r.Started() + [WordChar(s[0], false)] + Marked(s[1..], false) == r.Started() + Marked(s, false);
    }
  }

  /** One line `name='value'` of the file. */
  lemma {:induction false} ReadQuotedLine(name: string, value: string, rest: string, lines: seq<seq<Word>>)
    requires forall i :: 0 <= i < |name| ==> Ordinary(name[i])
    ensures Read(name + "=" + Quote(value) + "\n" + rest, START.(lines := lines))
         == Read(rest, START.(lines := lines + [[Marked(name + "=", false) + Marked(value, true)]]))
  {
    var r := START.(lines := lines);
    var text := name + "=" + Quote(value) + "\n" + rest;
    assert text == (name + "=") + (Quote(value) + ("\n" + rest));
    ReadOrdinary(name + "=", Quote(value) + ("\n" + rest), r);
    var r1 := r.(word := Some(Marked(name + "=", false)));
    assert r.Started() + Marked(name + "=", false) == Marked(name + "=", false);
    ReadQuoted(value, "\n" + rest, r1);
    ReadNewline(rest, lines, Marked(name + "=", false) + Marked(value, true));
  }

  lemma {:induction false} ReadNewline(rest: string, lines: seq<seq<Word>>, word: Word)
    ensures Read("\n" + rest, START.(lines := lines, word := Some(word)))
            == Read(rest, START.(lines := lines + [[word]]))
  {
    assert ("\n" + rest)[1..] == rest;
    assert [] + [word] == [word];
    assert START.(lines := lines, word := Some(word)).EndLine() == START.(lines := lines + [[word]]);
  }

  lemma {:induction false} ReadPlainLine(text: string, rest: string, lines: seq<seq<Word>>)
    requires text != "" && forall i :: 0 <= i < |text| ==> Ordinary(text[i])
    ensures Read(text + "\n" + rest, START.(lines := lines)) == Read(rest,
            START.(lines := lines + [[Marked(text, false)]]))
  {
    var r := START.(lines := lines);
    assert text + "\n" + rest == text + ("\n" + rest);
    ReadOrdinary(text, "\n" + rest, r);
    assert r.Started() + Marked(text, false) == Marked(text, false);
    ReadNewline(rest, lines, Marked(text, false));
  }

  // ----- the assignments

  lemma {:induction false} TextOfMarked(s: string, quoted: bool)
    ensures Text(Marked(s, quoted)) == s
  {
  }

  predicate IsName(name: string) {
    name != "" && IsNameStart(name[0]) && forall i :: 0 <= i < |name| ==> IsNameChar(name[i])
  }

  lemma {:induction false} NameOfAssignment(name: string, w: Word)
    requires forall i :: 0 <= i < |name| ==> IsNameChar(name[i])
    ensures NameLength(Marked(name, false) + [WordChar('=', false)] + w) == |name|
  {
    if name != "" {
      NameOfAssignment(name[1..], w);
      var whole := Marked(name, false) + [WordChar('=', false)] + w;
      assert whole[1..] == Marked(name[1..], false) + [WordChar('=', false)] + w;
    }
  }

  lemma {:induction false} AssignmentOf(name: string, value: string, quoted: bool)
    requires IsName(name)
    ensures Assignment(Marked(name + "=", false) + Marked(value, quoted)) == Some((name, value))
  {
    var w := Marked(value, quoted);
    var whole := Marked(name + "=", false) + w;
    assert whole == Marked(name, false) + [WordChar('=', false)] + w;
    NameOfAssignment(name, w);
    assert whole[..|name|] == Marked(name, false);
    assert whole[|name| + 1..] == w;
    TextOfMarked(name, false);
    TextOfMarked(value, quoted);
  }

  // ----- the round trip

  /** One assignment to be written, its value quoted or as it stands. */
  datatype Entry = Entry(name: string, value: string, quoted: bool)
  {
    predicate Writable() {
      IsName(name) && (quoted || forall i :: 0 <= i < |value| ==> Ordinary(value[i]))
    }

    function Line(): string {
      name + "=" + (if quoted then Quote(value) else value) + "\n"
    }

    function AsWord(): Word {
      Marked(name + "=", false) + Marked(value, quoted)
    }
  }

  function Render(entries: seq<Entry>): string {
    if entries == [] then "" else entries[0].Line() + Render(entries[1..])
  }

  function Words(entries: seq<Entry>): seq<seq<Word>> {
    if entries == [] then [] else [[entries[0].AsWord()]] + Words(entries[1..])
  }

  function Pairs(entries: seq<Entry>): seq<(string, string)> {
    if entries == [] then [] else [(entries[0].name, entries[0].value)] + Pairs(entries[1..])
  }

  lemma {:induction false} ReadLine(e: Entry, rest: string, lines: seq<seq<Word>>)
    requires e.Writable()
    ensures Read(e.Line() + rest, START.(lines := lines)) == Read(rest, START.(lines := lines + [[e.AsWord()]]))
  {
    hide Read;
    var r := START.(lines := lines);
    if e.quoted {
      ReadQuotedLine(e.name, e.value, rest, lines);
    } else {
      var text := e.name + "=" + e.value;
      assert Marked(text, false) == e.AsWord();
      ReadPlainLine(text, rest, lines);
    }
  }

  lemma {:induction false} ReadEntries(entries: seq<Entry>, lines: seq<seq<Word>>)
    requires forall e :: e in entries ==> e.Writable()
    ensures Read(Render(entries), START.(lines := lines)) == Some(lines + Words(entries))
  {
    hide Read;
    if entries == [] {
      ReadEnd(lines);
      assert lines + [] == lines;
    } else {
      ReadLine(entries[0], Render(entries[1..]), lines);
      ReadEntries(entries[1..], lines + [[entries[0].AsWord()]]);
      assert lines + [[entries[0].AsWord()]] + Words(entries[1..]) == lines + Words(entries);
    }
  }

  lemma {:induction false} ReadEnd(lines: seq<seq<Word>>)
    ensures Read("", START.(lines := lines)) == Some(lines)
  {
  }

  lemma {:induction false} AssignmentsOfWords(entries: seq<Entry>)
    requires forall e :: e in entries ==> e.Writable()
    ensures Assignments(Words(entries)) == Some(Pairs(entries))
  {
    hide Assignment;
    if entries != [] {
      assert entries[0].Writable();
      AssignmentOf(entries[0].name, entries[0].value, entries[0].quoted);
      AssignmentsOfWords(entries[1..]);
      assert Words(entries)[1..] == Words(entries[1..]);
    }
  }

  /** Sourcing written entries assigns exactly those entries, in order. */
  lemma {:induction false} RenderRoundTrip(entries: seq<Entry>)
    requires forall e :: e in entries ==> e.Writable()
    ensures Source(Render(entries)) == Some(Pairs(entries))
  {
    hide Read, Assignments;
    ReadEntries(entries, []);
    assert [] + Words(entries) == Words(entries);
    AssignmentsOfWords(entries);
  }

  function EnvEntries(req: Request): seq<Entry> {
    [Entry("ADMIN_EMAIL", req.adminEmail, true),
     Entry("ADMIN_PW", req.adminPw, true),
     Entry("INGRESS_HOST", EffectiveHost(req), true),
     Entry("TENANT_SLUG", "demo", false),
     Entry("TENANT_NAME", TenantName(req), true)]
  }

  lemma {:induction false} RenderCons(e: Entry, es: seq<Entry>)
    ensures Render([e] + es) == e.Line() + Render(es)
    ensures Pairs([e] + es) == [(e.name, e.value)] + Pairs(es)
  {
  }

  lemma {:induction false} RenderFive(a: Entry, b: Entry, c: Entry, d: Entry, e: Entry)
    ensures Render([a, b, c, d, e]) == a.Line() + b.Line() + c.Line() + d.Line() + e.Line()
    ensures Pairs([a, b, c, d, e]) == [(a.name, a.value), (b.name, b.value), (c.name, c.value), (d.name, d.value),
            (e.name, e.value)]
  {
    hide Render, Pairs;
    RenderCons(e, []);
    RenderCons(d, [e]);
    RenderCons(c, [d, e]);
    RenderCons(b, [c, d, e]);
    RenderCons(a, [b, c, d, e]);
    assert [e] + [] == [e] && [d] + [e] == [d, e] && [c] + [d, e] == [c, d, e] && [b] + [c, d, e] == [b, c, d, e]
        && [a] + [b, c, d, e] == [a, b, c, d, e];
    RenderNone();
  }

  lemma {:induction false} RenderNone()
    ensures Render([]) == "" && Pairs([]) == []
  {
  }

  lemma {:induction false} EntriesWritable(req: Request)
    ensures forall e :: e in EnvEntries(req) ==> e.Writable()
  {
  }

  lemma {:induction false} EnvIsRendered(req: Request)
    ensures var es := EnvEntries(req);
      EnvContents(req) == es[0].Line() + es[1].Line() + es[2].Line() + es[3].Line() + es[4].Line()
  {
    hide Quote, TenantName, EffectiveHost;
    var es := EnvEntries(req);
    assert es[0].Line() == "ADMIN_EMAIL=" + Quote(req.adminEmail) + "\n";
    assert es[1].Line() == "ADMIN_PW=" + Quote(req.adminPw) + "\n";
    assert es[2].Line() == "INGRESS_HOST=" + Quote(EffectiveHost(req)) + "\n";
    assert es[3].Line() == "TENANT_SLUG=demo\n";
    assert es[4].Line() == "TENANT_NAME=" + Quote(TenantName(req)) + "\n";
  }

  /** Sourcing the generated file assigns exactly the five variables, for every value whatever characters it
      holds, and expands or executes nothing: the two credentials as entered, the host name or its default, the
      fixed slug, and the name of the demo tenant. */
  lemma {:induction false} EnvRoundTrip(req: Request)
    ensures Source(EnvContents(req)) == Some([
              ("ADMIN_EMAIL", req.adminEmail),
              ("ADMIN_PW", req.adminPw),
              ("INGRESS_HOST", if req.hostname == "" then "soctalk.local" else req.hostname),
              ("TENANT_SLUG", "demo"),
              ("TENANT_NAME", req.msspName + " \U{2014} Demo")])
  {
    hide Source, Render, Pairs, Entry.Line, EnvContents;
    var es := EnvEntries(req);
    RenderFive(es[0], es[1], es[2], es[3], es[4]);
    EnvIsRendered(req);
    EntriesWritable(req);
    RenderRoundTrip(es);
  }

  /** Quoting is injective: no two values are written alike. */
  lemma {:induction false} QuoteInjective(s: string, t: string)
    requires Quote(s) == Quote(t)
    ensures s == t
  {
    hide Source;
    RenderRoundTrip([Entry("X", s, true)]);
    RenderRoundTrip([Entry("X", t, true)]);
    assert Render([Entry("X", s, true)]) == Render([Entry("X", t, true)]);
    assert Pairs([Entry("X", s, true)])[0].1 == s && Pairs([Entry("X", t, true)])[0].1 == t;
  }
}
