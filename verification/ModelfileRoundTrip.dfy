/** Printed Modelfiles are read back, exactly when every argument survives its quoting. */
module ModelfileRoundTrip {
  import opened Wrappers
  import opened Modelfile

  // ---- which commands survive ----

  /** Printable ASCII, spaces and newlines. */
  predicate Printable(s: string) { forall i :: 0 <= i < |s| ==> IsPrint(s[i]) || s[i] == '\n' }

  /** Printed without quotes. */
  predicate Bare(s: string) { '\n' !in s && !HasPrefix(s, " ") && !HasSuffix(s, " ") }

  /** Three quotes right before the end of the k-th character's line would end the value there. */
  predicate EndsEarly(s: string, k: int) {
    0 <= k < |s| && s[k] == '\n' && HasSuffix(TrimRight(s[..k]), TRIPLE)
  }

  predicate ValueOk(s: string) {
    if Bare(s) then !HasPrefix(s, "\"")
    else '"' in s ==> forall k :: 0 <= k < |s| ==> !EndsEarly(s, k)
  }

  predicate ParameterName(name: string) {
    && (forall i :: 0 <= i < |name| ==> IsAlpha(name[i]) || IsNumber(name[i]) || name[i] == '_')
    && name != "model" && name != "message" && !Plain(name)
  }

  /** The command can be printed at all: a parameter name is a word, a message has a role. */
  predicate Printed(c: Command) {
    && Printable(c.args)
    && (c.name == "model" || Plain(c.name)
        || (if c.name == "message" then ValidRole(Cut(c.args).0) && c.args == Cut(c.args).0 + ": " + Cut(c.args).1
            else ParameterName(c.name)))
  }

  /** The argument survives printing and parsing. */
  predicate Survives(c: Command) {
    if c.name == "model" then Bare(c.args) && !HasPrefix(c.args, "\"")
    else ValueOk(ValueOf(c))
  }

  function ValueOf(c: Command): string { if c.name == "message" then Cut(c.args).1 else c.args }

  function PrintedValue(c: Command): string { if c.name == "model" then c.args else Quote(ValueOf(c)) }

  // ---- strings ----

  lemma {:induction false} TrimNothing(s: string)
    requires s == "" || (!IsWhite(s[0]) && !IsWhite(s[|s| - 1]))
    ensures TrimSpace(s) == s
  {
  }

  lemma {:induction false} TrimRightAfter(a: string, s: string)
    requires a != "" && !IsWhite(a[|a| - 1])
    ensures TrimRight(a + s) == a + TrimRight(s)
  {
    if s == "" {
      assert a + s == a;
    } else {
      assert (a + s)[..|a + s| - 1] == a + s[..|s| - 1];
      if IsWhite(s[|s| - 1]) { TrimRightAfter(a, s[..|s| - 1]); }
    }
  }

  lemma {:induction false} TrimRightPrefix(s: string)
    ensures |TrimRight(s)| <= |s| && TrimRight(s) == s[..|TrimRight(s)|]
  {
    if s != "" && IsWhite(s[|s| - 1]) { TrimRightPrefix(s[..|s| - 1]); }
  }

  lemma {:induction false} TrimQuoted(quotes: string, s: string)
    requires quotes != "" && !IsWhite(quotes[0]) && !IsWhite(quotes[|quotes| - 1])
    ensures TrimSpace(quotes + s) == quotes + TrimRight(s)
  {
    assert (quotes + s)[0] == quotes[0];
    TrimRightAfter(quotes, s);
  }

  lemma {:induction false} OneCharEnds(s: string, c: char)
    ensures HasPrefix(s, [c]) <==> s != "" && s[0] == c
    ensures HasSuffix(s, [c]) <==> s != "" && s[|s| - 1] == c
  {
    if s != "" {
      assert s[..1] == [s[0]] && s[|s| - 1..] == [s[|s| - 1]];
    }
  }

  lemma {:induction false} TripleEnds(s: string)
    ensures HasPrefix(s, TRIPLE) <==> |s| >= 3 && s[0] == s[1] == s[2] == '"'
    ensures HasSuffix(s, TRIPLE) <==> |s| >= 3 && s[|s| - 1] == s[|s| - 2] == s[|s| - 3] == '"'
  {
    if |s| >= 3 {
      assert s[..3] == [s[0], s[1], s[2]] && s[|s| - 3..] == [s[|s| - 3], s[|s| - 2], s[|s| - 1]];
    }
  }

  /** A complete printed value gives back the value. */
  lemma {:induction false} WholeValue(s: string)
    requires Printable(s) && ValueOk(s)
    ensures Unquote(TrimSpace(Quote(s))) == Some(s)
  {
    var q := Quote(s);
    OneCharEnds(s, ' ');
    OneCharEnds(s, '"');
    OneCharEnds(q, '"');
    TripleEnds(s);
    TripleEnds(q);
    TrimNothing(q);
    if !Bare(s) {
      if '"' in s {
        assert q[3..|q| - 3] == s;
      } else {
        assert q[1..|q| - 1] == s;
        assert forall i :: 0 <= i < |s| ==> q[1 + i] == s[i] && s[i] in s;
      }
    }
  }

  /** At a newline inside a printed value the quote is still open. */
  lemma {:induction false} OpenAtNewline(s: string, k: nat)
    requires Printable(s) && ValueOk(s) && k < |Quote(s)| && Quote(s)[k] == '\n'
    ensures Unquote(TrimSpace(Quote(s)[..k])).None?
  {
    var q := Quote(s);
    if '"' in s {
      var x := s[..k - 3];
      assert q[..k] == TRIPLE + x;
      assert q[k] == s[k - 3];
      assert !EndsEarly(s, k - 3);
      TrimQuoted(TRIPLE, x);
      OpenTriple(TrimRight(x));
    } else {
      var x := s[..k - 1];
      assert q[..k] == "\"" + x;
      TrimQuoted("\"", x);
      TrimRightPrefix(x);
      assert forall i :: 0 <= i < |TrimRight(x)| ==> TrimRight(x)[i] == s[i] && s[i] in s;
      OpenSingle(TrimRight(x));
    }
  }

  lemma {:induction false} OpenTriple(y: string)
    requires !HasSuffix(y, TRIPLE)
    ensures Unquote(TRIPLE + y).None?
  {
    TripleEnds(TRIPLE + y);
    TripleEnds(y);
  }

  lemma {:induction false} OpenSingle(y: string)
    requires '"' !in y
    ensures Unquote("\"" + y).None?
  {
    var q := "\"" + y;
    TripleEnds(q);
    OneCharEnds(q, '"');
    assert forall i :: 0 <= i < |y| ==> q[1 + i] == y[i] && y[i] in y;
  }

  // ---- feeding pieces of text ----

  lemma {:induction false} FeedAppend(p: Parser, a: string, b: string)
    ensures FeedAll(p, a + b) == match FeedAll(p, a) case Err(e) => Err(e) case Ok(q) => FeedAll(q, b)
    decreases |a|
  {
    if a == "" {
      assert a + b == b;
    } else {
      assert (a + b)[0] == a[0] && (a + b)[1..] == a[1..] + b;
      match Feed(p, a[0]) {
        case Err(_) =>
        case Ok(q) => FeedAppend(q, a[1..], b);
      }
    }
  }

  lemma {:induction false} FeedThen(p: Parser, a: string, q: Parser, b: string)
    requires FeedAll(p, a) == Ok(q)
    ensures FeedAll(p, a + b) == FeedAll(q, b)
  {
    FeedAppend(p, a, b);
  }

  lemma {:induction false} FeedOne(p: Parser, c: char, q: Parser)
    requires Feed(p, c) == Ok(q)
    ensures FeedAll(p, [c]) == Ok(q)
  {
    assert [c][1..] == "";
    assert FeedAll(q, "") == Ok(q);
  }

  /** Characters that keep the state: they are added to the buffer. */
  lemma {:induction false} FeedWord(p: Parser, w: string)
    requires forall i :: 0 <= i < |w| ==> IsPrint(w[i]) && OnRune(w[i], p.curr) == Ok((p.curr, w[i]))
    ensures FeedAll(p, w) == Ok(p.(b := p.b + w))
    decreases |w|
  {
    if w == "" {
      assert p.b + w == p.b;
    } else {
      var q := p.(b := p.b + [w[0]]);
      assert Feed(p, w[0]) == Ok(q);
      FeedWord(q, w[1..]);
      assert p.b + [w[0]] + w[1..] == p.b + w;
    }
  }

  /** A word at the start of a line. */
  lemma {:induction false} FeedKeyword(p: Parser, w: string)
    requires p.curr == Nil && w != "" && forall i :: 0 <= i < |w| ==> IsAlpha(w[i])
    ensures FeedAll(p, w) == Ok(p.(curr := Name, b := w))
  {
    var q := p.(curr := Name, b := [w[0]]);
    assert Feed(p, w[0]) == Ok(q);
    FeedWord(q, w[1..]);
    assert [w[0]] + w[1..] == w;
  }

  /** A value up to its end: newlines inside it find the quote open. */
  lemma {:induction false} FeedValue(p: Parser, v: string)
    requires p.curr == Value && Printable(v)
    requires forall k :: 0 <= k < |v| && v[k] == '\n' ==> Unquote(TrimSpace(p.b + v[..k])).None?
    ensures FeedAll(p, v) == Ok(p.(b := p.b + v))
    decreases |v|
  {
    if v == "" {
      assert p.b + v == p.b;
    } else {
      var q := p.(b := p.b + [v[0]]);
      assert p.b + v[..0] == p.b;
      assert Feed(p, v[0]) == Ok(q);
      forall k | 0 <= k < |v[1..]| && v[1..][k] == '\n' ensures Unquote(TrimSpace(q.b + v[1..][..k])).None? {
        OneOver(p.b, v, k);
      }
      FeedValue(q, v[1..]);
      OneOver(p.b, v, |v| - 1);
    }
  }

  lemma {:induction false} OneOver(b: string, v: string, k: nat)
    requires k < |v|
    ensures b + [v[0]] + v[1..][..k] == b + v[..k + 1]
    ensures k + 1 == |v| ==> b + [v[0]] + v[1..] == b + v
  {
  }

  // ---- one command ----

  /** Between commands. */
  predicate AtStart(p: Parser) { p.curr == Nil && p.b == "" && p.role == "" }

  /** Everything of the line before the value. */
  function Head(c: Command): string {
    if c.name == "model" then "FROM "
    else if Plain(c.name) then ToUpper(c.name) + " "
    else if c.name == "message" then "MESSAGE " + Cut(c.args).0 + " "
    else "PARAMETER " + c.name + " "
  }

  lemma {:induction false} PrintIsHead(c: Command)
    ensures Print(c) == Head(c) + PrintedValue(c)
  {
  }

  function AfterHead(p: Parser, c: Command): Parser {
    p.(cmd := p.cmd.(name := c.name), curr := Value, b := "", role := if c.name == "message" then Cut(c.args).0 else "")
  }

  lemma {:induction false} LowerUpper(s: string)
    requires forall i :: 0 <= i < |s| ==> 'a' <= s[i] <= 'z'
    ensures ToLower(ToUpper(s)) == s && forall i :: 0 <= i < |s| ==> IsAlpha(ToUpper(s)[i])
  {
  }

  lemma {:induction false} PlainLower(name: string)
    requires Plain(name)
    ensures name != "" && forall i :: 0 <= i < |name| ==> 'a' <= name[i] <= 'z'
  {
  }

  /** The keyword and the space after it. */
  lemma {:induction false} FeedWordSpace(p: Parser, w: string, q: Parser)
    requires p.curr == Nil && w != "" && forall i :: 0 <= i < |w| ==> IsAlpha(w[i])
    requires Feed(p.(curr := Name, b := w), ' ') == Ok(q)
    ensures FeedAll(p, w + " ") == Ok(q)
  {
    FeedKeyword(p, w);
    FeedThen(p, w, p.(curr := Name, b := w), " ");
    FeedOne(p.(curr := Name, b := w), ' ', q);
  }

  lemma {:induction false} FeedFrom(p: Parser, c: Command)
    requires AtStart(p) && c.name == "model"
    ensures FeedAll(p, Head(c)) == Ok(AfterHead(p, c))
  {
    assert ToLower("FROM") == "from" && "FROM" + " " == "FROM ";
    FeedWordSpace(p, "FROM", AfterHead(p, c));
  }

  lemma {:induction false} FeedPlain(p: Parser, c: Command)
    requires AtStart(p) && Plain(c.name)
    ensures FeedAll(p, Head(c)) == Ok(AfterHead(p, c))
  {
    PlainLower(c.name);
    LowerUpper(c.name);
    FeedWordSpace(p, ToUpper(c.name), AfterHead(p, c));
  }

  lemma {:induction false} FeedMessage(p: Parser, c: Command)
    requires AtStart(p) && c.name == "message" && ValidRole(Cut(c.args).0)
    ensures FeedAll(p, Head(c)) == Ok(AfterHead(p, c))
  {
    var role := Cut(c.args).0;
    var q := p.(cmd := p.cmd.(name := "message"), curr := Message, b := "");
    assert ToLower("MESSAGE") == "message";
    FeedWordSpace(p, "MESSAGE", q);
    FeedRole(q, role, AfterHead(p, c));
    assert Head(c) == "MESSAGE" + " " + (role + " ");
    FeedThen(p, "MESSAGE" + " ", q, role + " ");
  }

  lemma {:induction false} FeedRole(q: Parser, role: string, after: Parser)
    requires q.curr == Message && q.b == "" && ValidRole(role) && after == q.(curr := Value, b := "", role := role)
    ensures FeedAll(q, role + " ") == Ok(after)
  {
    FeedWord(q, role);
    assert "" + role == role;
    FeedThen(q, role, q.(b := role), " ");
    FeedOne(q.(b := role), ' ', after);
  }

  lemma {:induction false} FeedParameter(p: Parser, c: Command)
    requires AtStart(p) && ParameterName(c.name)
    ensures FeedAll(p, Head(c)) == Ok(AfterHead(p, c))
  {
    var q := p.(curr := Parameter, b := "");
    assert ToLower("PARAMETER") == "parameter";
    FeedWordSpace(p, "PARAMETER", q);
    FeedParameterName(q, c.name, AfterHead(p, c));
    assert Head(c) == "PARAMETER" + " " + (c.name + " ");
    FeedThen(p, "PARAMETER" + " ", q, c.name + " ");
  }

  lemma {:induction false} FeedParameterName(q: Parser, name: string, after: Parser)
    requires q.curr == Parameter && q.b == "" && ParameterName(name)
    requires after == q.(cmd := q.cmd.(name := name), curr := Value, b := "")
    ensures FeedAll(q, name + " ") == Ok(after)
  {
    var r := q.(b := name);
    assert FeedAll(q, name) == Ok(r) by {
      FeedWord(q, name);
      assert "" + name == name;
    }
    FeedOne(r, ' ', after);
    FeedThen(q, name, r, " ");
  }

  lemma {:induction false} FeedHead(p: Parser, c: Command)
    requires AtStart(p) && Printed(c)
    ensures FeedAll(p, Head(c)) == Ok(AfterHead(p, c))
  {
    if c.name == "model" { FeedFrom(p, c); }
    else if Plain(c.name) { FeedPlain(p, c); }
    else if c.name == "message" { FeedMessage(p, c); }
    else { FeedParameter(p, c); }
  }

  lemma {:induction false} CutPrintable(s: string)
    requires Printable(s)
    ensures Printable(Cut(s).0) && Printable(Cut(s).1)
  {
    if s != "" && !HasPrefix(s, ": ") { CutPrintable(s[1..]); }
  }

  /** A value that closes at the end of its line. */
  predicate ClosesAt(v: string, s: string) {
    && Unquote(TrimSpace(v)) == Some(s)
    && forall k :: 0 <= k < |v| && v[k] == '\n' ==> Unquote(TrimSpace(v[..k])).None?
  }

  lemma {:induction false} ValueCloses(c: Command)
    requires Printed(c) && Survives(c)
    ensures Printable(PrintedValue(c)) && ClosesAt(PrintedValue(c), ValueOf(c))
  {
    CutPrintable(c.args);
    var s, v := ValueOf(c), PrintedValue(c);
    if c.name == "model" {
      assert Quote(s) == s;
      WholeValue(s);
    } else {
      WholeValue(s);
      forall k | 0 <= k < |v| && v[k] == '\n' ensures Unquote(TrimSpace(v[..k])).None? { OpenAtNewline(s, k); }
      QuotePrintable(s);
    }
  }

  lemma {:induction false} QuotePrintable(s: string)
    requires Printable(s)
    ensures Printable(Quote(s))
  {
  }

  function AfterCommand(p: Parser, c: Command): Parser { Parser(c, Nil, "", "", p.cmds + [c]) }

  lemma {:induction false} FeedLine(q: Parser, v: string, s: string)
    requires q.curr == Value && q.b == "" && Printable(v) && ClosesAt(v, s)
    ensures FeedAll(q, v + "\n") == Ok(Finish(q, s).(curr := Nil, b := ""))
  {
    forall k | 0 <= k < |v| && v[k] == '\n' ensures Unquote(TrimSpace(q.b + v[..k])).None? {
      assert q.b + v[..k] == v[..k];
    }
    FeedValue(q, v);
    assert q.b + v == v;
    FeedThen(q, v, q.(b := v), "\n");
    FeedOne(q.(b := v), '\n', Finish(q, s).(curr := Nil, b := ""));
  }

  lemma {:induction false} FeedRest(p: Parser, c: Command)
    requires Printed(c) && Survives(c)
    ensures FeedAll(AfterHead(p, c), PrintedValue(c) + "\n") == Ok(AfterCommand(p, c))
  {
    ValueCloses(c);
    FeedLine(AfterHead(p, c), PrintedValue(c), ValueOf(c));
  }

  /** A printed command, read between commands. */
  lemma {:induction false} FeedCommand(p: Parser, c: Command)
    requires AtStart(p) && Printed(c) && Survives(c)
    ensures FeedAll(p, Print(c) + "\n") == Ok(AfterCommand(p, c))
  {
    PrintIsHead(c);
    FeedHead(p, c);
    FeedRest(p, c);
    assert Print(c) + "\n" == Head(c) + (PrintedValue(c) + "\n");
    FeedThen(p, Head(c), AfterHead(p, c), PrintedValue(c) + "\n");
  }

  // ---- whole files ----

  function AfterAll(p: Parser, cmds: seq<Command>): Parser
    decreases |cmds|
  {
    if cmds == [] then p else AfterAll(AfterCommand(p, cmds[0]), cmds[1..])
  }

  lemma {:induction false} AllCollected(p: Parser, cmds: seq<Command>)
    requires AtStart(p)
    ensures AtStart(AfterAll(p, cmds)) && AfterAll(p, cmds).cmds == p.cmds + cmds
    decreases |cmds|
  {
    if cmds == [] {
      assert p.cmds + cmds == p.cmds;
    } else {
      AllCollected(AfterCommand(p, cmds[0]), cmds[1..]);
      assert p.cmds + [cmds[0]] + cmds[1..] == p.cmds + cmds;
    }
  }

  lemma {:induction false} FeedFile(p: Parser, cmds: seq<Command>)
    requires AtStart(p) && forall i :: 0 <= i < |cmds| ==> Printed(cmds[i]) && Survives(cmds[i])
    ensures FeedAll(p, PrintAll(cmds)) == Ok(AfterAll(p, cmds))
    decreases |cmds|
  {
    if cmds != [] {
      FeedCommand(p, cmds[0]);
      FeedFile(AfterCommand(p, cmds[0]), cmds[1..]);
      FeedThen(p, Print(cmds[0]) + "\n", AfterCommand(p, cmds[0]), PrintAll(cmds[1..]));
    }
  }

  /** Round trip: parsing the printed file gives back the same commands. */
  lemma {:induction false} RoundTrip(cmds: seq<Command>)
    requires HasModel(cmds) && forall i :: 0 <= i < |cmds| ==> Printed(cmds[i]) && Survives(cmds[i])
    ensures Parse(PrintAll(cmds)) == Ok(cmds)
  {
    FeedFile(START, cmds);
    AllCollected(START, cmds);
    assert [] + cmds == cmds;
  }

  // ---- nothing else survives ----

  /** If a text reappears further on in itself, what follows it reappears before it. */
  lemma {:induction false} ShiftBack(s: string, text: string, a: nat, i: nat)
    requires 1 <= a && |s| < |text| && a + |s| <= |text| && text[..|s|] == s && text[a..a + |s|] == s
    requires i <= |s| && text[i] == '\n' && forall j :: 0 <= j < a ==> text[j] != '\n'
    ensures false
  {
    if i >= a {
      assert text[i - a] == s[i - a] == text[a..a + |s|][i - a] == text[i];
      ShiftBack(s, text, a, i - a);
    }
  }

  lemma {:induction false} TrimLeftOffset(s: string) returns (o: nat)
    ensures o <= |s| && TrimLeft(s) == s[o..] && (forall j :: 0 <= j < o ==> IsWhite(s[j]))
    ensures o < |s| ==> !IsWhite(s[o])
  {
    if s != "" && IsWhite(s[0]) {
      var o1 := TrimLeftOffset(s[1..]);
      o := o1 + 1;
      forall j | 0 <= j < o ensures IsWhite(s[j]) {
        if j > 0 { assert s[j] == s[1..][j - 1]; }
      }
    } else {
      o := 0;
    }
  }

  lemma {:induction false} AllWhite(s: string)
    requires forall j :: 0 <= j < |s| ==> IsWhite(s[j])
    ensures TrimSpace(s) == ""
  {
    if s != "" {
      forall j | 0 <= j < |s[1..]| ensures IsWhite(s[1..][j]) { assert s[1..][j] == s[j + 1]; }
      AllWhite(s[1..]);
      assert TrimLeft(s) == TrimLeft(s[1..]);
    }
  }

  /** Before the first character that counts there is no newline. */
  lemma {:induction false} LeadingSpaces(x: string, s: string, o: nat)
    requires ClosesAt(x, s) && o <= |x| && forall j :: 0 <= j < o ==> IsWhite(x[j])
    ensures forall j :: 0 <= j < o ==> x[j] != '\n'
  {
    forall j | 0 <= j < o ensures x[j] != '\n' {
      AllWhite(x[..j]);
      TripleEnds("");
    }
  }

  /** The value read cannot begin after its own first character. */
  lemma {:induction false} NotShifted(s: string, text: string, a: nat)
    requires 1 <= a && |s| < |text| && a + |s| <= |text| && text[..|s|] == s && text[|s|] == '\n'
    requires forall j :: 0 <= j < a ==> text[j] != '\n'
    ensures text[a..a + |s|] != s
  {
    if text[a..a + |s|] == s { ShiftBack(s, text, a, |s|); }
  }

  /** Where the value stands in its quoted text. */
  lemma {:induction false} UnquoteOffset(y: string, s: string) returns (d: nat)
    requires Unquote(y) == Some(s)
    ensures d + |s| <= |y| && y[d..d + |s|] == s && forall j :: 0 <= j < d ==> y[j] == '"'
    ensures d == 0 ==> y == s && (s == "" || s[0] != '"')
  {
    TripleEnds(y);
    OneCharEnds(y, '"');
    d := if HasPrefix(y, TRIPLE) then 3 else if HasPrefix(y, "\"") then 1 else 0;
  }

  lemma {:induction false} SliceOfSlice(x: string, o: nat, y: string, d: nat, n: nat)
    requires o + |y| <= |x| && y == x[o..o + |y|] && d + n <= |y|
    ensures x[o + d..o + d + n] == y[d..d + n]
  {
    var tail := x[o..];
    assert y == tail[..|y|];
    assert tail[d..d + n] == x[o + d..o + d + n];
    assert tail[..|y|][d..d + n] == tail[d..d + n];
  }

  lemma {:induction false} TrimmedSlice(x: string, o: nat)
    requires o <= |x| && TrimLeft(x) == x[o..]
    ensures o + |TrimSpace(x)| <= |x| && TrimSpace(x) == x[o..o + |TrimSpace(x)|]
  {
    TrimRightPrefix(x[o..]);
    assert x[o..][..|TrimSpace(x)|] == x[o..o + |TrimSpace(x)|];
  }

  /** The characters of a trimmed text before its value: spaces and opening quotes. */
  lemma {:induction false} OffsetOf(x: string, s: string) returns (o: nat, a: nat)
    requires Printable(x) && ClosesAt(x, s)
    ensures o <= a <= a + |s| <= |x| && x[a..a + |s|] == s && forall j :: 0 <= j < a ==> x[j] != '\n'
    ensures o == 0 ==> x == "" || !IsWhite(x[0])
    ensures a == o ==> TrimSpace(x) == s && (s == "" || s[0] != '"')
  {
    o := TrimLeftOffset(x);
    LeadingSpaces(x, s, o);
    var y := TrimSpace(x);
    TrimmedSlice(x, o);
    var d := UnquoteOffset(y, s);
    a := o + d;
    SliceOfSlice(x, o, y, d, |s|);
    forall j | 0 <= j < a ensures x[j] != '\n' {
      if o <= j { assert x[j] == y[j - o]; }
    }
  }

  lemma {:induction false} TrimRightEnd(s: string)
    ensures TrimRight(s) == "" || !IsWhite(TrimRight(s)[|TrimRight(s)| - 1])
  {
    if s != "" && IsWhite(s[|s| - 1]) { TrimRightEnd(s[..|s| - 1]); }
  }

  /** A text that does not begin with a quote is complete at every point. */
  lemma {:induction false} NeverOpen(x: string, k: nat)
    requires k <= |x| && (x == "" || (!IsWhite(x[0]) && x[0] != '"'))
    ensures Unquote(TrimSpace(x[..k])).Some?
  {
    var p := x[..k];
    assert TrimLeft(p) == p;
    TrimRightPrefix(p);
    OneCharEnds(TrimRight(p), '"');
    TripleEnds(TrimRight(p));
  }

  lemma {:induction false} NoNewlineIn(x: string, s: string)
    requires ClosesAt(x, s) && (x == "" || (!IsWhite(x[0]) && x[0] != '"'))
    ensures forall k :: 0 <= k < |x| ==> x[k] != '\n'
  {
    forall k | 0 <= k < |x| ensures x[k] != '\n' { NeverOpen(x, k); }
  }

  /** A value read back from the beginning of its line was printed without quotes. */
  lemma {:induction false} ReadBackBare(x: string, s: string)
    requires Printable(x) && ClosesAt(x, s) && TrimSpace(x) == s && (x == "" || !IsWhite(x[0]))
        && (s == "" || s[0] != '"')
    ensures Bare(s) && !HasPrefix(s, "\"")
  {
    TrimRightPrefix(x);
    TrimRightEnd(x);
    assert TrimLeft(x) == x;
    OneCharEnds(s, ' ');
    OneCharEnds(s, '"');
    if s == "" {
    } else {
      NoNewlineIn(x, s);
    }
  }

  /** A value printed as it is and read back as it is needed no quotes and had none in front. */
  lemma {:induction false} BareReadBack(s: string, rest: string, m: nat)
    requires Printable(s + "\n" + rest) && m < |s + "\n" + rest| && ClosesAt((s + "\n" + rest)[..m], s)
    ensures Bare(s) && !HasPrefix(s, "\"")
  {
    var text := s + "\n" + rest;
    var x := text[..m];
    var o, a := OffsetOf(x, s);
    assert text[..|s|] == s && text[|s|] == '\n';
    assert x[a..a + |s|] == text[a..a + |s|];
    if 1 <= a {
      NotShifted(s, text, a);
    } else {
      ReadBackBare(x, s);
    }
  }

  /** Where the value that begins the text ends: its first newline with no quote open. */
  function FirstEnd(text: string, k: nat): (m: nat)
    requires k <= |text|
    ensures k <= m <= |text| && (m < |text| ==> text[m] == '\n' && Unquote(TrimSpace(text[..m])).Some?)
    ensures forall j :: k <= j < m && text[j] == '\n' ==> Unquote(TrimSpace(text[..j])).None?
    decreases |text| - k
  {
    if k == |text| || (text[k] == '\n' && Unquote(TrimSpace(text[..k])).Some?) then k else FirstEnd(text, k + 1)
  }

  lemma {:induction false} FirstEndCloses(text: string, m: nat)
    requires m == FirstEnd(text, 0) < |text|
    ensures ClosesAt(text[..m], Unquote(TrimSpace(text[..m])).value)
  {
    forall k | 0 <= k < m && text[..m][k] == '\n' ensures Unquote(TrimSpace(text[..m][..k])).None? {
      assert text[..m][..k] == text[..k] && text[k] == '\n';
    }
  }

  lemma {:induction false} TrimLength(s: string)
    ensures |TrimSpace(s)| <= |s|
  {
    var o := TrimLeftOffset(s);
    TrimRightPrefix(TrimLeft(s));
  }

  /** Three quotes at the end of a line end a triple-quoted value there: what is read is too short. */
  lemma {:induction false} EndedEarly(s: string, rest: string, k: int)
    requires EndsEarly(s, k)
    ensures var text := TRIPLE + s + rest;
            FirstEnd(text, 0) <= k + 3
            && |Unquote(TrimSpace(text[..FirstEnd(text, 0)])).value| < |s|
  {
    var text := TRIPLE + s + rest;
    var y := TrimRight(s[..k]);
    assert text[..k + 3] == TRIPLE + s[..k] && text[k + 3] == s[k];
    TrimQuoted(TRIPLE, s[..k]);
    TripleEnds(y);
    TripleEnds(TRIPLE + y);
    var m := FirstEnd(text, 0);
    assert text[k + 3] == '\n' && Unquote(TrimSpace(text[..k + 3])).Some?;
    ShortValue(text, m);
  }

  /** A triple-quoted value is at least six characters shorter than its text. */
  lemma {:induction false} ShortValue(text: string, m: nat)
    requires HasPrefix(text, TRIPLE) && m <= |text| && Unquote(TrimSpace(text[..m])).Some?
    ensures 3 <= m ==> |Unquote(TrimSpace(text[..m])).value| + 6 <= m
    ensures m < 3 ==> |Unquote(TrimSpace(text[..m])).value| <= m
  {
    TrimLength(text[..m]);
    if 3 <= m {
      assert text[..m] == TRIPLE + text[3..m] by { assert text[..3] == TRIPLE; }
      TrimQuoted(TRIPLE, text[3..m]);
      TripleEnds(TRIPLE + TrimRight(text[3..m]));
    }
  }

  lemma {:induction false} WrongBare(s: string, rest: string)
    requires Printable(s + "\n" + rest) && FirstEnd(s + "\n" + rest, 0) < |s + "\n" + rest|
    requires !Bare(s) || HasPrefix(s, "\"")
    ensures Unquote(TrimSpace((s + "\n" + rest)[..FirstEnd(s + "\n" + rest, 0)])).value != s
  {
    var text := s + "\n" + rest;
    var m := FirstEnd(text, 0);
    FirstEndCloses(text, m);
    if Unquote(TrimSpace(text[..m])).value == s { BareReadBack(s, rest, m); }
  }

  lemma {:induction false} QuotedLine(s: string, rest: string)
    requires Quote(s) == TRIPLE + s + TRIPLE
    ensures Quote(s) + "\n" + rest == TRIPLE + s + (TRIPLE + "\n" + rest)
  {
  }

  lemma {:induction false} WrongQuoted(s: string, rest: string)
    requires FirstEnd(Quote(s) + "\n" + rest, 0) < |Quote(s) + "\n" + rest| && !Bare(s) && !ValueOk(s)
    ensures Unquote(TrimSpace((Quote(s) + "\n" + rest)[..FirstEnd(Quote(s) + "\n" + rest, 0)])).value != s
  {
    var k :| 0 <= k < |s| && EndsEarly(s, k);
    QuotedLine(s, rest);
    EndedEarly(s, TRIPLE + "\n" + rest, k);
  }

  /** A value that does not survive is read as something else. */
  lemma {:induction false} WrongValue(c: Command, rest: string)
    requires !Survives(c) && Printable(PrintedValue(c) + "\n" + rest)
    requires FirstEnd(PrintedValue(c) + "\n" + rest, 0) < |PrintedValue(c) + "\n" + rest|
    ensures var text := PrintedValue(c) + "\n" + rest;
            Unquote(TrimSpace(text[..FirstEnd(text, 0)])).value != ValueOf(c)
  {
    if c.name == "model" || Bare(ValueOf(c)) {
      WrongBare(ValueOf(c), rest);
    } else {
      WrongQuoted(ValueOf(c), rest);
    }
  }

  // ---- files with a command that does not survive ----

  function Outcome(p: Parser, text: string): Result<seq<Command>, Error> {
    match FeedAll(p, text) case Err(e) => Err(e) case Ok(q) => Flush(q)
  }

  predicate StartsWith(cmds: seq<Command>, front: seq<Command>) { |front| <= |cmds| && cmds[..|front|] == front }

  lemma {:induction false} OutcomeThen(p: Parser, a: string, q: Parser, b: string)
    requires FeedAll(p, a) == Ok(q)
    ensures Outcome(p, a + b) == Outcome(q, b)
  {
    FeedThen(p, a, q, b);
  }

  /** Commands once read stay. */
  lemma {:induction false} CommandsStay(p: Parser, text: string)
    ensures FeedAll(p, text).Ok? ==> StartsWith(FeedAll(p, text).value.cmds, p.cmds)
    ensures Outcome(p, text).Ok? ==> StartsWith(Outcome(p, text).value, p.cmds)
    decreases |text|
  {
    if text != "" {
      match Feed(p, text[0]) {
        case Err(_) =>
        case Ok(q) =>
          FeedKeeps(p, text[0]);
          CommandsStay(q, text[1..]);
      }
    }
  }

  lemma {:induction false} FeedKeeps(p: Parser, r: char)
    ensures Feed(p, r).Ok? ==> StartsWith(Feed(p, r).value.cmds, p.cmds)
  {
  }

  /** A value that never closes. */
  lemma {:induction false} NeverCloses(q: Parser, text: string)
    requires q.curr == Value && q.b == "" && Printable(text) && text != "" && text[|text| - 1] == '\n'
    requires FirstEnd(text, 0) == |text|
    ensures Outcome(q, text).Err?
  {
    forall k | 0 <= k < |text| && text[k] == '\n' ensures Unquote(TrimSpace(q.b + text[..k])).None? {
      assert q.b + text[..k] == text[..k];
    }
    FeedValue(q, text);
    assert q.b + text == text;
    TrimLastNewline(text);
  }

  lemma {:induction false} TrimLastNewline(text: string)
    requires text != "" && IsWhite(text[|text| - 1])
    ensures TrimSpace(text) == TrimSpace(text[..|text| - 1])
  {
    if |text| == 1 {
      AllWhite(text);
      assert text[..0] == "";
    } else if IsWhite(text[0]) {
      TrimLastNewline(text[1..]);
      assert text[1..][..|text[1..]| - 1] == text[..|text| - 1][1..];
    }
  }

  /** In the list, the command at this place is another one. */
  predicate Differs(r: Result<seq<Command>, Error>, at: nat, c: Command) {
    r.Err? || (|r.value| > at && r.value[at] != c)
  }

  lemma {:induction false} MisreadAt(p: Parser, c: Command, text: string, m: nat, s: string)
    requires Printed(c) && Printable(text) && m < |text| && text[m] == '\n' && ClosesAt(text[..m], s) && s != ValueOf(c)
    ensures Differs(Outcome(AfterHead(p, c), text), |p.cmds|, c)
  {
    var q := AfterHead(p, c);
    var after := Finish(q, s).(curr := Nil, b := "");
    FeedLine(q, text[..m], s);
    assert text == text[..m] + "\n" + text[m + 1..];
    OutcomeThen(q, text[..m] + "\n", after, text[m + 1..]);
    CommandsStay(after, text[m + 1..]);
    OtherArgs(p, c, s);
    OtherCommand(Outcome(after, text[m + 1..]), p.cmds, after.cmd, c);
  }

  lemma {:induction false} OtherCommand(r: Result<seq<Command>, Error>, front: seq<Command>, d: Command, c: Command)
    requires r.Ok? ==> StartsWith(r.value, front + [d])
    requires d != c
    ensures Differs(r, |front|, c)
  {
    if r.Ok? { assert r.value[|front|] == r.value[..|front + [d]|][|front|] == d; }
  }

  /** The command that is read in place of one that does not survive differs from it. */
  lemma {:induction false} Misread(p: Parser, c: Command, rest: string)
    requires Printed(c) && !Survives(c) && Printable(PrintedValue(c) + "\n" + rest)
    requires rest == "" || rest[|rest| - 1] == '\n'
    ensures Differs(Outcome(AfterHead(p, c), PrintedValue(c) + "\n" + rest), |p.cmds|, c)
  {
    var text := PrintedValue(c) + "\n" + rest;
    var m := FirstEnd(text, 0);
    if m == |text| {
      NeverCloses(AfterHead(p, c), text);
    } else {
      WrongValue(c, rest);
      FirstEndCloses(text, m);
      MisreadAt(p, c, text, m, Unquote(TrimSpace(text[..m])).value);
    }
  }

  lemma {:induction false} OtherArgs(p: Parser, c: Command, s: string)
    requires Printed(c) && s != ValueOf(c)
    ensures Finish(AfterHead(p, c), s).cmds == p.cmds + [Finish(AfterHead(p, c), s).cmd]
        && Finish(AfterHead(p, c), s).cmd != c
  {
    if c.name == "message" {
      var front := Cut(c.args).0 + ": ";
      assert (front + s)[|front|..] == s && (front + ValueOf(c))[|front|..] == ValueOf(c);
    }
  }

  lemma {:induction false} PrintablePlus(a: string, b: string)
    requires Printable(a) && Printable(b)
    ensures Printable(a + b)
  {
  }

  lemma {:induction false} HeadPrintable(c: Command)
    requires Printed(c)
    ensures Printable(Head(c))
  {
    if c.name == "model" {
    } else if Plain(c.name) {
      PlainLower(c.name);
      LowerUpper(c.name);
      PrintablePlus(ToUpper(c.name), " ");
    } else if c.name == "message" {
      PrintablePlus("MESSAGE ", Cut(c.args).0);
      PrintablePlus("MESSAGE " + Cut(c.args).0, " ");
    } else {
      PrintablePlus("PARAMETER ", c.name);
      PrintablePlus("PARAMETER " + c.name, " ");
    }
  }

  lemma {:induction false} ValuePrintable(c: Command)
    requires Printed(c)
    ensures Printable(PrintedValue(c))
  {
    CutPrintable(c.args);
    QuotePrintable(ValueOf(c));
  }

  lemma {:induction false} FilePrintable(cmds: seq<Command>)
    requires forall i :: 0 <= i < |cmds| ==> Printed(cmds[i])
    ensures Printable(PrintAll(cmds)) && (cmds != [] ==>
                                          PrintAll(cmds) != "" && PrintAll(cmds)[|PrintAll(cmds)| - 1] == '\n')
    decreases |cmds|
  {
    if cmds != [] {
      FilePrintable(cmds[1..]);
      HeadPrintable(cmds[0]);
      ValuePrintable(cmds[0]);
      PrintIsHead(cmds[0]);
      PrintablePlus(Head(cmds[0]), PrintedValue(cmds[0]));
      PrintablePlus(Print(cmds[0]), "\n");
      PrintablePlus(Print(cmds[0]) + "\n", PrintAll(cmds[1..]));
    }
  }

  lemma {:induction false} BrokenFirst(p: Parser, c: Command, cmds: seq<Command>)
    requires AtStart(p) && Printed(c) && !Survives(c) && forall i :: 0 <= i < |cmds| ==> Printed(cmds[i])
    ensures Differs(Outcome(p, PrintAll([c] + cmds)), |p.cmds|, c)
  {
    var rest := PrintAll(cmds);
    assert ([c] + cmds)[1..] == cmds;
    FeedHead(p, c);
    PrintIsHead(c);
    ConcatAssoc(Head(c), PrintedValue(c), "\n", rest);
    OutcomeThen(p, Head(c), AfterHead(p, c), PrintedValue(c) + "\n" + rest);
    FilePrintable(cmds);
    ValuePrintable(c);
    PrintablePlus(PrintedValue(c), "\n");
    PrintablePlus(PrintedValue(c) + "\n", rest);
    Misread(p, c, rest);
  }

  lemma {:induction false} ConcatAssoc(a: string, b: string, c: string, d: string)
    ensures a + b + c + d == a + (b + c + d)
  {
  }

  lemma {:induction false} OutcomeFirst(p: Parser, c: Command, cmds: seq<Command>)
    requires AtStart(p) && Printed(c) && Survives(c)
    ensures Outcome(p, PrintAll([c] + cmds)) == Outcome(AfterCommand(p, c), PrintAll(cmds))
  {
    assert ([c] + cmds)[1..] == cmds;
    FeedCommand(p, c);
    OutcomeThen(p, Print(c) + "\n", AfterCommand(p, c), PrintAll(cmds));
  }

  lemma {:induction false} ListAssoc(a: seq<Command>, c: Command, b: seq<Command>)
    ensures a + [c] + b == a + ([c] + b)
  {
  }

  /** A file with a command that does not survive is not read back. */
  lemma {:induction false} BrokenFile(p: Parser, cmds: seq<Command>, k: nat)
    requires AtStart(p) && k < |cmds| && !Survives(cmds[k])
    requires forall i :: 0 <= i < |cmds| ==> Printed(cmds[i])
    ensures Outcome(p, PrintAll(cmds)) != Ok(p.cmds + cmds)
    decreases |cmds|
  {
    var c, rest := cmds[0], cmds[1..];
    assert cmds == [c] + rest;
    if Survives(c) {
      assert rest[k - 1] == cmds[k];
      BrokenFile(AfterCommand(p, c), rest, k - 1);
      OutcomeFirst(p, c, rest);
      ListAssoc(p.cmds, c, rest);
    } else {
      BrokenFirst(p, c, rest);
      assert (p.cmds + cmds)[|p.cmds|] == c;
    }
  }

  /** The printed file is read back as the same commands exactly when every argument survives. */
  lemma {:induction false} RoundTripIff(cmds: seq<Command>)
    requires HasModel(cmds) && forall i :: 0 <= i < |cmds| ==> Printed(cmds[i])
    ensures Parse(PrintAll(cmds)) == Ok(cmds) <==> forall i :: 0 <= i < |cmds| ==> Survives(cmds[i])
  {
    if k: nat :| k < |cmds| && !Survives(cmds[k]) {
      BrokenFile(START, cmds, k);
      assert [] + cmds == cmds;
    } else {
      RoundTrip(cmds);
    }
  }

  /** Three values that do not survive: a bare one with a quote in front, a quoted one with a line that
      ends in three quotes, and a model name that would need quotes. */
  predicate Example(c: Command) {
    c == Command("system", "\"hi") || c == Command("system", "a\"\"\"\nb") || c == Command("model", " m")
  }

  lemma {:induction false} ExampleLost(c: Command)
    requires Example(c)
    ensures Printed(c) && !Survives(c)
  {
    if c.args == "a\"\"\"\nb" {
      assert c.args[..4] == "a\"\"\"" && EndsEarly(c.args, 4) && c.args[1] == '"';
    }
  }

  /** A file with such a value is printed, but not read back. */
  lemma {:induction false} LostValues(model: Command, lost: Command)
    requires model.name == "model" && Printed(model) && Example(lost)
    ensures Parse(PrintAll([model, lost])) != Ok([model, lost])
  {
    var cmds := [model, lost];
    ExampleLost(lost);
    assert cmds[0] == model && cmds[1] == lost;
    RoundTripIff(cmds);
  }
}
