/** Modelfiles as people write them: keywords in any letter case, comments, blank lines, values with or
    without quotes, and a last line that need not end. */
module ModelfileLines {
  import opened Wrappers
  import opened Modelfile
  import opened ModelfileRoundTrip

  // ---- what is written ----

  /** A command with its value as written, a comment, or a character between lines. */
  datatype Piece =
    | Line(c: Command, keyword: string, written: string, ending: char)
    | Remark(text: string, ending: char)
    | Blank(white: char)

  function Keyword(c: Command): string {
    if c.name == "model" then "from"
    else if Plain(c.name) || c.name == "message" then c.name
    else "parameter"
  }

  /** A keyword in any letter case, then the role of a message or the name of a parameter. */
  function HeadAs(c: Command, keyword: string): string {
    keyword + " "
    + (if c.name == "model" || Plain(c.name) then ""
       else if c.name == "message" then Cut(c.args).0 + " "
       else c.name + " ")
  }

  /** The command can be named in a file. */
  predicate Named(c: Command) {
    || c.name == "model" || Plain(c.name)
    || (if c.name == "message" then ValidRole(Cut(c.args).0) && c.args == Cut(c.args).0 + ": " + Cut(c.args).1
        else ParameterName(c.name))
  }

  predicate Headed(c: Command, keyword: string) { Named(c) && ToLower(keyword) == Keyword(c) }

  /** The written value is complete at its end and at no newline before, and means the value. */
  predicate Means(written: string, value: string) { Printable(written) && ClosesAt(written, value) }

  predicate PieceOk(x: Piece) {
    match x
    case Line(c, keyword, written, ending) => Headed(c, keyword) && Means(written, ValueOf(c)) && IsNewline(ending)
    case Remark(text, ending) => NoNewlines(text) && IsNewline(ending)
    case Blank(white) => IsSpace(white) || IsNewline(white)
  }

  predicate NoNewlines(s: string) { forall i :: 0 <= i < |s| ==> !IsNewline(s[i]) }

  function Text(x: Piece): string {
    match x
    case Line(c, keyword, written, ending) => HeadAs(c, keyword) + written + [ending]
    case Remark(text, ending) => "#" + text + [ending]
    case Blank(white) => [white]
  }

  function TextOf(xs: seq<Piece>): string {
    if xs == [] then "" else Text(xs[0]) + TextOf(xs[1..])
  }

  function CommandsOf(xs: seq<Piece>): seq<Command> {
    if xs == [] then [] else (if xs[0].Line? then [xs[0].c] else []) + CommandsOf(xs[1..])
  }

  // ---- how it is read ----

  lemma {:induction false} AnyCase(keyword: string, s: string)
    requires ToLower(keyword) == s && forall i :: 0 <= i < |s| ==> 'a' <= s[i] <= 'z'
    ensures |keyword| == |s| && forall i :: 0 <= i < |keyword| ==> IsAlpha(keyword[i])
  {
    forall i | 0 <= i < |keyword| ensures IsAlpha(keyword[i]) {
      assert Lower(keyword[i]) == s[i];
    }
  }

  lemma {:induction false} KeywordLower(c: Command)
    requires Named(c)
    ensures Keyword(c) != "" && forall i :: 0 <= i < |Keyword(c)| ==> 'a' <= Keyword(c)[i] <= 'z'
  {
    if Plain(c.name) { PlainLower(c.name); }
  }

  lemma {:induction false} FeedAnyHead(p: Parser, c: Command, keyword: string)
    requires AtStart(p) && Headed(c, keyword)
    ensures FeedAll(p, HeadAs(c, keyword)) == Ok(AfterHead(p, c))
  {
    KeywordLower(c);
    AnyCase(keyword, Keyword(c));
    if c.name == "model" || Plain(c.name) {
      FeedWordSpace(p, keyword, AfterHead(p, c));
      assert HeadAs(c, keyword) == keyword + " ";
    } else if c.name == "message" {
      var q := p.(cmd := p.cmd.(name := "message"), curr := Message, b := "");
      FeedWordSpace(p, keyword, q);
      FeedRole(q, Cut(c.args).0, AfterHead(p, c));
      FeedThen(p, keyword + " ", q, Cut(c.args).0 + " ");
    } else {
      var q := p.(curr := Parameter, b := "");
      FeedWordSpace(p, keyword, q);
      FeedParameterName(q, c.name, AfterHead(p, c));
      FeedThen(p, keyword + " ", q, c.name + " ");
    }
  }

  lemma {:induction false} FeedWritten(q: Parser, written: string)
    requires q.curr == Value && q.b == "" && Printable(written)
    requires forall k :: 0 <= k < |written| && written[k] == '\n' ==> Unquote(TrimSpace(written[..k])).None?
    ensures FeedAll(q, written) == Ok(q.(b := written))
  {
    forall k | 0 <= k < |written| && written[k] == '\n' ensures Unquote(TrimSpace(q.b + written[..k])).None? {
      assert q.b + written[..k] == written[..k];
    }
    FeedValue(q, written);
    assert q.b + written == written;
  }

  /** A command up to the end of its value. */
  lemma {:induction false} FeedUnended(p: Parser, c: Command, keyword: string, written: string)
    requires AtStart(p) && Headed(c, keyword) && Printable(written)
    requires forall k :: 0 <= k < |written| && written[k] == '\n' ==> Unquote(TrimSpace(written[..k])).None?
    ensures FeedAll(p, HeadAs(c, keyword) + written) == Ok(AfterHead(p, c).(b := written))
  {
    FeedAnyHead(p, c, keyword);
    FeedWritten(AfterHead(p, c), written);
    FeedThen(p, HeadAs(c, keyword), AfterHead(p, c), written);
  }

  lemma {:induction false} FeedAnyLine(p: Parser, x: Piece)
    requires AtStart(p) && x.Line? && PieceOk(x)
    ensures FeedAll(p, Text(x)) == Ok(AfterCommand(p, x.c))
  {
    var q := AfterHead(p, x.c).(b := x.written);
    FeedUnended(p, x.c, x.keyword, x.written);
    FeedOne(q, x.ending, AfterCommand(p, x.c));
    FeedThen(p, HeadAs(x.c, x.keyword) + x.written, q, [x.ending]);
  }

  lemma {:induction false} FeedComment(q: Parser, text: string)
    requires q.curr == Comment && NoNewlines(text)
    ensures FeedAll(q, text) == Ok(q)
    decreases |text|
  {
    if text != "" {
      assert Feed(q, text[0]) == Ok(q);
      FeedComment(q, text[1..]);
    }
  }

  /** A comment is skipped up to the end of its line, whatever it says. */
  lemma {:induction false} FeedRemark(p: Parser, text: string, ending: char)
    requires AtStart(p) && NoNewlines(text) && IsNewline(ending)
    ensures FeedAll(p, "#" + text) == Ok(p.(curr := Comment))
    ensures FeedAll(p, "#" + text + [ending]) == Ok(p)
  {
    var q := p.(curr := Comment);
    FeedOne(p, '#', q);
    FeedComment(q, text);
    FeedThen(p, "#", q, text);
    FeedOne(q, ending, p);
    FeedThen(p, "#" + text, q, [ending]);
  }

  /** The parser after one piece. */
  function AfterPiece(p: Parser, x: Piece): Parser { if x.Line? then AfterCommand(p, x.c) else p }

  lemma {:induction false} FeedPiece(p: Parser, x: Piece)
    requires AtStart(p) && PieceOk(x)
    ensures FeedAll(p, Text(x)) == Ok(AfterPiece(p, x)) && AtStart(AfterPiece(p, x))
  {
    match x
    case Line(_, _, _, _) => FeedAnyLine(p, x);
    case Remark(text, ending) => FeedRemark(p, text, ending);
    case Blank(white) => FeedOne(p, white, p);
  }

  /** Any file of such pieces, read between commands. */
  lemma {:induction false} FeedPieces(p: Parser, xs: seq<Piece>) returns (q: Parser)
    requires AtStart(p) && forall i :: 0 <= i < |xs| ==> PieceOk(xs[i])
    ensures FeedAll(p, TextOf(xs)) == Ok(q) && AtStart(q) && q.cmds == p.cmds + CommandsOf(xs)
    decreases |xs|
  {
    if xs == [] {
      q := p;
      assert p.cmds + [] == p.cmds;
    } else {
      FeedPiece(p, xs[0]);
      q := FeedPieces(AfterPiece(p, xs[0]), xs[1..]);
      FeedThen(p, Text(xs[0]), AfterPiece(p, xs[0]), TextOf(xs[1..]));
      MoreCommands(p, xs);
    }
  }

  lemma {:induction false} MoreCommands(p: Parser, xs: seq<Piece>)
    requires xs != []
    ensures AfterPiece(p, xs[0]).cmds + CommandsOf(xs[1..]) == p.cmds + CommandsOf(xs)
  {
    var rest := CommandsOf(xs[1..]);
    if xs[0].Line? {
      assert CommandsOf(xs) == [xs[0].c] + rest;
      assert p.cmds + [xs[0].c] + rest == p.cmds + ([xs[0].c] + rest);
    } else {
      assert CommandsOf(xs) == [] + rest == rest;
    }
  }

  /** What the commands of a file come to. */
  function Commands(cmds: seq<Command>): Result<seq<Command>, Error> {
    if HasModel(cmds) then Ok(cmds) else Err(MissingFrom)
  }

  /** A file is read as its commands, in order, whatever comments and blank lines stand between them and
      however their keywords are capitalized; without a model it is refused. */
  lemma {:induction false} ReadsCommands(xs: seq<Piece>)
    requires forall i :: 0 <= i < |xs| ==> PieceOk(xs[i])
    ensures Parse(TextOf(xs)) == Commands(CommandsOf(xs))
  {
    var q := FeedPieces(START, xs);
    assert [] + CommandsOf(xs) == CommandsOf(xs);
  }

  /** The last command needs no end of line. */
  lemma {:induction false} ReadsLastCommand(xs: seq<Piece>, c: Command, keyword: string, written: string)
    requires forall i :: 0 <= i < |xs| ==> PieceOk(xs[i])
    requires Headed(c, keyword) && Means(written, ValueOf(c))
    ensures Parse(TextOf(xs) + (HeadAs(c, keyword) + written)) == Commands(CommandsOf(xs) + [c])
  {
    var q := FeedPieces(START, xs);
    assert [] + CommandsOf(xs) == CommandsOf(xs);
    FeedUnended(q, c, keyword, written);
    FeedThen(START, TextOf(xs), q, HeadAs(c, keyword) + written);
  }

  /** Nor does a last comment. */
  lemma {:induction false} ReadsLastRemark(xs: seq<Piece>, text: string)
    requires (forall i :: 0 <= i < |xs| ==> PieceOk(xs[i])) && NoNewlines(text)
    ensures Parse(TextOf(xs) + ("#" + text)) == Commands(CommandsOf(xs))
  {
    var q := FeedPieces(START, xs);
    assert [] + CommandsOf(xs) == CommandsOf(xs);
    FeedRemark(q, text, '\n');
    FeedThen(START, TextOf(xs), q, "#" + text);
  }

  // ---- printed files, with more between the commands ----

  /** A printed command as a piece of a file. */
  function Printout(c: Command): Piece {
    Line(c, if c.name == "model" then "FROM" else if Plain(c.name) then ToUpper(c.name)
            else if c.name == "message" then "MESSAGE" else "PARAMETER", PrintedValue(c), '\n')
  }

  lemma {:induction false} PrintoutHeaded(c: Command)
    requires Printed(c)
    ensures Headed(c, Printout(c).keyword)
  {
    if Plain(c.name) {
      PlainLower(c.name);
      LowerUpper(c.name);
    } else if c.name == "model" {
      assert ToLower("FROM") == "from";
    } else if c.name == "message" {
      assert ToLower("MESSAGE") == "message";
    } else {
      assert ToLower("PARAMETER") == "parameter";
    }
  }

  lemma {:induction false} HeadsAgree(c: Command)
    ensures HeadAs(c, Printout(c).keyword) == Head(c)
  {
    if c.name == "model" {
      assert "FROM" + " " == "FROM ";
    } else if c.name == "message" {
      assert "MESSAGE" + " " == "MESSAGE ";
    } else if !Plain(c.name) {
      assert "PARAMETER" + " " == "PARAMETER ";
    }
  }

  lemma {:induction false} PrintoutOk(c: Command)
    requires Printed(c) && Survives(c)
    ensures PieceOk(Printout(c)) && Text(Printout(c)) == Print(c) + "\n"
  {
    ValueCloses(c);
    PrintoutHeaded(c);
    HeadsAgree(c);
    PrintIsHead(c);
  }

  /** Comments and blank lines before each command and after the last one. */
  function Interspersed(between: seq<seq<Piece>>, cmds: seq<Command>): seq<Piece>
    requires |between| == |cmds| + 1
    decreases |cmds|
  {
    between[0] + if cmds == [] then [] else [Printout(cmds[0])] + Interspersed(between[1..], cmds[1..])
  }

  predicate NoLines(xs: seq<Piece>) { forall i :: 0 <= i < |xs| ==> PieceOk(xs[i]) && !xs[i].Line? }

  lemma {:induction false} CommandsAppend(xs: seq<Piece>, ys: seq<Piece>)
    ensures CommandsOf(xs + ys) == CommandsOf(xs) + CommandsOf(ys)
    decreases |xs|
  {
    if xs == [] {
      assert xs + ys == ys;
    } else {
      assert (xs + ys)[0] == xs[0] && (xs + ys)[1..] == xs[1..] + ys;
      CommandsAppend(xs[1..], ys);
    }
  }

  lemma {:induction false} NoCommands(xs: seq<Piece>)
    requires NoLines(xs)
    ensures CommandsOf(xs) == []
  {
    if xs != [] { NoCommands(xs[1..]); }
  }

  lemma {:induction false} InterspersedCommands(between: seq<seq<Piece>>, cmds: seq<Command>)
    requires |between| == |cmds| + 1 && forall i :: 0 <= i < |between| ==> NoLines(between[i])
    requires forall i :: 0 <= i < |cmds| ==> Printed(cmds[i]) && Survives(cmds[i])
    ensures CommandsOf(Interspersed(between, cmds)) == cmds
    ensures forall i :: 0 <= i < |Interspersed(between, cmds)| ==> PieceOk(Interspersed(between, cmds)[i])
    decreases |cmds|
  {
    NoCommands(between[0]);
    if cmds == [] {
      assert between[0] + [] == between[0];
    } else {
      var rest := Interspersed(between[1..], cmds[1..]);
      InterspersedCommands(between[1..], cmds[1..]);
      PrintoutOk(cmds[0]);
      CommandsAppend(between[0], [Printout(cmds[0])] + rest);
      assert ([Printout(cmds[0])] + rest)[1..] == rest;
      assert CommandsOf([Printout(cmds[0])] + rest) == [cmds[0]] + cmds[1..];
    }
  }

  /** A printed file is still read as its commands when any comments and blank lines are put between them. */
  lemma {:induction false} CommentsDoNotMatter(between: seq<seq<Piece>>, cmds: seq<Command>)
    requires |between| == |cmds| + 1 && forall i :: 0 <= i < |between| ==> NoLines(between[i])
    requires HasModel(cmds) && forall i :: 0 <= i < |cmds| ==> Printed(cmds[i]) && Survives(cmds[i])
    ensures Parse(TextOf(Interspersed(between, cmds))) == Ok(cmds)
  {
    InterspersedCommands(between, cmds);
    ReadsCommands(Interspersed(between, cmds));
  }

  // ---- what is refused ----

  /** A word that is no keyword, or is followed by anything but a space. */
  lemma {:induction false} WrongKeyword(xs: seq<Piece>, w: string, x: char, rest: string)
    requires forall i :: 0 <= i < |xs| ==> PieceOk(xs[i])
    requires w != "" && (forall i :: 0 <= i < |w| ==> IsAlpha(w[i])) && !IsAlpha(x)
    ensures !ValidCommand(w) || !IsSpace(x) ==> Parse(TextOf(xs) + (w + ([x] + rest))) == Err(InvalidCommand)
  {
    if !ValidCommand(w) || !IsSpace(x) {
      var q := FeedPieces(START, xs);
      FeedKeyword(q, w);
      FeedAppend(q.(curr := Name, b := w), [x], rest);
      assert FeedAll(q.(curr := Name, b := w), [x]) == Err(InvalidCommand);
      FeedThen(q, w, q.(curr := Name, b := w), [x] + rest);
      FeedThen(START, TextOf(xs), q, w + ([x] + rest));
    }
  }

  /** A message with an unknown role. */
  lemma {:induction false} WrongRole(xs: seq<Piece>, keyword: string, role: string, rest: string)
    requires (forall i :: 0 <= i < |xs| ==> PieceOk(xs[i])) && ToLower(keyword) == "message"
    requires (forall i :: 0 <= i < |role| ==> IsAlpha(role[i])) && !ValidRole(role)
    ensures Parse(TextOf(xs) + (keyword + " " + (role + (" " + rest)))) == Err(InvalidRole)
  {
    var p := FeedPieces(START, xs);
    AnyCase(keyword, "message");
    var q := p.(cmd := p.cmd.(name := "message"), curr := Message, b := "");
    FeedWordSpace(p, keyword, q);
    FeedWord(q, role);
    assert "" + role == role;
    FeedAppend(q.(b := role), " ", rest);
    assert FeedAll(q.(b := role), " ") == Err(InvalidRole);
    FeedThen(q, role, q.(b := role), " " + rest);
    FeedThen(p, keyword + " ", q, role + (" " + rest));
    FeedThen(START, TextOf(xs), p, keyword + " " + (role + (" " + rest)));
  }

  /** A file that ends inside a quote, or right after a word. */
  lemma {:induction false} EndsTooSoon(xs: seq<Piece>, c: Command, keyword: string, written: string)
    requires (forall i :: 0 <= i < |xs| ==> PieceOk(xs[i])) && Headed(c, keyword) && Printable(written)
    requires forall k :: 0 <= k < |written| && written[k] == '\n' ==> Unquote(TrimSpace(written[..k])).None?
    ensures Unquote(TrimSpace(written)).None? ==>
              Parse(TextOf(xs) + (HeadAs(c, keyword) + written)) == Err(UnexpectedEnd)
    ensures Parse(TextOf(xs) + keyword) == Err(UnexpectedEnd)
  {
    var q := FeedPieces(START, xs);
    FeedUnended(q, c, keyword, written);
    FeedThen(START, TextOf(xs), q, HeadAs(c, keyword) + written);
    KeywordLower(c);
    AnyCase(keyword, Keyword(c));
    FeedKeyword(q, keyword);
    FeedThen(START, TextOf(xs), q, keyword);
  }
}
