/** The Modelfile parser as a machine over characters, and the printer that it must undo. */
module Modelfile {
  import opened Wrappers

  datatype Command = Command(name: string, args: string)

  datatype State = Nil | Name | Value | Parameter | Message | Comment

  datatype Error = InvalidCommand | InvalidRole | UnexpectedEnd | MissingFrom

  // ---- characters and strings ----

  predicate IsAlpha(r: char) { 'a' <= r <= 'z' || 'A' <= r <= 'Z' }

  predicate IsNumber(r: char) { '0' <= r <= '9' }

  predicate IsSpace(r: char) { r == ' ' || r == '\t' }

  predicate IsNewline(r: char) { r == '\r' || r == '\n' }

  predicate IsPrint(r: char) { ' ' <= r <= '~' }

  predicate IsWhite(r: char) { r == ' ' || 9 as char <= r <= 13 as char }

  function Lower(r: char): char { if 'A' <= r <= 'Z' then r + ('a' - 'A') else r }

  function Upper(r: char): char { if 'a' <= r <= 'z' then r - ('a' - 'A') else r }

  function ToLower(s: string): (r: string)
    ensures |r| == |s|
  {
    seq(|s|, i requires 0 <= i < |s| => Lower(s[i]))
  }

  function ToUpper(s: string): (r: string)
    ensures |r| == |s|
  {
    seq(|s|, i requires 0 <= i < |s| => Upper(s[i]))
  }

  function TrimLeft(s: string): string {
    if s != "" && IsWhite(s[0]) then TrimLeft(s[1..]) else s
  }

  function TrimRight(s: string): string {
    if s != "" && IsWhite(s[|s| - 1]) then TrimRight(s[..|s| - 1]) else s
  }

  function TrimSpace(s: string): string { TrimRight(TrimLeft(s)) }

  predicate HasPrefix(s: string, p: string) { |p| <= |s| && s[..|p|] == p }

  predicate HasSuffix(s: string, p: string) { |p| <= |s| && s[|s| - |p|..] == p }

  const TRIPLE := "\"\"\""

  function Quote(s: string): string {
    if '\n' in s || HasPrefix(s, " ") || HasSuffix(s, " ") then
      if '"' in s then TRIPLE + s + TRIPLE else "\"" + s + "\""
    else s
  }

  /** The text without its quotes, or nothing while a quote is open. */
  function Unquote(s: string): Option<string> {
    if HasPrefix(s, TRIPLE) then
      if |s| >= 6 && HasSuffix(s, TRIPLE) then Some(s[3..|s| - 3]) else None
    else if HasPrefix(s, "\"") then
      if |s| >= 2 && s[|s| - 1] == '"' then Some(s[1..|s| - 1]) else None
    else Some(s)
  }

  /** The text before and after the first ": ", or everything and nothing. */
  function Cut(s: string): (string, string) {
    if HasPrefix(s, ": ") then ("", s[2..])
    else if s == "" then ("", "")
    else
      var (before, after) := Cut(s[1..]);
      ([s[0]] + before, after)
  }

  // ---- printing ----

  predicate Plain(name: string) {
    name == "license" || name == "template" || name == "system" || name == "adapter" || name == "renderer"
    || name == "parser" || name == "requires"
  }

  function Print(c: Command): string {
    if c.name == "model" then "FROM " + c.args
    else if Plain(c.name) then ToUpper(c.name) + " " + Quote(c.args)
    else if c.name == "message" then "MESSAGE " + Cut(c.args).0 + " " + Quote(Cut(c.args).1)
    else "PARAMETER " + c.name + " " + Quote(c.args)
  }

  function PrintAll(cmds: seq<Command>): string {
    if cmds == [] then "" else Print(cmds[0]) + "\n" + PrintAll(cmds[1..])
  }

  // ---- parsing ----

  /** The next state and what to do with the character: NUL is not kept. */
  function OnRune(r: char, cs: State): Result<(State, char), Error> {
    match cs
    case Nil =>
      if r == '#' then Ok((Comment, '\0')) else if IsSpace(r) || IsNewline(r) then Ok((Nil, '\0')) else Ok((Name, r))
    case Name =>
      if IsAlpha(r) then Ok((Name, r)) else if IsSpace(r) then Ok((Value, '\0')) else Err(InvalidCommand)
    case Value =>
      if IsNewline(r) || IsSpace(r) then Ok((Nil, r)) else Ok((Value, r))
    case Parameter =>
      if IsAlpha(r) || IsNumber(r) || r == '_' then Ok((Parameter, r)) else if IsSpace(r) then Ok((Value, '\0'))
          else Err(UnexpectedEnd)
    case Message =>
      if IsAlpha(r) then Ok((Message, r)) else if IsSpace(r) then Ok((Value, '\0')) else Err(UnexpectedEnd)
    case Comment =>
      Ok((if IsNewline(r) then Nil else Comment, '\0'))
  }

  predicate ValidCommand(name: string) {
    var s := ToLower(name);
    s == "from" || s == "parameter" || s == "message" || Plain(s)
  }

  predicate ValidRole(role: string) { role == "system" || role == "user" || role == "assistant" }

  /** The parser between two characters. */
  datatype Parser = Parser(cmd: Command, curr: State, b: string, role: string, cmds: seq<Command>)

  const START := Parser(Command("", ""), Nil, "", "", [])

  /** Move on to another state with an empty buffer, and keep the character if it prints. */
  function Enter(p: Parser, next: State, r: char): Parser {
    p.(curr := next, b := if IsPrint(r) then [r] else "")
  }

  function Finish(p: Parser, s: string): Parser {
    var cmd := p.cmd.(args := if p.role != "" then p.role + ": " + s else s);
    p.(cmd := cmd, role := "", cmds := p.cmds + [cmd])
  }

  function Feed(p: Parser, r0: char): Result<Parser, Error> {
    match OnRune(r0, p.curr)
    case Err(e) => Err(e)
    case Ok((next, r)) =>
      if next == p.curr then Ok(if IsPrint(r) then p.(b := p.b + [r]) else p)
      else
        match p.curr
        case Name =>
          if !ValidCommand(p.b) then Err(InvalidCommand)
          else
            var s := ToLower(p.b);
            if s == "from" then Ok(Enter(p.(cmd := p.cmd.(name := "model")), next, r))
            else if s == "parameter" then Ok(Enter(p, Parameter, r))
            else if s == "message" then Ok(Enter(p.(cmd := p.cmd.(name := s)), Message, r))
            else Ok(Enter(p.(cmd := p.cmd.(name := s)), next, r))
        case Parameter => Ok(Enter(p.(cmd := p.cmd.(name := p.b)), next, r))
        case Message => if !ValidRole(p.b) then Err(InvalidRole) else Ok(Enter(p.(role := p.b), next, r))
        case Value =>
          var s := Unquote(TrimSpace(p.b));
          if s.None? || IsSpace(r) then Ok(p.(b := p.b + [r])) else Ok(Enter(Finish(p, s.value), next, r))
        case _ => Ok(Enter(p, next, r))
  }

  function FeedAll(p: Parser, s: string): Result<Parser, Error>
    decreases |s|
  {
    if s == "" then Ok(p)
    else
      match Feed(p, s[0])
      case Err(e) => Err(e)
      case Ok(p') => FeedAll(p', s[1..])
  }

  /** What is left at the end of the input. */
  function Flush(p: Parser): Result<seq<Command>, Error> {
    match p.curr
    case Comment => Ok(p.cmds)
    case Nil => Ok(p.cmds)
    case Value =>
      var s := Unquote(TrimSpace(p.b));
      if s.None? then Err(UnexpectedEnd) else Ok(Finish(p, s.value).cmds)
    case _ => Err(UnexpectedEnd)
  }

  predicate HasModel(cmds: seq<Command>) { exists i :: 0 <= i < |cmds| && cmds[i].name == "model" }

  function Parse(text: string): Result<seq<Command>, Error> {
    match FeedAll(START, text)
    case Err(e) => Err(e)
    case Ok(p) =>
      match Flush(p)
      case Err(e) => Err(e)
      case Ok(cmds) => if HasModel(cmds) then Ok(cmds) else Err(MissingFrom)
  }

  // ---- the parser as a loop ----

  /** Read the file character by character. */
  method ParseFile(text: string) returns (res: Result<seq<Command>, Error>)
    ensures res == Parse(text)
  {
    var cmd, curr, b, role := Command("", ""), Nil, "", "";
    var commands: seq<Command> := [];
    for i := 0 to |text|
      invariant FeedAll(START, text) == FeedAll(Parser(cmd, curr, b, role, commands), text[i..])
    {
      ghost var p := Parser(cmd, curr, b, role, commands);
      assert text[i..][0] == text[i] && text[i..][1..] == text[i + 1..];
      var step := OnRune(text[i], curr);
      if step.Err? {
        return Err(step.error);
      }
      var next, r := step.value.0, step.value.1;
      if next != curr {
        match curr {
          case Name =>
            if !ValidCommand(b) {
              return Err(InvalidCommand);
            }
            var s := ToLower(b);
            if s == "from" {
              cmd := cmd.(name := "model");
            } else if s == "parameter" {
              next := Parameter;
            } else {
              if s == "message" {
                next := Message;
              }
              cmd := cmd.(name := s);
            }
          case Parameter =>
            cmd := cmd.(name := b);
          case Message =>
            if !ValidRole(b) {
              return Err(InvalidRole);
            }
            role := b;
          case Comment =>
          case Nil =>
          case Value =>
            var s := Unquote(TrimSpace(b));
            if s.None? || IsSpace(r) {
              b := b + [r];
              continue;
            }
            var args := s.value;
            if role != "" {
              args := role + ": " + args;
              role := "";
            }
            cmd := cmd.(args := args);
            commands := commands + [cmd];
        }
        b := "";
        curr := next;
      }
      assert "" + [r] == [r];
      if IsPrint(r) {
        b := b + [r];
      }
      assert Feed(p, text[i]) == Ok(Parser(cmd, curr, b, role, commands));
    }
    assert text[|text|..] == "";
    match curr {
      case Comment =>
      case Nil =>
      case Value =>
        var s := Unquote(TrimSpace(b));
        if s.None? {
          return Err(UnexpectedEnd);
        }
        cmd := cmd.(args := if role != "" then role + ": " + s.value else s.value);
        commands := commands + [cmd];
      case _ =>
        return Err(UnexpectedEnd);
    }
    for i := 0 to |commands|
      invariant forall j :: 0 <= j < i ==> commands[j].name != "model"
    {
      if commands[i].name == "model" {
        return Ok(commands);
      }
    }
    return Err(MissingFrom);
  }
}
