// The parser for WOOTTY_COMMAND_ARGS: whitespace separates arguments, quotes
// and backslashes keep it from doing so. Text is a sequence of runes.

module SplitArgs {

  datatype Result = Ok(args: seq<string>) | UnterminatedEscape | UnterminatedQuote

  // unicode.IsSpace
  predicate IsSpace(r: char) {
    || '\t' <= r <= '\r' || r == ' ' || r == '\U{85}' || r == '\U{A0}' || r == '\U{1680}'
    || '\U{2000}' <= r <= '\U{200A}' || r == '\U{2028}' || r == '\U{2029}' || r == '\U{202F}'
    || r == '\U{205F}' || r == '\U{3000}'
  }

  // strings.TrimSpace(value) == ""
  predicate Blank(s: string) {
    forall i :: 0 <= i < |s| ==> IsSpace(s[i])
  }

  datatype Quote = Unquoted | Single | Double

  datatype Lexer = Lexer(parts: seq<string>, current: string, started: bool, quote: Quote, escaped: bool)

  const START := Lexer([], "", false, Unquoted, false)

  function Take(l: Lexer, r: char): (l': Lexer) {
    l.(current := l.current + [r], started := true, escaped := false)
  }

  function Flush(l: Lexer): (l': Lexer) {
    if l.started then l.(parts := l.parts + [l.current], current := "", started := false) else l
  }

  function Step(l: Lexer, r: char): (l': Lexer) {
    if l.escaped then Take(l, r)
    else
      match l.quote
      case Single => if r == '\'' then l.(quote := Unquoted, started := true) else Take(l, r)
      case Double =>
        if r == '"' then l.(quote := Unquoted, started := true)
        else if r == '\\' then l.(escaped := true, started := true)
        else Take(l, r)
      case Unquoted =>
        if IsSpace(r) then Flush(l)
        else if r == '\'' then l.(quote := Single, started := true)
        else if r == '"' then l.(quote := Double, started := true)
        else if r == '\\' then l.(escaped := true, started := true)
        else Take(l, r)
  }

  function Lex(l: Lexer, s: string): (l': Lexer)
    decreases |s|
  {
    if s == "" then l else Lex(Step(l, s[0]), s[1..])
  }

  function Finish(l: Lexer): (r: Result) {
    if l.escaped then UnterminatedEscape
    else if l.quote != Unquoted then UnterminatedQuote
    else Ok(Flush(l).parts)
  }

  function Split(s: string): (r: Result) {
    Finish(Lex(START, s))
  }

  method SplitArgs(value: string) returns (r: Result)
    ensures r == Split(value)
  {
    var blank := IsBlank(value);
    if blank {
      BlankHasNoArguments(START, value);
      return Ok([]);
    }
    var parts, current: string := [], "";
    var tokenStarted, inSingleQuote, inDoubleQuote, escaped := false, false, false, false;
    for i := 0 to |value|
      invariant !(inSingleQuote && inDoubleQuote)
      invariant Lex(START, value) == Lex(
        Lexer(parts, current, tokenStarted,
              if inSingleQuote then Single else if inDoubleQuote then Double else Unquoted, escaped), value[i..])
    {
      var c := value[i];
      assert value[i..][1..] == value[i + 1..];
      if escaped {
        current := current + [c];
        tokenStarted, escaped := true, false;
        continue;
      }
      if inSingleQuote {
        if c == '\'' {
          inSingleQuote := false;
        } else {
          current := current + [c];
        }
        tokenStarted := true;
        continue;
      }
      if inDoubleQuote {
        if c == '"' {
          inDoubleQuote := false;
        } else if c == '\\' {
          escaped := true;
        } else {
          current := current + [c];
        }
        tokenStarted := true;
        continue;
      }
      if IsSpace(c) {
        if tokenStarted {
          parts, current, tokenStarted := parts + [current], "", false;
        }
        continue;
      }
      if c == '\'' {
        inSingleQuote := true;
      } else if c == '"' {
        inDoubleQuote := true;
      } else if c == '\\' {
        escaped := true;
      } else {
        current := current + [c];
      }
      tokenStarted := true;
    }
    if escaped {
      return UnterminatedEscape;
    }
    if inSingleQuote || inDoubleQuote {
      return UnterminatedQuote;
    }
    if tokenStarted {
      parts := parts + [current];
    }
    r := Ok(parts);
  }

  method IsBlank(s: string) returns (b: bool)
    ensures b == Blank(s)
  {
    b := true;
    for i := 0 to |s|
      invariant b == Blank(s[..i])
    {
      if !IsSpace(s[i]) {
        assert s[..i + 1][i] == s[i];
        b := false;
      }
      assert s[..i + 1] == s[..i] + [s[i]];
    }
    assert s[..|s|] == s;
  }

  lemma {:induction false} BlankHasNoArguments(l: Lexer, s: string)
    requires Blank(s) && !l.started && !l.escaped && l.quote == Unquoted
    ensures Lex(l, s) == l
    decreases |s|
  {
    if s != "" {
      BlankHasNoArguments(l, s[1..]);
    }
  }

  // -------------------------------------------------------- arguments in turn

  lemma {:induction false} LexOfTwo(l: Lexer, a: string, b: string)
    ensures Lex(l, a + b) == Lex(Lex(l, a), b)
    decreases |a|
  {
    if a == "" {
      assert a + b == b;
    } else {
      assert (a + b)[1..] == a[1..] + b;
      LexOfTwo(Step(l, a[0]), a[1..], b);
    }
  }

  // What was split off before does not matter.
  lemma {:induction false} EarlierParts(parts: seq<string>, l: Lexer, s: string)
    ensures Lex(l.(parts := parts + l.parts), s) == Lex(l, s).(parts := parts + Lex(l, s).parts)
    decreases |s|
  {
    if s != "" {
      assert Step(l.(parts := parts + l.parts), s[0]) == Step(l, s[0]).(parts := parts + Step(l, s[0]).parts) by {
        assert parts + (l.parts + [l.current]) == (parts + l.parts) + [l.current];
      }
      EarlierParts(parts, Step(l, s[0]), s[1..]);
    }
  }

  // After a text that splits, a space starts afresh: the rest is split alone,
  // or fails as it fails alone.
  lemma SplitOfTwo(a: string, b: string)
    requires Split(a).Ok?
    ensures Split(a + " " + b) ==
            match Split(b)
            case Ok(args) => Ok(Split(a).args + args)
            case error => error
  {
    var la := Lex(START, a);
    LexOfTwo(START, a, " " + b);
    assert a + " " + b == a + (" " + b);
    assert (" " + b)[0] == ' ' && (" " + b)[1..] == b;
    var next := START.(parts := Split(a).args + START.parts);
    assert Split(a).args + START.parts == Split(a).args;
    assert Step(la, ' ') == next by {
      Cleared(START, a);
    }
    EarlierParts(Split(a).args, START, b);
    var lb := Lex(START, b);
    assert (Split(a).args + lb.parts) + [lb.current] == Split(a).args + (lb.parts + [lb.current]);
  }

  // Text is only collected in an argument that has started.
  lemma {:induction false} Cleared(l: Lexer, s: string)
    requires l.started || l.current == ""
    ensures Lex(l, s).started || Lex(l, s).current == ""
    decreases |s|
  {
    if s != "" {
      Cleared(Step(l, s[0]), s[1..]);
    }
  }

  // ------------------------------------------------------------- the inverse

  // '\'' for a single quote, everything else as it is.
  function Escaped(arg: string): (s: string) {
    if arg == "" then ""
    else (if arg[0] == '\'' then "'\\''" else [arg[0]]) + Escaped(arg[1..])
  }

  function Quoted(arg: string): (s: string) {
    "'" + Escaped(arg) + "'"
  }

  function Join(args: seq<string>): (s: string) {
    if args == [] then ""
    else if |args| == 1 then Quoted(args[0])
    else Quoted(args[0]) + " " + Join(args[1..])
  }

  lemma {:induction false} LexEscaped(l: Lexer, arg: string)
    requires l.quote == Single && !l.escaped && l.started
    ensures Lex(l, Escaped(arg)) == l.(current := l.current + arg)
    decreases |arg|
  {
    if arg == "" {
      assert l.current + arg == l.current;
    } else {
      var head := if arg[0] == '\'' then "'\\''" else [arg[0]];
      LexOfTwo(l, head, Escaped(arg[1..]));
      var l1 := l.(current := l.current + [arg[0]]);
      assert Lex(l, head) == l1 by { LexHead(l, arg[0]); }
      LexEscaped(l1, arg[1..]);
      assert l.current + [arg[0]] + arg[1..] == l.current + arg;
    }
  }

  lemma LexHead(l: Lexer, c: char)
    requires l.quote == Single && !l.escaped && l.started
    ensures Lex(l, if c == '\'' then "'\\''" else [c]) == l.(current := l.current + [c])
  {
    if c == '\'' {
      var s := "'\\''";
      assert s[1..] == "\\''" && s[1..][1..] == "''" && s[1..][1..][1..] == "'" && s[1..][1..][1..][1..] == "";
      var l1 := Step(l, s[0]);
      var l2 := Step(l1, s[1]);
      var l3 := Step(l2, s[2]);
      var l4 := Step(l3, s[3]);
      assert Lex(l, s) == Lex(l1, s[1..]) == Lex(l2, "''") == Lex(l3, "'") == Lex(l4, "");
    }
  }

  lemma LexQuoted(arg: string)
    ensures Lex(START, Quoted(arg)) == START.(current := arg, started := true)
  {
    var l := START.(quote := Single, started := true);
    assert Quoted(arg)[0] == '\'' && Quoted(arg)[1..] == Escaped(arg) + "'";
    LexOfTwo(l, Escaped(arg), "'");
    LexEscaped(l, arg);
    assert "" + arg == arg;
    var l' := l.(current := arg);
    assert Lex(l', "'") == Lex(Step(l', '\''), "");
  }

  // Quoting each argument and joining with spaces is undone by splitting.
  lemma {:induction false} SplitUndoesJoin(args: seq<string>)
    ensures Split(Join(args)) == Ok(args)
  {
    if args != [] {
      LexQuoted(args[0]);
      assert Split(Quoted(args[0])) == Ok([args[0]]);
      if |args| > 1 {
        SplitUndoesJoin(args[1..]);
        SplitOfTwo(Quoted(args[0]), Join(args[1..]));
        assert [args[0]] + args[1..] == args;
      } else {
        assert args == [args[0]];
      }
    }
  }

  // -------------------------------------------------------------- plain text

  predicate Plain(s: string) {
    forall i :: 0 <= i < |s| ==> s[i] != '\'' && s[i] != '"' && s[i] != '\\'
  }

  function WordLength(s: string): (n: nat)
    ensures n <= |s|
  {
    if s == "" || IsSpace(s[0]) then 0 else 1 + WordLength(s[1..])
  }

  // strings.Fields
  function Fields(s: string): (words: seq<string>)
    decreases |s|
  {
    if s == "" then []
    else if IsSpace(s[0]) then Fields(s[1..])
    else [s[..WordLength(s)]] + Fields(s[WordLength(s)..])
  }

  lemma {:induction false} LexWord(l: Lexer, s: string)
    requires Plain(s) && !l.escaped && l.quote == Unquoted && l.started
    ensures Lex(l, s) == Lex(l.(current := l.current + s[..WordLength(s)]), s[WordLength(s)..])
    decreases |s|
  {
    if s == "" || IsSpace(s[0]) {
      assert l.current + s[..0] == l.current;
    } else {
      var n := WordLength(s[1..]);
      LexWord(Take(l, s[0]), s[1..]);
      assert l.current + [s[0]] + s[1..][..n] == l.current + s[..n + 1];
      assert s[1..][n..] == s[n + 1..];
    }
  }

  lemma {:induction false} LexFields(l: Lexer, s: string)
    requires Plain(s) && !l.escaped && l.quote == Unquoted && !l.started && l.current == ""
    ensures Finish(Lex(l, s)) == Ok(l.parts + Fields(s))
    decreases |s|
  {
    if s == "" {
      assert l.parts + [] == l.parts;
    } else if IsSpace(s[0]) {
      LexFields(l, s[1..]);
    } else {
      var n := WordLength(s);
      var l1 := Take(l, s[0]);
      LexWord(l1, s[1..]);
      assert l1.current == [s[0]] && WordLength(s[1..]) == n - 1;
      assert [s[0]] + s[1..][..n - 1] == s[..n] && s[1..][n - 1..] == s[n..];
      var l2 := l1.(current := s[..n]);
      assert Lex(l, s) == Lex(l2, s[n..]);
      assert l.parts + [s[..n]] + Fields(s[n..]) == l.parts + Fields(s);
      if n < |s| {
        WordEnds(s);
        assert s[n..][1..] == s[n + 1..];
        LexFields(Flush(l2), s[n + 1..]);
        assert Fields(s[n..]) == Fields(s[n + 1..]);
      } else {
        assert s[n..] == "";
      }
    }
  }

  lemma {:induction false} WordEnds(s: string)
    requires WordLength(s) < |s|
    ensures IsSpace(s[WordLength(s)])
  {
    if !IsSpace(s[0]) {
      WordEnds(s[1..]);
    }
  }

  lemma PlainTextSplitsAtSpaces(s: string)
    requires Plain(s)
    ensures Split(s) == Ok(Fields(s))
  {
    LexFields(START, s);
  }
}
