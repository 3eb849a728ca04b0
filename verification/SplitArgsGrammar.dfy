// What the argument parser reads, as a grammar, and three ways of writing an
// argument so that it is read back.

module SplitArgsGrammar {
  import opened SplitArgs

  // ------------------------------------------------------------ the grammar

  // One piece of an argument, or the reason why it does not end.
  datatype Piece = Piece(text: string, length: nat) | NoEscape | NoQuote

  // What follows an opening double quote, up to the closing one: a backslash
  // takes the next rune as it is, everything else stands for itself.
  function DoubleQuoted(s: string): (p: Piece)
    ensures p.Piece? ==> 1 <= p.length <= |s|
    decreases |s|
  {
    if s == "" then NoQuote
    else if s[0] == '"' then Piece("", 1)
    else if s[0] == '\\' && |s| == 1 then NoEscape
    else
      var n, c := if s[0] == '\\' then 2 else 1, if s[0] == '\\' then s[1] else s[0];
      match DoubleQuoted(s[n..])
      case Piece(text, length) => Piece([c] + text, n + length)
      case error => error
  }

  // Where a single quote closes; nothing is special before it.
  function ClosingQuote(s: string): (n: nat)
    ensures n <= |s| && (n < |s| ==> s[n] == '\'') && forall i :: 0 <= i < n ==> s[i] != '\''
  {
    if s == "" || s[0] == '\'' then 0 else 1 + ClosingQuote(s[1..])
  }

  function ReadPiece(s: string): (p: Piece)
    requires s != ""
    ensures p.Piece? ==> 1 <= p.length <= |s|
  {
    match s[0]
    case '\\' => if |s| == 1 then NoEscape else Piece([s[1]], 2)
    case '\'' =>
      var n := ClosingQuote(s[1..]);
      if n == |s| - 1 then NoQuote else Piece(s[1..n + 1], n + 2)
    case '"' =>
      (match DoubleQuoted(s[1..])
       case Piece(text, length) => Piece(text, length + 1)
       case error => error)
    case c => Piece([c], 1)
  }

  // An argument: pieces up to the next space outside quotes.
  function ReadArgument(s: string): (p: Piece)
    ensures p.Piece? ==> p.length <= |s| && (s != "" && !IsSpace(s[0]) ==> 1 <= p.length)
    decreases |s|
  {
    if s == "" || IsSpace(s[0]) then Piece("", 0)
    else
      match ReadPiece(s)
      case Piece(text, length) =>
        (match ReadArgument(s[length..])
         case Piece(more, rest) => Piece(text + more, length + rest)
         case error => error)
      case error => error
  }

  function Parse(s: string): (r: Result)
    decreases |s|
  {
    if s == "" then Ok([])
    else if IsSpace(s[0]) then Parse(s[1..])
    else
      match ReadArgument(s)
      case NoEscape => UnterminatedEscape
      case NoQuote => UnterminatedQuote
      case Piece(text, length) =>
        match Parse(s[length..])
        case Ok(args) => Ok([text] + args)
        case error => error
  }

  predicate Plainly(l: Lexer) {
    l.quote == Unquoted && !l.escaped
  }

  function Inside(l: Lexer, quote: Quote): (l': Lexer) {
    l.(quote := quote, started := true)
  }

  function With(l: Lexer, text: string): (l': Lexer) {
    l.(current := l.current + text, started := true)
  }

  // The machine at the end of text that a piece does not end in.
  predicate Dangling(l: Lexer, p: Piece) {
    if p.NoEscape? then l.escaped else !l.escaped && l.quote != Unquoted
  }

  lemma LexOne(l: Lexer, s: string)
    ensures s == "" ==> Lex(l, s) == l
    ensures s != "" ==> Lex(l, s) == Lex(Step(l, s[0]), s[1..])
  {
  }

  lemma LexTwo(l: Lexer, s: string)
    requires |s| >= 2
    ensures Lex(l, s) == Lex(Step(Step(l, s[0]), s[1]), s[2..])
  {
    assert s[1..][0] == s[1] && s[1..][1..] == s[2..];
  }

  lemma {:induction false} LexDouble(l: Lexer, s: string)
    requires l.quote == Double && !l.escaped && l.started
    ensures var p := DoubleQuoted(s);
      if p.Piece? then Lex(l, s) == Lex(With(l, p.text).(quote := Unquoted), s[p.length..])
      else Dangling(Lex(l, s), p)
    decreases |s|
  {
    hide Lex;
    LexOne(l, s);
    if s == "" {
    } else if s[0] == '"' {
      assert l.current + "" == l.current;
    } else if s[0] == '\\' && |s| == 1 {
      LexOne(Step(l, s[0]), s[1..]);
    } else {
      var n, c := if s[0] == '\\' then 2 else 1, if s[0] == '\\' then s[1] else s[0];
      if s[0] == '\\' {
        LexTwo(l, s);
      }
      assert Lex(l, s) == Lex(With(l, [c]), s[n..]);
      LexDouble(With(l, [c]), s[n..]);
      var p := DoubleQuoted(s[n..]);
      if p.Piece? {
        assert l.current + [c] + p.text == l.current + ([c] + p.text);
        assert s[n..][p.length..] == s[n + p.length..];
      }
    }
  }

  lemma {:induction false} LexSingle(l: Lexer, s: string)
    requires l.quote == Single && !l.escaped && l.started
    ensures var n := ClosingQuote(s);
      if n == |s| then Dangling(Lex(l, s), NoQuote)
      else Lex(l, s) == Lex(With(l, s[..n]).(quote := Unquoted), s[n + 1..])
    decreases |s|
  {
    if s == "" {
    } else if s[0] == '\'' {
      assert l.current + s[..0] == l.current;
    } else {
      LexSingle(Take(l, s[0]), s[1..]);
      var n := ClosingQuote(s[1..]);
      assert l.current + [s[0]] + s[1..][..n] == l.current + s[..n + 1];
      if n < |s[1..]| {
        assert s[1..][n + 1..] == s[n + 2..];
      }
    }
  }

  lemma LexPiece(l: Lexer, s: string)
    requires Plainly(l) && s != "" && !IsSpace(s[0])
    ensures var p := ReadPiece(s);
      if p.Piece? then Lex(l, s) == Lex(With(l, p.text), s[p.length..]) else Dangling(Lex(l, s), p)
  {
    match s[0]
    case '\\' =>
      if |s| == 1 {
        assert s[1..] == "" && Lex(l, s) == Lex(Step(l, s[0]), "");
      } else {
        assert s[1..][0] == s[1] && s[1..][1..] == s[2..];
        assert Lex(l, s) == Lex(Step(l, s[0]), s[1..]) == Lex(Step(Step(l, s[0]), s[1]), s[2..]);
      }
    case '\'' =>
      LexSingle(Inside(l, Single), s[1..]);
      var n := ClosingQuote(s[1..]);
      if n < |s| - 1 {
        assert s[1..][..n] == s[1..n + 1] && s[1..][n + 1..] == s[n + 2..];
      }
    case '"' =>
      LexDouble(Inside(l, Double), s[1..]);
      var p := DoubleQuoted(s[1..]);
      if p.Piece? {
        assert s[1..][p.length..] == s[p.length + 1..];
      }
    case _ =>
  }

  lemma {:induction false} LexArgument(l: Lexer, s: string)
    requires Plainly(l) && l.started
    ensures var p := ReadArgument(s);
      if p.Piece? then Lex(l, s) == Lex(With(l, p.text), s[p.length..]) else Dangling(Lex(l, s), p)
    decreases |s|
  {
    hide Lex, Step, ReadPiece;
    if s == "" || IsSpace(s[0]) {
      assert l.current + "" == l.current && s[0..] == s;
    } else {
      LexPiece(l, s);
      var p := ReadPiece(s);
      if p.Piece? {
        LexArgument(With(l, p.text), s[p.length..]);
        var q := ReadArgument(s[p.length..]);
        if q.Piece? {
          assert l.current + p.text + q.text == l.current + (p.text + q.text);
          assert s[p.length..][q.length..] == s[p.length + q.length..];
        }
      }
    }
  }

  lemma {:induction false} LexParse(l: Lexer, s: string)
    requires Plainly(l) && !l.started && l.current == ""
    ensures Finish(Lex(l, s)) ==
            match Parse(s)
            case Ok(args) => Ok(l.parts + args)
            case error => error
    decreases |s|
  {
    hide Lex, ReadArgument;
    LexOne(l, s);
    if s == "" {
      assert l.parts + [] == l.parts;
    } else if IsSpace(s[0]) {
      LexParse(l, s[1..]);
    } else {
      var p := ReadArgument(s);
      ArgumentStarts(l, s);
      if p.Piece? {
        var rest := s[p.length..];
        var l1 := l.(current := p.text, started := true);
        ArgumentEnds(s);
        LexOne(l1, rest);
        if rest == "" {
          assert Parse(rest) == Ok([]);
          assert [p.text] + [] == [p.text];
        } else {
          var l2 := Flush(l1);
          LexParse(l2, rest[1..]);
          assert Parse(rest) == Parse(rest[1..]);
          if Parse(rest).Ok? {
            assert l.parts + [p.text] + Parse(rest).args == l.parts + ([p.text] + Parse(rest).args);
          }
        }
      }
    }
  }

  lemma OnePieceMore(s: string)
    requires s != "" && !IsSpace(s[0])
    ensures var p := ReadPiece(s);
      ReadArgument(s) ==
      if !p.Piece? then p
      else
        match ReadArgument(s[p.length..])
        case Piece(more, rest) => Piece(p.text + more, p.length + rest)
        case error => error
  {
  }

  lemma ArgumentStarts(l: Lexer, s: string)
    requires Plainly(l) && !l.started && l.current == "" && s != "" && !IsSpace(s[0])
    ensures var p := ReadArgument(s);
      if p.Piece? then Lex(l, s) == Lex(l.(current := p.text, started := true), s[p.length..])
      else Dangling(Lex(l, s), p)
  {
    hide Lex, Step, ReadPiece, ReadArgument, IsSpace;
    LexPiece(l, s);
    OnePieceMore(s);
    var p := ReadPiece(s);
    if p.Piece? {
      LexArgument(With(l, p.text), s[p.length..]);
      var q := ReadArgument(s[p.length..]);
      if q.Piece? {
        assert l.current + p.text + q.text == p.text + q.text;
        assert s[p.length..][q.length..] == s[p.length + q.length..];
      }
    }
  }

  lemma {:induction false} ArgumentEnds(s: string)
    requires ReadArgument(s).Piece?
    ensures var n := ReadArgument(s).length; n == |s| || IsSpace(s[n])
    decreases |s|
  {
    hide ReadPiece;
    if s != "" && !IsSpace(s[0]) {
      var p := ReadPiece(s);
      ArgumentEnds(s[p.length..]);
    }
  }

  // The machine reads exactly the grammar: which arguments a text has, and
  // which texts end in an unterminated escape or quote.
  lemma SplitIsParse(s: string)
    ensures Split(s) == Parse(s)
  {
    LexParse(START, s);
    if Parse(s).Ok? {
      assert [] + Parse(s).args == Parse(s).args;
    }
  }

  // --------------------------------------------------------- the inverses

  // In single quotes, in double quotes, or a backslash before every rune.
  datatype Style = InSingle | InDouble | Escaping

  function InDoubleQuotes(arg: string): (s: string) {
    if arg == "" then ""
    else (if arg[0] == '"' || arg[0] == '\\' then ['\\', arg[0]] else [arg[0]]) + InDoubleQuotes(arg[1..])
  }

  function Backslashed(arg: string): (s: string) {
    if arg == "" then "" else ['\\', arg[0]] + Backslashed(arg[1..])
  }

  function Written(arg: string, style: Style): (s: string) {
    match style
    case InSingle => Quoted(arg)
    case InDouble => "\"" + InDoubleQuotes(arg) + "\""
    case Escaping => if arg == "" then "\"\"" else Backslashed(arg)
  }

  function WriteAll(args: seq<string>, styles: seq<Style>): (s: string)
    requires |styles| == |args|
  {
    if args == [] then ""
    else if |args| == 1 then Written(args[0], styles[0])
    else Written(args[0], styles[0]) + " " + WriteAll(args[1..], styles[1..])
  }

  lemma {:induction false} LexInDoubleQuotes(l: Lexer, arg: string)
    requires l.quote == Double && !l.escaped && l.started
    ensures Lex(l, InDoubleQuotes(arg)) == l.(current := l.current + arg)
    decreases |arg|
  {
    hide Lex;
    LexOne(l, "");
    if arg == "" {
      assert l.current + arg == l.current;
    } else {
      var c, s := arg[0], InDoubleQuotes(arg);
      var l1 := l.(current := l.current + [c]);
      if c == '"' || c == '\\' {
        LexTwo(l, s);
        assert s[2..] == InDoubleQuotes(arg[1..]);
      } else {
        LexOne(l, s);
        assert s[1..] == InDoubleQuotes(arg[1..]);
      }
      LexInDoubleQuotes(l1, arg[1..]);
      assert l.current + [c] + arg[1..] == l.current + arg;
    }
  }

  lemma {:induction false} LexBackslashed(l: Lexer, arg: string)
    requires Plainly(l) && (arg == "" ==> l.started)
    ensures Lex(l, Backslashed(arg)) == l.(current := l.current + arg, started := true)
    decreases |arg|
  {
    hide Lex;
    LexOne(l, "");
    if arg == "" {
      assert l.current + arg == l.current;
    } else {
      var s := Backslashed(arg);
      LexTwo(l, s);
      assert s[2..] == Backslashed(arg[1..]);
      LexBackslashed(With(l, [arg[0]]), arg[1..]);
      assert l.current + [arg[0]] + arg[1..] == l.current + arg;
    }
  }

  lemma LexWritten(arg: string, style: Style)
    ensures Lex(START, Written(arg, style)) == START.(current := arg, started := true)
  {
    hide Lex;
    match style
    case InSingle => LexQuoted(arg);
    case InDouble => LexDoublyQuoted(arg);
    case Escaping =>
      if arg == "" {
        LexTwo(START, "\"\"");
        LexOne(START.(started := true), "");
        assert "\"\""[2..] == "";
      } else {
        LexBackslashed(START, arg);
        assert "" + arg == arg;
      }
  }

  lemma LexDoublyQuoted(arg: string)
    ensures Lex(START, "\"" + InDoubleQuotes(arg) + "\"") == START.(current := arg, started := true)
  {
    hide Lex;
    var s, l := "\"" + InDoubleQuotes(arg) + "\"", Inside(START, Double);
    LexOne(START, s);
    assert s[1..] == InDoubleQuotes(arg) + "\"";
    LexOfTwo(l, InDoubleQuotes(arg), "\"");
    LexInDoubleQuotes(l, arg);
    assert "" + arg == arg;
    var l1 := l.(current := arg);
    LexOne(l1, "\"");
    LexOne(l1.(quote := Unquoted), "");
    assert "\""[1..] == "";
  }

  // However each argument is written, splitting reads it back.
  lemma {:induction false} SplitReadsWhatIsWritten(args: seq<string>, styles: seq<Style>)
    requires |styles| == |args|
    ensures Split(WriteAll(args, styles)) == Ok(args)
    decreases |args|
  {
    hide Lex, Written;
    if args == [] {
      LexOne(START, "");
    } else {
      LexWritten(args[0], styles[0]);
      assert Split(Written(args[0], styles[0])) == Ok([args[0]]);
      if |args| > 1 {
        SplitReadsWhatIsWritten(args[1..], styles[1..]);
        SplitOfTwo(Written(args[0], styles[0]), WriteAll(args[1..], styles[1..]));
        assert [args[0]] + args[1..] == args;
      } else {
        assert args == [args[0]];
      }
    }
  }

  // ------------------------------------------------------------------ spaces

  // The 25 runes with the Unicode property White_Space.
  const WHITE_SPACE := [
    '\U{9}', '\U{A}', '\U{B}', '\U{C}', '\U{D}', '\U{20}', '\U{85}', '\U{A0}', '\U{1680}',
    '\U{2000}', '\U{2001}', '\U{2002}', '\U{2003}', '\U{2004}', '\U{2005}', '\U{2006}', '\U{2007}', '\U{2008}',
    '\U{2009}', '\U{200A}', '\U{2028}', '\U{2029}', '\U{202F}', '\U{205F}', '\U{3000}']

  lemma SpacesExactly(r: char)
    ensures IsSpace(r) <==> r in WHITE_SPACE
  {
    if '\t' <= r <= '\r' {
      assert r == WHITE_SPACE[r as int - 9];
    } else if '\U{2000}' <= r <= '\U{200A}' {
      assert r == WHITE_SPACE[r as int - 0x2000 + 9];
    } else if IsSpace(r) {
      assert r in [WHITE_SPACE[5], WHITE_SPACE[6], WHITE_SPACE[7], WHITE_SPACE[8]] + WHITE_SPACE[20..];
    }
  }
}
