/** The shell's parser (xv6/sh.c:259-492).

    A line is a C string without its NUL.  The cursor *ps is the rest of the line, so the position of a
    word is told by how much of the line is left behind it.
 */
module Shell {

  const MAXARGS: nat := 10
  const NUL: char := '\0'

  predicate IsSpace(c: char) { c == ' ' || c == '\t' || c == '\r' || c == '\n' || c == 11 as char }

  predicate IsSymbol(c: char) { c == '<' || c == '|' || c == '>' || c == '&' || c == ';' || c == '(' || c == ')' }

  predicate IsWordChar(c: char) { !IsSpace(c) && !IsSymbol(c) && c != NUL }

  /** The lines strlen can see. */
  predicate CString(s: string) { forall i :: 0 <= i < |s| ==> s[i] != NUL }

  /** A word: its text, and the number of characters of the line behind it. */
  datatype Word = Word(text: string, left: nat)

  /** struct cmd.  `out` tells > and >> from <. */
  datatype Cmd = Exec(argv: seq<Word>) | Redir(sub: Cmd, file: Word, out: bool) | Pipe(left: Cmd, right: Cmd)
               | List(left: Cmd, right: Cmd) | Back(sub: Cmd)

  // Tokens

  datatype Tok = End | Sym(c: char) | Append | Arg(w: Word)

  function SkipWs(s: string): (r: string)
    ensures |r| <= |s| && (r != "" ==> !IsSpace(r[0]))
  {
    if s != "" && IsSpace(s[0]) then SkipWs(s[1..]) else s
  }

  function WordLen(s: string): (n: nat)
    ensures n <= |s| && (forall i :: 0 <= i < n ==> !IsSpace(s[i]) && !IsSymbol(s[i]))
    ensures n < |s| ==> IsSpace(s[n]) || IsSymbol(s[n])
  {
    if s == "" || IsSpace(s[0]) || IsSymbol(s[0]) then 0 else 1 + WordLen(s[1..])
  }

  /** The token a string starts with, and its length. */
  function TokenHere(t: string): (r: (Tok, nat))
    ensures r.1 <= |t| && (t != "" && !IsSpace(t[0]) ==> !r.0.End? && 0 < r.1)
  {
    if t == "" then (End, 0)
    else if t[0] == '>' then (if |t| > 1 && t[1] == '>' then (Append, 2) else (Sym('>'), 1))
    else if IsSymbol(t[0]) then (Sym(t[0]), 1)
    else
      var n := WordLen(t);
      (Arg(Word(t[..n], |t| - n)), n)
  }

  function Token(s: string): (r: (Tok, string))
    ensures |r.1| <= |s| && (!r.0.End? ==> |r.1| < |s|)
  {
    var t := SkipWs(s);
    var (tok, n) := TokenHere(t);
    (tok, SkipWs(t[n..]))
  }

  /** The character peek looks at: the next one that is not a space, or the NUL at the end. */
  function Peek(s: string): (c: char)
    ensures c != NUL ==> !Token(s).0.End?
  {
    if SkipWs(s) == "" then NUL else SkipWs(s)[0]
  }

  // The parser

  /** Panic stands for the source's calls of panic. */
  datatype Parsed = Ok(cmd: Cmd, rest: string) | Panic
  datatype Redirs = Some(files: seq<(Word, bool)>, rest: string) | Bad

  /** The redirections at the cursor. */
  function ParseRedirs(s: string): (r: Redirs)
    ensures r.Some? ==> |r.rest| <= |s|
    decreases |s|
  {
    if Peek(s) == '<' || Peek(s) == '>' then
      var (tok, s1) := Token(s);
      var (file, s2) := Token(s1);
      if !file.Arg? then Bad
      else match ParseRedirs(s2)
           case Bad => Bad
           case Some(files, rest) => Some([(file.w, tok != Sym('<'))] + files, rest)
    else Some([], SkipWs(s))
  }

  /** parseredirs wraps the command in one redircmd after another. */
  function Wrap(cmd: Cmd, files: seq<(Word, bool)>): Cmd
    decreases |files|
  {
    if files == [] then cmd else Wrap(Redir(cmd, files[0].0, files[0].1), files[1..])
  }

  function Redirected(cmd: Cmd, r: Redirs): Parsed {
    if r.Bad? then Panic else Ok(Wrap(cmd, r.files), r.rest)
  }

  /** The loop of parseexec. */
  function ParseArgs(argv: seq<Word>, files: seq<(Word, bool)>, s: string): (r: Parsed)
    ensures r.Ok? ==> |r.rest| <= |s|
    decreases |s|
  {
    if Peek(s) == '|' || Peek(s) == ')' || Peek(s) == '&' || Peek(s) == ';' then Ok(Wrap(Exec(argv), files), SkipWs(s))
    else
      var (tok, s1) := Token(s);
      if tok.End? then Ok(Wrap(Exec(argv), files), s1)
      else if !tok.Arg? || |argv| + 1 >= MAXARGS then Panic
      else match ParseRedirs(s1)
           case Bad => Panic
           case Some(more, s2) => ParseArgs(argv + [tok.w], files + more, s2)
  }

  function ParseExec(s: string): (r: Parsed)
    ensures r.Ok? ==> |r.rest| <= |s|
    decreases |s|, 1
  {
    if Peek(s) == '(' then ParseBlock(SkipWs(s))
    else match ParseRedirs(s)
         case Bad => Panic
         case Some(files, s1) => ParseArgs([], files, s1)
  }

  function ParseBlock(s: string): (r: Parsed)
    ensures r.Ok? ==> |r.rest| <= |s|
    decreases |s|, 0
  {
    if Peek(s) != '(' then Panic
    else match ParseLine(Token(s).1)
         case Panic => Panic
         case Ok(cmd, s1) =>
           if Peek(s1) != ')' then Panic else Redirected(cmd, ParseRedirs(Token(s1).1))
  }

  function ParsePipe(s: string): (r: Parsed)
    ensures r.Ok? ==> |r.rest| <= |s|
    decreases |s|, 2
  {
    match ParseExec(s)
    case Panic => Panic
    case Ok(cmd, s1) =>
      if Peek(s1) == '|' then
        match ParsePipe(Token(s1).1)
        case Panic => Panic
        case Ok(right, s2) => Ok(Pipe(cmd, right), s2)
      else Ok(cmd, SkipWs(s1))
  }

  /** The loop of parseline over the ampersands. */
  function Backs(cmd: Cmd, s: string): (r: (Cmd, string))
    ensures |r.1| <= |s|
    decreases |s|
  {
    if Peek(s) == '&' then Backs(Back(cmd), Token(s).1) else (cmd, SkipWs(s))
  }

  function ParseLine(s: string): (r: Parsed)
    ensures r.Ok? ==> |r.rest| <= |s|
    decreases |s|, 3
  {
    match ParsePipe(s)
    case Panic => Panic
    case Ok(first, s1) =>
      var (cmd, s2) := Backs(first, s1);
      if Peek(s2) == ';' then
        match ParseLine(Token(s2).1)
        case Panic => Panic
        case Ok(right, s3) => Ok(List(cmd, right), s3)
      else Ok(cmd, s2)
  }

  /** parsecmd, before it calls nulterminate. */
  function ParseCmd(s: string): (r: Parsed)
    ensures r.Ok? ==> r.rest == ""
  {
    match ParseLine(s)
    case Panic => Panic
    case Ok(cmd, rest) => if SkipWs(rest) != "" then Panic else Ok(cmd, "")
  }

  // What a line means

  /** A command without positions. */
  datatype Tree = TExec(args: seq<string>) | TRedir(sub: Tree, file: string, out: bool) | TPipe(left: Tree, right: Tree)
                | TList(left: Tree, right: Tree) | TBack(sub: Tree)

  function Texts(ws: seq<Word>): (r: seq<string>)
    ensures |r| == |ws| && forall i :: 0 <= i < |ws| ==> r[i] == ws[i].text
  {
    seq(|ws|, i requires 0 <= i < |ws| => ws[i].text)
  }

  function Text(cmd: Cmd): Tree {
    match cmd
    case Exec(argv) => TExec(Texts(argv))
    case Redir(sub, file, out) => TRedir(Text(sub), file.text, out)
    case Pipe(left, right) => TPipe(Text(left), Text(right))
    case List(left, right) => TList(Text(left), Text(right))
    case Back(sub) => TBack(Text(sub))
  }

  /** A token without its position: a symbol, >> or a word. */
  datatype Lexeme = S(c: char) | More | W(text: string)

  predicate IsRedir(x: Lexeme) { x == S('<') || x == S('>') || x == More }

  /** The grammar.  A plain command is words and redirections in any order. */
  datatype Redirection = Redirection(op: Lexeme, file: string)
  datatype Item = Param(text: string) | File(r: Redirection)
  datatype Unit = Plain(items: seq<Item>) | Block(body: Line, files: seq<Redirection>)
  datatype Chain = Last(u: Unit) | Piped(u: Unit, rest: Chain)
  datatype Line = Sole(c: Chain, amps: nat) | Then(c: Chain, amps: nat, rest: Line)

  // Its tokens

  function RedirToks(fs: seq<Redirection>): seq<Lexeme> {
    if fs == [] then [] else [fs[0].op, W(fs[0].file)] + RedirToks(fs[1..])
  }

  function ItemToks(items: seq<Item>): seq<Lexeme> {
    if items == [] then []
    else (match items[0] case Param(t) => [W(t)] case File(r) => [r.op, W(r.file)]) + ItemToks(items[1..])
  }

  function UnitToks(u: Unit): seq<Lexeme> {
    match u
    case Plain(items) => ItemToks(items)
    case Block(body, fs) => [S('(')] + (LineToks(body) + ([S(')')] + RedirToks(fs)))
  }

  function ChainToks(c: Chain): seq<Lexeme> {
    match c
    case Last(u) => UnitToks(u)
    case Piped(u, rest) => UnitToks(u) + ([S('|')] + ChainToks(rest))
  }

  function Amps(n: nat): seq<Lexeme> { if n == 0 then [] else [S('&')] + Amps(n - 1) }

  function LineToks(l: Line): seq<Lexeme> {
    match l
    case Sole(c, n) => ChainToks(c) + Amps(n)
    case Then(c, n, rest) => ChainToks(c) + (Amps(n) + ([S(';')] + LineToks(rest)))
  }

  // Its meaning

  function Params(items: seq<Item>): seq<string> {
    if items == [] then [] else (if items[0].Param? then [items[0].text] else []) + Params(items[1..])
  }

  function Files(items: seq<Item>): seq<Redirection> {
    if items == [] then [] else (if items[0].File? then [items[0].r] else []) + Files(items[1..])
  }

  /** The first redirection is the innermost. */
  function Redirect(t: Tree, fs: seq<Redirection>): Tree {
    if fs == [] then t
    else TRedir(Redirect(t, fs[..|fs| - 1]), fs[|fs| - 1].file, fs[|fs| - 1].op != S('<'))
  }

  function Behind(t: Tree, n: nat): Tree
    decreases n
  {
    if n == 0 then t else Behind(TBack(t), n - 1)
  }

  function MeanUnit(u: Unit): Tree {
    match u
    case Plain(items) => Redirect(TExec(Params(items)), Files(items))
    case Block(body, fs) => Redirect(MeanLine(body), fs)
  }

  function MeanChain(c: Chain): Tree {
    match c
    case Last(u) => MeanUnit(u)
    case Piped(u, rest) => TPipe(MeanUnit(u), MeanChain(rest))
  }

  function MeanLine(l: Line): Tree {
    match l
    case Sole(c, n) => Behind(MeanChain(c), n)
    case Then(c, n, rest) => TList(Behind(MeanChain(c), n), MeanLine(rest))
  }

  predicate GoodFiles(fs: seq<Redirection>) { forall i :: 0 <= i < |fs| ==> IsRedir(fs[i].op) }

  /** At most 9 words per command. */
  predicate GoodUnit(u: Unit) {
    match u
    case Plain(items) => |Params(items)| < MAXARGS && GoodFiles(Files(items))
    case Block(body, fs) => GoodLine(body) && GoodFiles(fs)
  }

  predicate GoodChain(c: Chain) { GoodUnit(c.u) && (c.Piped? ==> GoodChain(c.rest)) }

  predicate GoodLine(l: Line) { GoodChain(l.c) && (l.Then? ==> GoodLine(l.rest)) }

  // The tokens of a string

  function LexemeOf(tok: Tok): Lexeme
    requires !tok.End?
  {
    match tok
    case Sym(c) => S(c)
    case Append => More
    case Arg(w) => W(w.text)
  }

  function Lex(s: string): seq<Lexeme>
    decreases |s|
  {
    var (tok, rest) := Token(s);
    if tok.End? then [] else [LexemeOf(tok)] + Lex(rest)
  }

  /** A string that does not start with a space is where the cursor already is. */
  lemma NoSkip(s: string)
    requires s == "" || !IsSpace(s[0])
    ensures SkipWs(s) == s && Peek(s) == if s == "" then NUL else s[0]
  {
  }

  lemma LexSkip(s: string)
    ensures Lex(SkipWs(s)) == Lex(s) && Peek(SkipWs(s)) == Peek(s) && Token(SkipWs(s)) == Token(s)
  {
    NoSkip(SkipWs(s));
  }

  /** peek tells a symbol by the first token. */
  ghost predicate At(s: string, c: char) {
    Peek(s) == c <==> Lex(s) != [] && (Lex(s)[0] == S(c) || (c == '>' && Lex(s)[0] == More))
  }

  /** The first token. */
  lemma LexFirst(s: string)
    ensures Token(s).0.End? <==> Lex(s) == []
    ensures Lex(s) != [] ==> Lex(s)[0] == LexemeOf(Token(s).0) && Lex(s)[1..] == Lex(Token(s).1) && |Token(s).1| < |s|
    ensures At(s, '<') && At(s, '>') && At(s, '(') && At(s, ')') && At(s, '|') && At(s, '&') && At(s, ';')
  {
    hide WordLen;
  }

  predicate StartsWith(x: seq<Lexeme>, cs: string) { x == [] || (x[0].S? && x[0].c in cs) }

  /** What can follow a command, a pipe and a line. */
  predicate UnitEnds(x: seq<Lexeme>) { StartsWith(x, "|)&;") }
  predicate ChainEnds(x: seq<Lexeme>) { StartsWith(x, ")&;") }
  predicate LineEnds(x: seq<Lexeme>) { StartsWith(x, ")") }

  // Lines of the grammar parse to what they mean

  ghost predicate SameFiles(files: seq<(Word, bool)>, fs: seq<Redirection>) {
    && |files| == |fs|
    && forall i :: 0 <= i < |fs| ==> files[i].0.text == fs[i].file && files[i].1 == (fs[i].op != S('<'))
  }

  lemma {:induction false} WrapLast(cmd: Cmd, files: seq<(Word, bool)>)
    requires files != []
    ensures var n := |files| - 1; Wrap(cmd, files) == Redir(Wrap(cmd, files[..n]), files[n].0, files[n].1)
    decreases |files|
  {
    var n := |files| - 1;
    if n != 0 {
      WrapLast(Redir(cmd, files[0].0, files[0].1), files[1..]);
      assert files[1..][..n - 1] == files[..n][1..];
    }
  }

  lemma {:induction false} WrapMeans(cmd: Cmd, files: seq<(Word, bool)>, fs: seq<Redirection>)
    requires SameFiles(files, fs)
    ensures Text(Wrap(cmd, files)) == Redirect(Text(cmd), fs)
    decreases |files|
  {
    if files != [] {
      var n := |files| - 1;
      WrapLast(cmd, files);
      WrapMeans(cmd, files[..n], fs[..n]);
    }
  }

  /** One redirection at the cursor. */
  lemma RedirStep(s: string)
    requires 2 <= |Lex(s)| && IsRedir(Lex(s)[0]) && Lex(s)[1].W?
    ensures var s1 := Token(s).1;
            var s2 := Token(s1).1;
            && Token(s1).0.Arg? && Token(s1).0.w.text == Lex(s)[1].text && Lex(s2) == Lex(s)[2..] && |s2| < |s|
            && ParseRedirs(s) == match ParseRedirs(s2)
                                 case Bad => Bad
                                 case Some(files, rest) => Some([(Token(s1).0.w, Lex(s)[0] != S('<'))] + files, rest)
  {
    hide Lex, Token, Peek;
    LexFirst(s);
    LexFirst(Token(s).1);
    assert Lex(s)[1..][1..] == Lex(s)[2..];
  }

  lemma NoRedirs(s: string)
    requires Lex(s) == [] || !IsRedir(Lex(s)[0])
    ensures ParseRedirs(s) == Some([], SkipWs(s)) && Lex(SkipWs(s)) == Lex(s)
  {
    hide Lex, Token, Peek, SkipWs;
    LexFirst(s);
    LexSkip(s);
  }

  lemma GoodFirst(r: Redirection, fs: seq<Redirection>)
    requires GoodFiles([r] + fs)
    ensures IsRedir(r.op) && GoodFiles(fs)
  {
    assert ([r] + fs)[0] == r;
    assert forall i :: 0 <= i < |fs| ==> ([r] + fs)[i + 1] == fs[i];
  }

  lemma GoodMore(r: Redirection, fs: seq<Redirection>)
    requires IsRedir(r.op) && GoodFiles(fs)
    ensures GoodFiles([r] + fs)
  {
  }

  lemma SameFirst(w: Word, r: Redirection, files: seq<(Word, bool)>, fs: seq<Redirection>)
    requires SameFiles(files, fs) && w.text == r.file
    ensures SameFiles([(w, r.op != S('<'))] + files, [r] + fs)
  {
  }

  lemma NoFiles()
    ensures SameFiles([], []) && GoodFiles([])
  {
  }

  lemma {:induction false} RedirsParse(s: string, fs: seq<Redirection>, tail: seq<Lexeme>)
    requires Lex(s) == RedirToks(fs) + tail && GoodFiles(fs) && (tail == [] || !IsRedir(tail[0]))
    ensures ParseRedirs(s).Some? && SameFiles(ParseRedirs(s).files, fs) && Lex(ParseRedirs(s).rest) == tail
    decreases |fs|
  {
    hide Lex, Token, SkipWs, ParseRedirs, SameFiles, GoodFiles;
    if fs == [] {
      assert RedirToks(fs) + tail == tail;
      NoRedirs(s);
      NoFiles();
    } else {
      var s1, r, more := Token(s).1, fs[0], fs[1..];
      assert [r] + more == fs;
      GoodFirst(r, more);
      assert Lex(s) == [r.op, W(r.file)] + (RedirToks(more) + tail);
      RedirStep(s);
      RedirsParse(Token(s1).1, more, tail);
      SameFirst(Token(s1).0.w, r, ParseRedirs(Token(s1).1).files, more);
    }
  }

  /** parseexec from a call of parseredirs on. */
  function ParseRest(argv: seq<Word>, files: seq<(Word, bool)>, s: string): Parsed {
    match ParseRedirs(s)
    case Bad => Panic
    case Some(more, s2) => ParseArgs(argv, files + more, s2)
  }

  /** It meets a redirection, a word, or the end. */
  lemma RestRedir(argv: seq<Word>, files: seq<(Word, bool)>, s: string)
    requires 2 <= |Lex(s)| && IsRedir(Lex(s)[0]) && Lex(s)[1].W?
    ensures var s1 := Token(s).1;
            && Token(s1).0.Arg?
            && ParseRest(argv, files, s) == ParseRest(argv, files + [(Token(s1).0.w, Lex(s)[0] != S('<'))], Token(s1).1)
  {
    hide Lex, Token, ParseRedirs, ParseArgs;
    RedirStep(s);
    var s1 := Token(s).1;
    var one := [(Token(s1).0.w, Lex(s)[0] != S('<'))];
    var r := ParseRedirs(Token(s1).1);
    if r.Some? { assert files + ([(Token(s1).0.w, Lex(s)[0] != S('<'))] + r.files) == files + one + r.files; }
  }

  lemma RestWord(argv: seq<Word>, files: seq<(Word, bool)>, s: string)
    requires Lex(s) != [] && Lex(s)[0].W?
    ensures Token(s).0.Arg? && Token(s).0.w.text == Lex(s)[0].text
    ensures ParseRest(argv, files, s) ==
              if |argv| + 1 >= MAXARGS then Panic else ParseRest(argv + [Token(s).0.w], files, Token(s).1)
  {
    hide Lex, Token, ParseRedirs, Peek, SkipWs;
    NoRedirs(s);
    LexSkip(s);
    LexFirst(s);
    assert files + [] == files;
  }

  lemma RestEnds(argv: seq<Word>, files: seq<(Word, bool)>, s: string)
    requires UnitEnds(Lex(s))
    ensures exists rest :: ParseRest(argv, files, s) == Ok(Wrap(Exec(argv), files), rest) && Lex(rest) == Lex(s)
  {
    hide Token, ParseRedirs, Peek, SkipWs, Wrap;
    NoRedirs(s);
    LexSkip(s);
    LexFirst(s);
    LexSkip(SkipWs(s));
    assert files + [] == files;
    if Lex(s) == [] { EndLex(s); }
    hide Lex;
    var rest := ParseRest(argv, files, s).rest;
    assert ParseRest(argv, files, s) == Ok(Wrap(Exec(argv), files), rest);
  }

  lemma EndLex(s: string)
    requires Lex(s) == []
    ensures Lex(Token(SkipWs(s)).1) == []
  {
  }

  /** A plain command, item by item. */
  lemma ItemsFirst(items: seq<Item>)
    requires items != []
    ensures items[0].Param? ==>
              && ItemToks(items) == [W(items[0].text)] + ItemToks(items[1..]) && Files(items) == Files(items[1..])
              && Params(items) == [items[0].text] + Params(items[1..])
    ensures items[0].File? ==>
              && ItemToks(items) == [items[0].r.op, W(items[0].r.file)] + ItemToks(items[1..])
              && Files(items) == [items[0].r] + Files(items[1..]) && Params(items) == Params(items[1..])
  {
  }

  lemma NothingMore()
    ensures ItemToks([]) == [] && Params([]) == [] && Files([]) == [] && Texts([]) == []
  {
  }

  /** The words and redirections of a plain command, in any order. */
  lemma {:induction false} ItemsParse(argv: seq<Word>, files: seq<(Word, bool)>, s: string, items: seq<Item>, tail: seq<Lexeme>)
    returns (all: seq<Word>, more: seq<(Word, bool)>, rest: string)
    requires Lex(s) == ItemToks(items) + tail && UnitEnds(tail)
    requires |argv| + |Params(items)| < MAXARGS && GoodFiles(Files(items))
    ensures ParseRest(argv, files, s) == Ok(Wrap(Exec(argv + all), files + more), rest) && Lex(rest) == tail
    ensures Texts(all) == Params(items) && SameFiles(more, Files(items))
    decreases |items|, 1
  {
    hide Lex, Token, ParseRest, Wrap, Texts, ItemToks, Params, Files, UnitEnds, GoodFiles, SameFiles;
    if items == [] {
      NothingMore();
      assert ItemToks(items) + tail == tail;
      RestEnds(argv, files, s);
      rest :| ParseRest(argv, files, s) == Ok(Wrap(Exec(argv), files), rest) && Lex(rest) == Lex(s);
      all, more := [], [];
      assert argv + all == argv && files + more == files;
      assert SameFiles([], []) by { NoFiles(); }
    } else if items[0].Param? {
      ItemsFirst(items);
      assert Lex(s) == [W(items[0].text)] + (ItemToks(items[1..]) + tail);
      LexFirst(s);
      RestWord(argv, files, s);
      var w := Token(s).0.w;
      all, more, rest := ItemsParse(argv + [w], files, Token(s).1, items[1..], tail);
      assert argv + [w] + all == argv + ([w] + all);
      TextsMore(w, all);
      all := [w] + all;
    } else {
      all, more, rest := FileParses(argv, files, s, items, tail);
    }
  }

  lemma {:induction false} FileParses(argv: seq<Word>, files: seq<(Word, bool)>, s: string, items: seq<Item>, tail: seq<Lexeme>)
    returns (all: seq<Word>, more: seq<(Word, bool)>, rest: string)
    requires items != [] && items[0].File? && Lex(s) == ItemToks(items) + tail && UnitEnds(tail)
    requires |argv| + |Params(items)| < MAXARGS && GoodFiles(Files(items))
    ensures ParseRest(argv, files, s) == Ok(Wrap(Exec(argv + all), files + more), rest) && Lex(rest) == tail
    ensures Texts(all) == Params(items) && SameFiles(more, Files(items))
    decreases |items|, 0
  {
    hide Lex, Token, ParseRest, Wrap, Texts, ItemToks, Params, Files, UnitEnds, GoodFiles, SameFiles, ParseRedirs;
    var r, fs := items[0].r, Files(items[1..]);
    ItemsFirst(items);
    assert Lex(s) == [r.op, W(r.file)] + (ItemToks(items[1..]) + tail);
    GoodFirst(r, fs);
    RedirStep(s);
    RestRedir(argv, files, s);
    var s1 := Token(s).1;
    var w := Token(s1).0.w;
    var one := [(w, r.op != S('<'))];
    all, more, rest := ItemsParse(argv, files + one, Token(s1).1, items[1..], tail);
    assert files + one + more == files + (one + more);
    SameFirst(w, r, more, fs);
    more := one + more;
  }

  lemma TextsMore(w: Word, ws: seq<Word>)
    ensures Texts([w] + ws) == [w.text] + Texts(ws)
  {
  }

  lemma ExecIsRest(s: string)
    requires Peek(s) != '('
    ensures ParseExec(s) == ParseRest([], [], s)
  {
    hide Peek, ParseRedirs, ParseArgs;
    if ParseRedirs(s).Some? { assert [] + ParseRedirs(s).files == ParseRedirs(s).files; }
  }

  lemma PlainStarts(items: seq<Item>, tail: seq<Lexeme>)
    requires UnitEnds(tail) && GoodFiles(Files(items))
    ensures var x := ItemToks(items) + tail; x == [] || x[0] != S('(')
  {
    if items == [] { assert ItemToks(items) + tail == tail; }
    else if items[0].File? { assert Files(items)[0] == items[0].r; }
  }

  lemma {:induction false} PlainParses(s: string, u: Unit, tail: seq<Lexeme>) returns (cmd: Cmd, rest: string)
    requires u.Plain? && GoodUnit(u) && Lex(s) == UnitToks(u) + tail && UnitEnds(tail)
    ensures ParseExec(s) == Ok(cmd, rest) && Text(cmd) == MeanUnit(u) && Lex(rest) == tail
  {
    hide Lex, Token, Peek, ParseRest, Wrap, Texts, Redirect, ParseExec;
    PlainStarts(u.items, tail);
    LexFirst(s);
    ExecIsRest(s);
    var all, more;
    all, more, rest := ItemsParse([], [], s, u.items, tail);
    assert [] + all == all && [] + more == more;
    cmd := Wrap(Exec(all), more);
    WrapMeans(Exec(all), more, Files(u.items));
  }

  lemma {:induction false} UnitParses(s: string, u: Unit, tail: seq<Lexeme>) returns (cmd: Cmd, rest: string)
    requires GoodUnit(u) && Lex(s) == UnitToks(u) + tail && UnitEnds(tail)
    ensures ParseExec(s) == Ok(cmd, rest) && Text(cmd) == MeanUnit(u) && Lex(rest) == tail
    decreases u
  {
    hide Lex, Token, Peek, SkipWs, ParseRedirs, ParseLine, Wrap, Redirect;
    match u
    case Plain(items) => cmd, rest := PlainParses(s, u, tail);
    case Block(body, fs) =>
      var after := [S(')')] + (RedirToks(fs) + tail);
      assert Lex(s) == [S('(')] + (LineToks(body) + after);
      LexFirst(s);
      LexSkip(s);
      var inner, s1 := LineParses(Token(s).1, body, after);
      LexFirst(s1);
      RedirsParse(Token(s1).1, fs, tail);
      var r := ParseRedirs(Token(s1).1);
      WrapMeans(inner, r.files, fs);
      cmd, rest := Wrap(inner, r.files), r.rest;
  }

  lemma {:induction false} ChainParses(s: string, c: Chain, tail: seq<Lexeme>) returns (cmd: Cmd, rest: string)
    requires GoodChain(c) && Lex(s) == ChainToks(c) + tail && ChainEnds(tail)
    ensures ParsePipe(s) == Ok(cmd, rest) && Text(cmd) == MeanChain(c) && Lex(rest) == tail
    decreases c
  {
    hide Lex, Token, Peek, SkipWs, ParseExec;
    match c
    case Last(u) =>
      cmd, rest := UnitParses(s, u, tail);
      LexFirst(rest);
      LexSkip(rest);
      rest := SkipWs(rest);
    case Piped(u, more) =>
      var after := [S('|')] + (ChainToks(more) + tail);
      assert Lex(s) == UnitToks(u) + after;
      var left, s1 := UnitParses(s, u, after);
      LexFirst(s1);
      var right;
      right, rest := ChainParses(Token(s1).1, more, tail);
      ShorterExec(s);
      cmd := Pipe(left, right);
  }

  lemma ShorterExec(s: string)
    ensures ParseExec(s).Ok? ==> |ParseExec(s).rest| <= |s|
  {
  }

  lemma {:induction false} AmpsParse(cmd: Cmd, s: string, n: nat, tail: seq<Lexeme>)
    requires Lex(s) == Amps(n) + tail && (tail == [] || tail[0] != S('&'))
    ensures Text(Backs(cmd, s).0) == Behind(Text(cmd), n) && Lex(Backs(cmd, s).1) == tail
    decreases n
  {
    hide Lex, Token, Peek, SkipWs;
    LexFirst(s);
    LexSkip(s);
    if n == 0 {
      assert Amps(n) + tail == tail;
    } else {
      assert Lex(s) == [S('&')] + (Amps(n - 1) + tail);
      AmpsParse(Back(cmd), Token(s).1, n - 1, tail);
    }
  }

  lemma AmpsEnd(n: nat, tail: seq<Lexeme>)
    requires StartsWith(tail, ");")
    ensures ChainEnds(Amps(n) + tail)
  {
  }

  lemma {:induction false} LineParses(s: string, l: Line, tail: seq<Lexeme>) returns (cmd: Cmd, rest: string)
    requires GoodLine(l) && Lex(s) == LineToks(l) + tail && LineEnds(tail)
    ensures ParseLine(s) == Ok(cmd, rest) && Text(cmd) == MeanLine(l) && Lex(rest) == tail
    decreases l
  {
    hide Lex, Token, Peek, ParsePipe, Backs;
    var more := if l.Sole? then tail else [S(';')] + (LineToks(l.rest) + tail);
    AmpsEnd(l.amps, more);
    assert Lex(s) == ChainToks(l.c) + (Amps(l.amps) + more);
    var first, s1 := ChainParses(s, l.c, Amps(l.amps) + more);
    AmpsParse(first, s1, l.amps, more);
    var b := Backs(first, s1);
    LexFirst(b.1);
    if l.Sole? {
      cmd, rest := b.0, b.1;
    } else {
      var right;
      right, rest := LineParses(Token(b.1).1, l.rest, tail);
      cmd := List(b.0, right);
    }
  }

  /** Any line of the grammar is accepted, and parses to what it means. */
  lemma ParsesTo(s: string, l: Line)
    requires GoodLine(l) && Lex(s) == LineToks(l)
    ensures ParseCmd(s).Ok? && Text(ParseCmd(s).cmd) == MeanLine(l)
  {
    hide ParseLine, Token, Peek;
    assert LineToks(l) + [] == LineToks(l);
    var cmd, rest := LineParses(s, l, []);
    LexSkip(rest);
    EndIsEmpty(rest);
  }

  lemma EndIsEmpty(s: string)
    ensures SkipWs(s) == "" <==> Lex(s) == []
  {
    NoSkip(SkipWs(s));
  }

  // Nothing else is accepted

  lemma {:induction false} RedirsAccepted(s: string) returns (fs: seq<Redirection>)
    requires ParseRedirs(s).Some?
    ensures Lex(s) == RedirToks(fs) + Lex(ParseRedirs(s).rest) && GoodFiles(fs) && SameFiles(ParseRedirs(s).files, fs)
    decreases |s|
  {
    hide Lex, Token, Peek, SkipWs, SameFiles, GoodFiles;
    LexFirst(s);
    if Peek(s) == '<' || Peek(s) == '>' {
      var s1 := Token(s).1;
      LexFirst(s1);
      var r := Redirection(Lex(s)[0], Token(s1).0.w.text);
      var more := RedirsAccepted(Token(s1).1);
      fs := [r] + more;
      assert fs[1..] == more;
      assert Lex(s) == [r.op] + ([W(r.file)] + Lex(Token(s1).1));
      SameFirst(Token(s1).0.w, r, ParseRedirs(Token(s1).1).files, more);
      GoodMore(r, more);
    } else {
      fs := [];
      LexSkip(s);
      NoFiles();
    }
  }

  function AsItems(fs: seq<Redirection>): seq<Item> { if fs == [] then [] else [File(fs[0])] + AsItems(fs[1..]) }

  lemma {:induction false} ItemsAfter(fs: seq<Redirection>, items: seq<Item>)
    ensures ItemToks(AsItems(fs) + items) == RedirToks(fs) + ItemToks(items)
    ensures Params(AsItems(fs) + items) == Params(items) && Files(AsItems(fs) + items) == fs + Files(items)
    decreases |fs|
  {
    hide ItemToks, Params, Files, AsItems, RedirToks;
    if fs == [] {
      NothingBefore(items);
      assert fs + Files(items) == Files(items);
    } else {
      var more := AsItems(fs[1..]) + items;
      ItemsAfter(fs[1..], items);
      FileBefore(fs, items);
      OneFile(fs[0], more);
      var a, b, c := [fs[0].op, W(fs[0].file)], RedirToks(fs[1..]), ItemToks(items);
      assert a + (b + c) == a + b + c;
      assert fs + Files(items) == [fs[0]] + (fs[1..] + Files(items));
    }
  }

  lemma NothingBefore(items: seq<Item>)
    ensures AsItems([]) + items == items && RedirToks([]) + ItemToks(items) == ItemToks(items)
  {
  }

  lemma FileBefore(fs: seq<Redirection>, items: seq<Item>)
    requires fs != []
    ensures AsItems(fs) + items == [File(fs[0])] + (AsItems(fs[1..]) + items)
    ensures RedirToks(fs) == [fs[0].op, W(fs[0].file)] + RedirToks(fs[1..])
  {
  }

  lemma OneFile(r: Redirection, items: seq<Item>)
    ensures ItemToks([File(r)] + items) == [r.op, W(r.file)] + ItemToks(items)
    ensures Params([File(r)] + items) == Params(items) && Files([File(r)] + items) == [r] + Files(items)
  {
    assert ([File(r)] + items)[1..] == items;
  }

  /** What parseexec has read, from a call of parseredirs on. */
  lemma {:induction false} RestAccepted(argv: seq<Word>, files: seq<(Word, bool)>, s: string)
    returns (items: seq<Item>, all: seq<Word>, more: seq<(Word, bool)>)
    requires ParseRest(argv, files, s).Ok? && |argv| < MAXARGS
    ensures var r := ParseRest(argv, files, s);
            && Lex(s) == ItemToks(items) + Lex(r.rest) && r.cmd == Wrap(Exec(argv + all), files + more)
            && Texts(all) == Params(items) && SameFiles(more, Files(items))
            && |argv| + |Params(items)| < MAXARGS && GoodFiles(Files(items))
    decreases |s|
  {
    hide Lex, Token, Peek, SkipWs, Wrap, Texts, ParseRedirs, ItemToks, Params, Files, RedirToks, SameFiles, GoodFiles, AsItems;
    var r := ParseRedirs(s);
    var fs := RedirsAccepted(s);
    var s2 := r.rest;
    LexFirst(s2);
    LexSkip(s2);
    if Peek(s2) == '|' || Peek(s2) == ')' || Peek(s2) == '&' || Peek(s2) == ';' || Token(s2).0.End? {
      items, all, more := AsItems(fs) + [], [], r.files;
      ItemsAfter(fs, []);
      NothingMore();
      assert argv + all == argv && fs + [] == fs;
      if Token(s2).0.End? { EndIsEmpty(s2); EndLex(s2); }
    } else {
      var w, s3 := Token(s2).0.w, Token(s2).1;
      ArgsAreRest(argv, files + r.files, s2);
      var items2, all2, more2 := RestAccepted(argv + [w], files + r.files, s3);
      items := AsItems(fs) + ([Param(w.text)] + items2);
      ItemsAfter(fs, [Param(w.text)] + items2);
      OneParam(w.text, items2);
      all, more := [w] + all2, r.files + more2;
      TextsMore(w, all2);
      assert argv + [w] + all2 == argv + all && files + r.files + more2 == files + more;
      FilesJoin(r.files, more2, fs, Files(items2));
      assert Lex(s2) == [W(w.text)] + Lex(s3);
    }
  }

  lemma FilesJoin(a: seq<(Word, bool)>, b: seq<(Word, bool)>, fs: seq<Redirection>, gs: seq<Redirection>)
    requires SameFiles(a, fs) && SameFiles(b, gs) && GoodFiles(fs) && GoodFiles(gs)
    ensures SameFiles(a + b, fs + gs) && GoodFiles(fs + gs)
  {
  }

  lemma OneParam(t: string, items: seq<Item>)
    ensures ItemToks([Param(t)] + items) == [W(t)] + ItemToks(items)
    ensures Params([Param(t)] + items) == [t] + Params(items) && Files([Param(t)] + items) == Files(items)
  {
    assert ([Param(t)] + items)[1..] == items;
  }

  /** A turn of parseexec's loop that goes on. */
  lemma ArgsAreRest(argv: seq<Word>, files: seq<(Word, bool)>, s: string)
    requires ParseArgs(argv, files, s).Ok? && !Token(s).0.End?
    requires !(Peek(s) == '|' || Peek(s) == ')' || Peek(s) == '&' || Peek(s) == ';')
    ensures Token(s).0.Arg? && |argv| + 1 < MAXARGS && |Token(s).1| < |s|
    ensures ParseArgs(argv, files, s) == ParseRest(argv + [Token(s).0.w], files, Token(s).1)
  {
    hide Peek, ParseRedirs, Token;
    LexFirst(s);
  }

  lemma {:induction false} UnitAccepted(s: string) returns (u: Unit)
    requires ParseExec(s).Ok?
    ensures GoodUnit(u) && Lex(s) == UnitToks(u) + Lex(ParseExec(s).rest) && Text(ParseExec(s).cmd) == MeanUnit(u)
    decreases |s|, 0
  {
    hide Lex, Token, Peek, SkipWs, Wrap, Texts, ParseRedirs, ItemToks, RedirToks, Redirect, ParseLine, ParseRest;
    LexFirst(s);
    if Peek(s) != '(' {
      ExecIsRest(s);
      hide ParseExec;
      var items, all, more := RestAccepted([], [], s);
      assert [] + all == all && [] + more == more;
      WrapMeans(Exec(all), more, Files(items));
      u := Plain(items);
    } else {
      LexSkip(s);
      var s1 := Token(s).1;
      var body := LineAccepted(s1);
      var p := ParseLine(s1);
      LexFirst(p.rest);
      var s2 := Token(p.rest).1;
      var fs := RedirsAccepted(s2);
      WrapMeans(p.cmd, ParseRedirs(s2).files, fs);
      u := Block(body, fs);
      assert Lex(s) == [S('(')] + (LineToks(body) + ([S(')')] + (RedirToks(fs) + Lex(ParseRedirs(s2).rest))));
    }
  }

  lemma {:induction false} ChainAccepted(s: string) returns (c: Chain)
    requires ParsePipe(s).Ok?
    ensures GoodChain(c) && Lex(s) == ChainToks(c) + Lex(ParsePipe(s).rest) && Text(ParsePipe(s).cmd) == MeanChain(c)
    decreases |s|, 1
  {
    hide Lex, Token, Peek, SkipWs, ParseExec, UnitToks;
    var u := UnitAccepted(s);
    var p := ParseExec(s);
    LexFirst(p.rest);
    LexSkip(p.rest);
    ShorterExec(s);
    if Peek(p.rest) == '|' {
      var more := ChainAccepted(Token(p.rest).1);
      c := Piped(u, more);
      assert Lex(p.rest) == [S('|')] + Lex(Token(p.rest).1);
    } else {
      c := Last(u);
    }
  }

  lemma {:induction false} BacksAccepted(cmd: Cmd, s: string) returns (n: nat)
    ensures Lex(s) == Amps(n) + Lex(Backs(cmd, s).1) && Text(Backs(cmd, s).0) == Behind(Text(cmd), n)
    decreases |s|
  {
    hide Lex, Token, Peek, SkipWs;
    LexFirst(s);
    LexSkip(s);
    if Peek(s) == '&' {
      n := BacksAccepted(Back(cmd), Token(s).1);
      assert Lex(s) == [S('&')] + Lex(Token(s).1);
      n := n + 1;
    } else {
      n := 0;
    }
  }

  lemma {:induction false} LineAccepted(s: string) returns (l: Line)
    requires ParseLine(s).Ok?
    ensures GoodLine(l) && Lex(s) == LineToks(l) + Lex(ParseLine(s).rest) && Text(ParseLine(s).cmd) == MeanLine(l)
    decreases |s|, 2
  {
    hide Lex, Token, Peek, ParsePipe, Backs, ChainToks;
    var c := ChainAccepted(s);
    var p := ParsePipe(s);
    var n := BacksAccepted(p.cmd, p.rest);
    var b := Backs(p.cmd, p.rest);
    LexFirst(b.1);
    ShorterPipe(s);
    if Peek(b.1) == ';' {
      var more := LineAccepted(Token(b.1).1);
      l := Then(c, n, more);
      assert Lex(b.1) == [S(';')] + Lex(Token(b.1).1);
    } else {
      l := Sole(c, n);
    }
  }

  lemma ShorterPipe(s: string)
    ensures ParsePipe(s).Ok? ==> |ParsePipe(s).rest| <= |s|
  {
  }

  /** The shell accepts exactly the lines of the grammar. */
  lemma ParsesExactly(s: string)
    ensures ParseCmd(s).Ok? <==> exists l :: GoodLine(l) && Lex(s) == LineToks(l)
  {
    hide ParseLine, Lex, LineToks, SkipWs;
    if ParseCmd(s).Ok? {
      var l := LineAccepted(s);
      EndIsEmpty(ParseLine(s).rest);
      assert LineToks(l) + [] == LineToks(l);
    }
    if l :| GoodLine(l) && Lex(s) == LineToks(l) { ParsesTo(s, l); }
  }

  // Typing a line

  predicate GoodWord(w: string) { w != "" && forall i :: 0 <= i < |w| ==> IsWordChar(w[i]) }

  predicate GoodLexeme(x: Lexeme) {
    match x
    case S(c) => IsSymbol(c)
    case More => true
    case W(t) => GoodWord(t)
  }

  function Spelled(x: Lexeme): string {
    match x
    case S(c) => [c]
    case More => ">>"
    case W(t) => t
  }

  /** Two tokens that need a space between them. */
  predicate Clash(x: Lexeme, y: Lexeme) { (x.W? && y.W?) || (x == S('>') && (y == S('>') || y == More)) }

  predicate Spaces(g: string) { forall i :: 0 <= i < |g| ==> IsSpace(g[i]) }

  /** White space before, between and after the tokens, as much as one likes. */
  predicate Spaced(toks: seq<Lexeme>, gaps: seq<string>) {
    && |gaps| == |toks| + 1 && (forall k :: 0 <= k < |gaps| ==> Spaces(gaps[k]))
    && (forall k :: 0 <= k < |toks| ==> GoodLexeme(toks[k]))
    && forall k :: 0 < k < |toks| && Clash(toks[k - 1], toks[k]) ==> gaps[k] != ""
  }

  function Typed(toks: seq<Lexeme>, gaps: seq<string>): string
    requires |gaps| == |toks| + 1
  {
    if toks == [] then gaps[0] else gaps[0] + (Spelled(toks[0]) + Typed(toks[1..], gaps[1..]))
  }

  lemma {:induction false} SkipGap(g: string, rest: string)
    requires Spaces(g)
    ensures SkipWs(g + rest) == SkipWs(rest)
  {
    if g == "" {
      assert g + rest == rest;
    } else {
      assert (g + rest)[1..] == g[1..] + rest;
      SkipGap(g[1..], rest);
    }
  }

  lemma {:induction false} WordLenIs(w: string, rest: string)
    requires GoodWord(w) && (rest == "" || IsSpace(rest[0]) || IsSymbol(rest[0]))
    ensures WordLen(w + rest) == |w|
  {
    if |w| == 1 {
      assert (w + rest)[1..] == rest;
    } else {
      assert (w + rest)[1..] == w[1..] + rest;
      WordLenIs(w[1..], rest);
    }
  }

  /** What may stand right behind a token. */
  predicate Follows(x: Lexeme, rest: string) {
    && (x.W? ==> rest == "" || IsSpace(rest[0]) || IsSymbol(rest[0]))
    && (x == S('>') ==> rest == "" || rest[0] != '>')
  }

  lemma SpelledToken(x: Lexeme, rest: string)
    requires GoodLexeme(x) && Follows(x, rest)
    ensures var s := Spelled(x) + rest;
            && s != "" && !IsSpace(s[0]) && !TokenHere(s).0.End? && LexemeOf(TokenHere(s).0) == x && TokenHere(s).1 == |Spelled(x)|
  {
    var s := Spelled(x) + rest;
    match x
    case S(c) => assert s[1..] == rest;
    case More => assert s[0] == '>' && s[1] == '>';
    case W(t) =>
      assert s[0] == t[0] && IsWordChar(t[0]);
      WordLenIs(t, rest);
      hide WordLen;
      assert s[..|t|] == t;
  }

  lemma TypedFollows(toks: seq<Lexeme>, gaps: seq<string>)
    requires toks != [] && Spaced(toks, gaps)
    ensures Follows(toks[0], Typed(toks[1..], gaps[1..]))
  {
    var t := Typed(toks[1..], gaps[1..]);
    if gaps[1] != "" {
      assert t[0] == gaps[1][0];
    } else if 1 < |toks| {
      assert !Clash(toks[0], toks[1]) && GoodLexeme(toks[1]);
      assert t[0] == Spelled(toks[1])[0];
    }
  }

  /** The tokens of a typed line, however it is spaced. */
  lemma {:induction false} LexTyped(toks: seq<Lexeme>, gaps: seq<string>)
    requires Spaced(toks, gaps)
    ensures Lex(Typed(toks, gaps)) == toks
    decreases |toks|
  {
    var s := Typed(toks, gaps);
    if toks == [] {
      SkipGap(gaps[0], "");
      assert gaps[0] + "" == gaps[0];
    } else {
      var tail := Typed(toks[1..], gaps[1..]);
      SkipGap(gaps[0], Spelled(toks[0]) + tail);
      TypedFollows(toks, gaps);
      SpelledToken(toks[0], tail);
      SpacedTail(toks, gaps);
      LexTyped(toks[1..], gaps[1..]);
      hide Typed, TokenHere, Spelled, Spaced;
      var t := Spelled(toks[0]) + tail;
      NoSkip(t);
      assert t[|Spelled(toks[0])|..] == tail;
      LexSkip(tail);
    }
  }

  lemma SpacedTail(toks: seq<Lexeme>, gaps: seq<string>)
    requires toks != [] && Spaced(toks, gaps)
    ensures Spaced(toks[1..], gaps[1..])
  {
    var ts, gs := toks[1..], gaps[1..];
    forall k | 0 < k < |ts| && Clash(ts[k - 1], ts[k]) ensures gs[k] != "" { assert Clash(toks[k], toks[k + 1]); }
  }

  /** A line of the grammar, typed with any spacing, parses to what it means. */
  lemma TypedParses(l: Line, gaps: seq<string>)
    requires GoodLine(l) && Spaced(LineToks(l), gaps)
    ensures ParseCmd(Typed(LineToks(l), gaps)).Ok? && Text(ParseCmd(Typed(LineToks(l), gaps)).cmd) == MeanLine(l)
  {
    assert |gaps| == |LineToks(l)| + 1;
    hide ParseCmd, Lex, LineToks, Spaced;
    LexTyped(LineToks(l), gaps);
    ParsesTo(Typed(LineToks(l), gaps), l);
  }

  // A line for every command: parentheses only around what is not a plain command

  /** At most 9 words per command, none with a space or symbol. */
  predicate Good(t: Tree) {
    match t
    case TExec(args) => |args| < MAXARGS && forall i :: 0 <= i < |args| ==> GoodWord(args[i])
    case TRedir(sub, file, _) => Good(sub) && GoodWord(file)
    case TPipe(left, right) => Good(left) && Good(right)
    case TList(left, right) => Good(left) && Good(right)
    case TBack(sub) => Good(sub)
  }

  predicate IsPlain(t: Tree) { t.TExec? || (t.TRedir? && IsPlain(t.sub)) }

  function Typing(file: string, out: bool): Redirection { Redirection(if out then S('>') else S('<'), file) }

  function AsParams(args: seq<string>): (r: seq<Item>)
    ensures |r| == |args| && forall i :: 0 <= i < |args| ==> r[i] == Param(args[i])
  {
    seq(|args|, i requires 0 <= i < |args| => Param(args[i]))
  }

  function ItemsOf(t: Tree): seq<Item>
    requires IsPlain(t)
  {
    if t.TExec? then AsParams(t.args) else ItemsOf(t.sub) + [File(Typing(t.file, t.out))]
  }

  function UnitOf(t: Tree): Unit
    decreases t, if t.TRedir? then 0 else 2
  {
    if IsPlain(t) then Plain(ItemsOf(t))
    else if t.TRedir? then Block(LineOf(t.sub), [Typing(t.file, t.out)])
    else Block(LineOf(t), [])
  }

  function LineOf(t: Tree): Line
    decreases t, 1
  {
    match t
    case TExec(args) => Sole(Last(Plain(AsParams(args))), 0)
    case TRedir(sub, file, out) => Sole(Last(UnitOf(t)), 0)
    case TPipe(left, right) => Sole(Piped(UnitOf(left), Last(UnitOf(right))), 0)
    case TList(left, right) => Then(Last(UnitOf(left)), 0, Sole(Last(UnitOf(right)), 0))
    case TBack(sub) => Sole(Last(UnitOf(sub)), 1)
  }

  lemma {:induction false} ItemsMore(items: seq<Item>, x: Item)
    requires x.File?
    ensures Params(items + [x]) == Params(items) && Files(items + [x]) == Files(items) + [x.r]
  {
    if items == [] {
      assert items + [x] == [x] && [x][1..] == [];
    } else {
      assert (items + [x])[1..] == items[1..] + [x];
      ItemsMore(items[1..], x);
    }
  }

  lemma {:induction false} ParamsBack(args: seq<string>)
    ensures Params(AsParams(args)) == args && Files(AsParams(args)) == []
    decreases |args|
  {
    if args != [] {
      assert AsParams(args)[1..] == AsParams(args[1..]);
      ParamsBack(args[1..]);
    }
  }

  lemma RedirectMore(t: Tree, fs: seq<Redirection>, r: Redirection)
    ensures Redirect(t, fs + [r]) == TRedir(Redirect(t, fs), r.file, r.op != S('<'))
    ensures GoodFiles(fs) && IsRedir(r.op) ==> GoodFiles(fs + [r])
  {
    assert (fs + [r])[..|fs|] == fs;
  }

  lemma {:induction false} ItemsBack(t: Tree)
    requires IsPlain(t) && Good(t)
    ensures Redirect(TExec(Params(ItemsOf(t))), Files(ItemsOf(t))) == t
    ensures |Params(ItemsOf(t))| < MAXARGS && GoodFiles(Files(ItemsOf(t)))
  {
    hide Params, Files;
    if t.TExec? {
      ParamsBack(t.args);
    } else {
      ItemsBack(t.sub);
      var x := File(Typing(t.file, t.out));
      ItemsMore(ItemsOf(t.sub), x);
      RedirectMore(TExec(Params(ItemsOf(t))), Files(ItemsOf(t.sub)), x.r);
    }
  }

  lemma {:induction false} UnitBack(t: Tree)
    requires Good(t)
    ensures GoodUnit(UnitOf(t)) && MeanUnit(UnitOf(t)) == t
    decreases t, if t.TRedir? then 0 else 2
  {
    if IsPlain(t) {
      ItemsBack(t);
    } else if t.TRedir? {
      LineBack(t.sub);
      RedirectMore(t.sub, [], Typing(t.file, t.out));
      assert [] + [Typing(t.file, t.out)] == [Typing(t.file, t.out)];
    } else {
      LineBack(t);
    }
  }

  lemma ExecBack(args: seq<string>)
    requires |args| < MAXARGS
    ensures GoodUnit(Plain(AsParams(args))) && MeanUnit(Plain(AsParams(args))) == TExec(args)
  {
    ParamsBack(args);
  }

  lemma {:induction false} LineBack(t: Tree)
    requires Good(t)
    ensures GoodLine(LineOf(t)) && MeanLine(LineOf(t)) == t
    decreases t, 1
  {
    hide IsPlain, GoodWord, ItemsOf, MeanUnit, GoodUnit, UnitOf;
    match t
    case TExec(args) => ExecBack(args);
    case TRedir(sub, file, out) => UnitBack(t);
    case TPipe(left, right) =>
      UnitBack(left);
      UnitBack(right);
      var last := Last(UnitOf(right));
      assert GoodChain(last) && MeanChain(last) == right;
    case TList(left, right) =>
      UnitBack(left);
      UnitBack(right);
      var last := Sole(Last(UnitOf(right)), 0);
      assert GoodLine(last) && MeanLine(last) == right;
    case TBack(sub) => UnitBack(sub);
  }

  /** The round trip: every command can be typed, with any spacing, and is what the shell then parses. */
  lemma RoundTrip(t: Tree, gaps: seq<string>)
    requires Good(t) && Spaced(LineToks(LineOf(t)), gaps)
    ensures ParseCmd(Typed(LineToks(LineOf(t)), gaps)).Ok? && Text(ParseCmd(Typed(LineToks(LineOf(t)), gaps)).cmd) == t
  {
    assert |gaps| == |LineToks(LineOf(t))| + 1;
    hide ParseCmd, LineToks, Spaced, Good, LineOf;
    LineBack(t);
    TypedParses(LineOf(t), gaps);
  }

  // Lines as people type them

  ghost predicate ParsesAs(s: string, t: Tree) { ParseCmd(s).Ok? && Text(ParseCmd(s).cmd) == t }

  /** A word by itself, as a unit, a chain and a line. */
  lemma OneWord(a: string)
    ensures var u := Plain([Param(a)]);
            && UnitToks(u) == [W(a)] && MeanUnit(u) == TExec([a]) && GoodUnit(u)
            && ChainToks(Last(u)) == [W(a)] && MeanChain(Last(u)) == TExec([a]) && GoodChain(Last(u))
            && LineToks(Sole(Last(u), 0)) == [W(a)] && MeanLine(Sole(Last(u), 0)) == TExec([a]) && GoodLine(Sole(Last(u), 0))
  {
    var none: seq<Item> := [];
    assert [Param(a)] + none == [Param(a)];
    OneParam(a, none);
    NothingMore();
    var u := Plain([Param(a)]);
    hide ItemToks, Params, Files;
    assert UnitToks(u) == [W(a)] && MeanUnit(u) == TExec([a]) && GoodUnit(u);
    hide UnitToks, MeanUnit, GoodUnit;
    assert ChainToks(Last(u)) == [W(a)] && MeanChain(Last(u)) == TExec([a]) && GoodChain(Last(u));
  }

  /** a | b */
  lemma PipeLine(a: string, b: string)
    requires GoodWord(a) && GoodWord(b)
    ensures ParsesAs(a + " | " + b, TPipe(TExec([a]), TExec([b])))
  {
    OneWord(a);
    OneWord(b);
    hide ParseCmd, GoodWord, UnitToks, MeanUnit, GoodUnit, Typed;
    var u, last := Plain([Param(a)]), Last(Plain([Param(b)]));
    var c := Piped(u, last);
    assert ChainToks(c) == [W(a), S('|'), W(b)] && MeanChain(c) == TPipe(TExec([a]), TExec([b])) && GoodChain(c);
    hide ChainToks, MeanChain, GoodChain;
    var l, gaps := Sole(c, 0), ["", " ", " ", ""];
    assert LineToks(l) == [W(a), S('|'), W(b)];
    TypedParses(l, gaps);
    TypedThree(W(a), S('|'), W(b), gaps);
    assert "" + (a + (" " + ("|" + (" " + (b + ""))))) == a + " | " + b;
  }

  lemma TypedThree(x: Lexeme, y: Lexeme, z: Lexeme, g: seq<string>)
    requires |g| == 4
    ensures Typed([x, y, z], g) == g[0] + (Spelled(x) + (g[1] + (Spelled(y) + (g[2] + (Spelled(z) + g[3])))))
  {
    assert Typed([z], g[2..]) == g[2] + (Spelled(z) + g[3]);
    assert Typed([y, z], g[1..]) == g[1] + (Spelled(y) + Typed([z], g[2..])) by {
      assert [y, z][1..] == [z] && g[1..][1..] == g[2..];
    }
    assert [x, y, z][1..] == [y, z];
  }

  /** a ; b */
  lemma ListLine(a: string, b: string)
    requires GoodWord(a) && GoodWord(b)
    ensures ParsesAs(a + " ; " + b, TList(TExec([a]), TExec([b])))
  {
    OneWord(a);
    OneWord(b);
    hide ParseCmd, GoodWord, UnitToks, MeanUnit, GoodUnit, ChainToks, MeanChain, GoodChain, Typed;
    var last := Sole(Last(Plain([Param(b)])), 0);
    var l, gaps := Then(Last(Plain([Param(a)])), 0, last), ["", " ", " ", ""];
    assert LineToks(l) == [W(a), S(';'), W(b)] && MeanLine(l) == TList(TExec([a]), TExec([b])) && GoodLine(l);
    TypedParses(l, gaps);
    TypedThree(W(a), S(';'), W(b), gaps);
    assert "" + (a + (" " + (";" + (" " + (b + ""))))) == a + " ; " + b;
  }

  lemma RedirUnit(a: string, r: Redirection)
    requires IsRedir(r.op)
    ensures var u := Plain([Param(a)] + [File(r)]);
            UnitToks(u) == [W(a), r.op, W(r.file)] && MeanUnit(u) == TRedir(TExec([a]), r.file, r.op != S('<')) && GoodUnit(u)
  {
    var none: seq<Item>, before: seq<Redirection> := [], [];
    OneFile(r, none);
    assert [File(r)] + none == [File(r)];
    OneParam(a, [File(r)]);
    NothingMore();
    hide ItemToks, Params, Files;
    assert Params([Param(a)] + [File(r)]) == [a] && Files([Param(a)] + [File(r)]) == [r] == before + [r];
    RedirectMore(TExec([a]), before, r);
    assert Redirect(TExec([a]), before) == TExec([a]);
  }

  /** a < f, a > f and a >> f */
  lemma RedirLine(a: string, op: Lexeme, f: string)
    requires GoodWord(a) && GoodWord(f) && IsRedir(op)
    ensures ParsesAs(a + " " + Spelled(op) + " " + f, TRedir(TExec([a]), f, op != S('<')))
  {
    hide ParseCmd, GoodWord, UnitToks, MeanUnit, GoodUnit, Typed;
    RedirUnit(a, Redirection(op, f));
    var c := Last(Plain([Param(a)] + [File(Redirection(op, f))]));
    var l, gaps := Sole(c, 0), ["", " ", " ", ""];
    assert ChainToks(c) == [W(a), op, W(f)] && MeanChain(c) == TRedir(TExec([a]), f, op != S('<')) && GoodChain(c);
    assert LineToks(l) == [W(a), op, W(f)] && MeanLine(l) == TRedir(TExec([a]), f, op != S('<')) && GoodLine(l);
    TypedParses(l, gaps);
    TypedThree(W(a), op, W(f), gaps);
    assert "" + (a + (" " + (Spelled(op) + (" " + (f + ""))))) == a + " " + Spelled(op) + " " + f;
  }

  // The loops of gettoken and parseexec

  lemma SkipStep(s: string, i: nat)
    requires i < |s| && IsSpace(s[i])
    ensures SkipWs(s[i..]) == SkipWs(s[i + 1..])
  {
    assert s[i..][1..] == s[i + 1..];
  }

  /** Moves past white space. */
  method SkipSpaces(s: string, i: nat) returns (j: nat)
    requires i <= |s|
    ensures i <= j <= |s| && s[j..] == SkipWs(s[i..])
  {
    j := i;
    while j < |s| && IsSpace(s[j])
      invariant i <= j <= |s| && SkipWs(s[j..]) == SkipWs(s[i..])
    {
      SkipStep(s, j);
      j := j + 1;
    }
    NoSkip(s[j..]);
  }

  lemma {:induction false} WordLenReached(s: string, n: nat)
    requires n <= |s| && (forall i :: 0 <= i < n ==> !IsSpace(s[i]) && !IsSymbol(s[i]))
    requires n < |s| ==> IsSpace(s[n]) || IsSymbol(s[n])
    ensures WordLen(s) == n
  {
  }

  /** The switch of gettoken, at a character that is not a space. */
  method TokenAt(s: string, q: nat) returns (tok: Tok, eq: nat)
    requires q <= |s|
    ensures q <= eq <= |s| && (tok, eq - q) == TokenHere(s[q..])
  {
    hide WordLen;
    ghost var t := s[q..];
    assert |t| == |s| - q && forall k :: 0 <= k < |t| ==> t[k] == s[q + k];
    if q == |s| { return End, q; }
    if s[q] == '>' {
      if q + 1 < |s| && s[q + 1] == '>' { return Append, q + 2; }
      return Sym('>'), q + 1;
    }
    if IsSymbol(s[q]) { return Sym(s[q]), q + 1; }
    eq := q;
    while eq < |s| && !IsSpace(s[eq]) && !IsSymbol(s[eq])
      invariant q <= eq <= |s| && forall k :: 0 <= k < eq - q ==> !IsSpace(t[k]) && !IsSymbol(t[k])
    {
      assert t[eq - q] == s[eq];
      eq := eq + 1;
    }
    assert eq < |s| ==> t[eq - q] == s[eq];
    WordLenReached(t, eq - q);
    tok := Arg(Word(s[q..eq], |s| - eq));
    assert t[..eq - q] == s[q..eq];
  }

  /** gettoken: the token at i, and where the cursor is after it. */
  method Gettoken(s: string, i: nat) returns (tok: Tok, j: nat)
    requires i <= |s|
    ensures i <= j <= |s| && (tok, s[j..]) == Token(s[i..])
  {
    hide SkipWs, TokenHere;
    var q := SkipSpaces(s, i);
    var eq;
    tok, eq := TokenAt(s, q);
    assert s[q..][eq - q..] == s[eq..];
    j := SkipSpaces(s, eq);
  }

  /** The loop of parseexec, which collects words and redirections. */
  method ArgLoop(files0: seq<(Word, bool)>, s0: string) returns (r: Parsed)
    ensures r == ParseArgs([], files0, s0)
  {
    hide Token, ParseRedirs, Peek;
    var argv: seq<Word>, files, s := [], files0, s0;
    while !(Peek(s) == '|' || Peek(s) == ')' || Peek(s) == '&' || Peek(s) == ';')
      invariant ParseArgs(argv, files, s) == ParseArgs([], files0, s0)
      decreases |s|
    {
      var (tok, s1) := Token(s);
      if tok.End? { return Ok(Wrap(Exec(argv), files), s1); }
      if !tok.Arg? { return Panic; }
      if |argv| + 1 >= MAXARGS { return Panic; }
      var more := ParseRedirs(s1);
      if more.Bad? { return Panic; }
      argv, files, s := argv + [tok.w], files + more.files, more.rest;
    }
    return Ok(Wrap(Exec(argv), files), SkipWs(s));
  }

  // Where the words are

  /** s is what is left of the line at some cursor. */
  ghost predicate Suffix(line: string, s: string) {
    |s| <= |line| && s == line[|line| - |s|..]
  }

  predicate NotInWord(c: char) { IsSpace(c) || IsSymbol(c) }

  /** The word stands in the line where it says, and the character behind it is not a word's. */
  ghost predicate WordOk(line: string, w: Word) {
    && w.left <= |line| && |w.text| <= |line| - w.left
    && line[|line| - w.left - |w.text|..|line| - w.left] == w.text
    && (forall i :: 0 <= i < |w.text| ==> !NotInWord(w.text[i]))
    && (0 < w.left ==> NotInWord(line[|line| - w.left]))
  }

  function Words(cmd: Cmd): set<Word> {
    match cmd
    case Exec(argv) => set w | w in argv
    case Redir(sub, file, _) => Words(sub) + {file}
    case Pipe(left, right) => Words(left) + Words(right)
    case List(left, right) => Words(left) + Words(right)
    case Back(sub) => Words(sub)
  }

  ghost predicate CmdOk(line: string, cmd: Cmd) { forall w :: w in Words(cmd) ==> WordOk(line, w) }

  ghost predicate FilesOk(line: string, files: seq<(Word, bool)>) {
    forall i :: 0 <= i < |files| ==> WordOk(line, files[i].0)
  }

  lemma DropSuffix(line: string, s: string, n: nat)
    requires Suffix(line, s) && n <= |s|
    ensures Suffix(line, s[n..])
  {
  }

  lemma {:induction false} SkipSuffix(line: string, s: string)
    requires Suffix(line, s)
    ensures Suffix(line, SkipWs(s))
  {
    if s != "" && IsSpace(s[0]) {
      DropSuffix(line, s, 1);
      SkipSuffix(line, s[1..]);
    }
  }

  lemma TokenOk(line: string, s: string)
    requires Suffix(line, s)
    ensures Suffix(line, Token(s).1) && (Token(s).0.Arg? ==> WordOk(line, Token(s).0.w))
  {
    var t := SkipWs(s);
    SkipSuffix(line, s);
    var (tok, n) := TokenHere(t);
    DropSuffix(line, t, n);
    SkipSuffix(line, t[n..]);
    if tok.Arg? { ArgOk(line, t); }
  }

  lemma ArgOk(line: string, t: string)
    requires Suffix(line, t) && TokenHere(t).0.Arg?
    ensures WordOk(line, TokenHere(t).0.w)
  {
    var n := WordLen(t);
    assert t[..n] == line[|line| - |t|..|line| - |t| + n];
  }

  lemma {:induction false} RedirsOk(line: string, s: string)
    requires Suffix(line, s) && ParseRedirs(s).Some?
    ensures FilesOk(line, ParseRedirs(s).files) && Suffix(line, ParseRedirs(s).rest)
    decreases |s|
  {
    hide Token, Peek, Suffix, WordOk, SkipWs;
    TokenOk(line, s);
    TokenOk(line, Token(s).1);
    SkipSuffix(line, s);
    if Peek(s) == '<' || Peek(s) == '>' {
      var s2 := Token(Token(s).1).1;
      RedirsOk(line, s2);
    }
  }

  lemma {:induction false} WrapOk(line: string, cmd: Cmd, files: seq<(Word, bool)>)
    requires CmdOk(line, cmd) && FilesOk(line, files)
    ensures CmdOk(line, Wrap(cmd, files))
    decreases |files|
  {
    if files != [] { WrapOk(line, Redir(cmd, files[0].0, files[0].1), files[1..]); }
  }

  lemma {:induction false} ArgsOk(line: string, argv: seq<Word>, files: seq<(Word, bool)>, s: string)
    requires Suffix(line, s) && (forall w :: w in argv ==> WordOk(line, w)) && FilesOk(line, files)
    requires ParseArgs(argv, files, s).Ok?
    ensures CmdOk(line, ParseArgs(argv, files, s).cmd) && Suffix(line, ParseArgs(argv, files, s).rest)
    decreases |s|
  {
    hide Token, Peek, Suffix, WordOk, SkipWs, Wrap;
    TokenOk(line, s);
    SkipSuffix(line, s);
    WrapOk(line, Exec(argv), files);
    if !(Peek(s) == '|' || Peek(s) == ')' || Peek(s) == '&' || Peek(s) == ';') && !Token(s).0.End? {
      var (tok, s1) := Token(s);
      RedirsOk(line, s1);
      var more := ParseRedirs(s1);
      hide ParseRedirs;
      ArgsOk(line, argv + [tok.w], files + more.files, more.rest);
    }
  }

  lemma {:induction false} ExecOk(line: string, s: string)
    requires Suffix(line, s) && ParseExec(s).Ok?
    ensures CmdOk(line, ParseExec(s).cmd) && Suffix(line, ParseExec(s).rest)
    decreases |s|, 1
  {
    hide Token, Peek, Suffix, WordOk, SkipWs, ParseArgs, ParseRedirs, ParseBlock;
    if Peek(s) == '(' {
      SkipSuffix(line, s);
      BlockOk(line, SkipWs(s));
    } else {
      RedirsOk(line, s);
      ArgsOk(line, [], ParseRedirs(s).files, ParseRedirs(s).rest);
    }
  }

  lemma {:induction false} BlockOk(line: string, s: string)
    requires Suffix(line, s) && ParseBlock(s).Ok?
    ensures CmdOk(line, ParseBlock(s).cmd) && Suffix(line, ParseBlock(s).rest)
    decreases |s|, 0
  {
    hide Token, Peek, Suffix, WordOk, SkipWs, ParseRedirs, ParseLine, Wrap;
    TokenOk(line, s);
    LineOk(line, Token(s).1);
    var p := ParseLine(Token(s).1);
    TokenOk(line, p.rest);
    var r := ParseRedirs(Token(p.rest).1);
    RedirsOk(line, Token(p.rest).1);
    WrapOk(line, p.cmd, r.files);
  }

  lemma {:induction false} PipeOk(line: string, s: string)
    requires Suffix(line, s) && ParsePipe(s).Ok?
    ensures CmdOk(line, ParsePipe(s).cmd) && Suffix(line, ParsePipe(s).rest)
    decreases |s|, 2
  {
    hide Token, Peek, Suffix, WordOk, SkipWs, ParseExec;
    ExecOk(line, s);
    var p := ParseExec(s);
    TokenOk(line, p.rest);
    SkipSuffix(line, p.rest);
    if Peek(p.rest) == '|' { PipeOk(line, Token(p.rest).1); }
  }

  lemma {:induction false} BacksOk(line: string, cmd: Cmd, s: string)
    requires Suffix(line, s) && CmdOk(line, cmd)
    ensures CmdOk(line, Backs(cmd, s).0) && Suffix(line, Backs(cmd, s).1)
    decreases |s|
  {
    hide Token, Peek, Suffix, WordOk, SkipWs;
    TokenOk(line, s);
    SkipSuffix(line, s);
    if Peek(s) == '&' { BacksOk(line, Back(cmd), Token(s).1); }
  }

  lemma {:induction false} LineOk(line: string, s: string)
    requires Suffix(line, s) && ParseLine(s).Ok?
    ensures CmdOk(line, ParseLine(s).cmd) && Suffix(line, ParseLine(s).rest)
    decreases |s|, 3
  {
    hide Token, Peek, Suffix, WordOk, SkipWs, ParsePipe, Backs;
    PipeOk(line, s);
    var p := ParsePipe(s);
    BacksOk(line, p.cmd, p.rest);
    var b := Backs(p.cmd, p.rest);
    TokenOk(line, b.1);
    if Peek(b.1) == ';' { LineOk(line, Token(b.1).1); }
  }

  // nulterminate

  /** The positions nulterminate writes to, in a line of n characters. */
  ghost predicate IsEnd(cmd: Cmd, n: nat, i: nat) {
    exists w :: w in Words(cmd) && w.left <= n && i == n - w.left
  }

  /** nulterminate: a NUL behind every word, and nothing else changes. */
  method Nulterminate(buf: array<char>, cmd: Cmd)
    requires 0 < buf.Length && forall w :: w in Words(cmd) ==> w.left < buf.Length
    modifies buf
    ensures forall i :: 0 <= i < buf.Length ==> buf[i] == if IsEnd(cmd, buf.Length - 1, i) then NUL else old(buf[i])
    decreases cmd
  {
    match cmd
    case Exec(argv) => NulArgs(buf, argv);
    case Redir(sub, file, _) =>
      Nulterminate(buf, sub);
      assert file in Words(cmd);
      buf[buf.Length - 1 - file.left] := NUL;
      EndsOfRedir(cmd, buf.Length - 1);
    case Pipe(left, right) =>
      Nulterminate(buf, left);
      Nulterminate(buf, right);
      EndsOfBoth(cmd, left, right, buf.Length - 1);
    case List(left, right) =>
      Nulterminate(buf, left);
      Nulterminate(buf, right);
      EndsOfBoth(cmd, left, right, buf.Length - 1);
    case Back(sub) =>
      Nulterminate(buf, sub);
      assert Words(cmd) == Words(sub);
  }

  lemma EndsOfRedir(cmd: Cmd, n: nat)
    requires cmd.Redir? && cmd.file.left <= n
    ensures forall i: nat :: IsEnd(cmd, n, i) <==> IsEnd(cmd.sub, n, i) || i == n - cmd.file.left
  {
  }

  lemma EndsOfBoth(cmd: Cmd, left: Cmd, right: Cmd, n: nat)
    requires Words(cmd) == Words(left) + Words(right)
    ensures forall i: nat :: IsEnd(cmd, n, i) <==> IsEnd(left, n, i) || IsEnd(right, n, i)
  {
    hide IsEnd, Words;
    forall i: nat ensures IsEnd(cmd, n, i) <==> IsEnd(left, n, i) || IsEnd(right, n, i) {
      EndOfEither(cmd, left, right, n, i);
    }
  }

  lemma EndOfEither(cmd: Cmd, left: Cmd, right: Cmd, n: nat, i: nat)
    requires Words(cmd) == Words(left) + Words(right)
    ensures IsEnd(cmd, n, i) <==> IsEnd(left, n, i) || IsEnd(right, n, i)
  {
    hide Words;
  }

  /** The loop of nulterminate over the words of one command. */
  method NulArgs(buf: array<char>, argv: seq<Word>)
    requires 0 < buf.Length && forall w :: w in argv ==> w.left < buf.Length
    modifies buf
    ensures forall i :: 0 <= i < buf.Length ==> buf[i] == if IsEnd(Exec(argv), buf.Length - 1, i) then NUL else old(buf[i])
  {
    var k := 0;
    while k < |argv|
      invariant 0 <= k <= |argv|
      invariant forall i :: 0 <= i < buf.Length ==>
                  buf[i] == if EndAmong(argv[..k], buf.Length - 1, i) then NUL else old(buf[i])
    {
      assert argv[k] in argv;
      buf[buf.Length - 1 - argv[k].left] := NUL;
      EndsMore(argv, k, buf.Length - 1);
      k := k + 1;
    }
    assert argv[..k] == argv;
  }

  ghost predicate EndAmong(ws: seq<Word>, n: nat, i: nat) {
    exists w :: w in ws && w.left <= n && i == n - w.left
  }

  lemma EndsMore(argv: seq<Word>, k: nat, n: nat)
    requires k < |argv| && argv[k].left <= n
    ensures forall i: nat :: EndAmong(argv[..k + 1], n, i) <==> EndAmong(argv[..k], n, i) || i == n - argv[k].left
  {
    assert argv[..k + 1] == argv[..k] + [argv[k]];
  }

  /** The C string that starts at q. */
  function CStringAt(b: seq<char>, q: nat): string
    decreases |b| - q
  {
    if q >= |b| || b[q] == NUL then "" else [b[q]] + CStringAt(b, q + 1)
  }

  lemma {:induction false} ReadsTo(b: seq<char>, q: nat, e: nat)
    requires q <= e < |b| && b[e] == NUL && forall i :: q <= i < e ==> b[i] != NUL
    ensures CStringAt(b, q) == b[q..e]
    decreases e - q
  {
    if q < e {
      ReadsTo(b, q + 1, e);
      assert b[q..e] == [b[q]] + b[q + 1..e];
    }
  }

  lemma ParsedOk(line: string)
    requires ParseCmd(line).Ok?
    ensures CmdOk(line, ParseCmd(line).cmd)
  {
    assert line[0..] == line;
    LineOk(line, line);
    hide ParseLine;
  }

  /** After nulterminate on any accepted line, every word and file name reads as the token gettoken delimited. */
  lemma WordsReadBack(line: string, b: seq<char>, w: Word)
    requires CString(line) && ParseCmd(line).Ok? && w in Words(ParseCmd(line).cmd) && |b| == |line| + 1
    requires forall i :: 0 <= i <= |line| ==>
               b[i] == if i == |line| || IsEnd(ParseCmd(line).cmd, |line|, i) then NUL else line[i]
    ensures w.left <= |line| && |w.text| <= |line| - w.left
    ensures CStringAt(b, |line| - w.left - |w.text|) == w.text
  {
    hide ParseCmd, Words, CStringAt;
    ParsedOk(line);
    NulledReads(line, b, ParseCmd(line).cmd, w);
  }

  lemma NulledReads(line: string, b: seq<char>, cmd: Cmd, w: Word)
    requires CString(line) && CmdOk(line, cmd) && w in Words(cmd) && |b| == |line| + 1
    requires forall i :: 0 <= i <= |line| ==> b[i] == if i == |line| || IsEnd(cmd, |line|, i) then NUL else line[i]
    ensures w.left <= |line| && |w.text| <= |line| - w.left
    ensures CStringAt(b, |line| - w.left - |w.text|) == w.text
  {
    hide Words, CStringAt, IsEnd, CString;
    assert WordOk(line, w);
    hide CmdOk;
    var q, e := |line| - w.left - |w.text|, |line| - w.left;
    EndIs(cmd, |line|, w);
    forall i | q <= i < e ensures b[i] == line[i] && b[i] != NUL { Kept(line, cmd, w, i); }
    ReadsTo(b, q, e);
    assert b[q..e] == line[q..e];
  }

  lemma EndIs(cmd: Cmd, n: nat, w: Word)
    requires w in Words(cmd) && w.left <= n
    ensures IsEnd(cmd, n, n - w.left)
  {
  }

  /** A character of a word is not overwritten. */
  lemma Kept(line: string, cmd: Cmd, w: Word, i: nat)
    requires CString(line) && CmdOk(line, cmd) && WordOk(line, w) && |line| - w.left - |w.text| <= i < |line| - w.left
    ensures line[i] != NUL && !IsEnd(cmd, |line|, i)
  {
    hide IsEnd, CmdOk, Words;
    var q := |line| - w.left - |w.text|;
    assert line[i] == line[q..|line| - w.left][i - q] == w.text[i - q];
    NoEndInside(line, cmd, i);
  }

  lemma NoEndInside(line: string, cmd: Cmd, i: nat)
    requires CmdOk(line, cmd) && i < |line| && !NotInWord(line[i])
    ensures !IsEnd(cmd, |line|, i)
  {
    forall w | w in Words(cmd) && w.left <= |line| ensures i != |line| - w.left { assert WordOk(line, w); }
  }
}
