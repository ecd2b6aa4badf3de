/** sshd/shell_escape.go and cmd/exec.go: quoting an argument vector so that the
    remote shell reads back the same words. */
module ShellWords {
  import opened Basics

  // ----- The shell's reading ----------------------------------------------

  /** Characters that, unquoted, do not simply stand for themselves in a word
      (section 2.2 of POSIX Shell Command Language; = and % only matter in
      assignments and job control, which are not word-level). */
  predicate IsSpecial(c: char) {
    || c == '|' || c == '&' || c == ';' || c == '<' || c == '>' || c == '(' || c == ')' || c == '$'
    || c == '`' || c == '\"' || c == '*' || c == '?' || c == '[' || c == '#' || c == '~' || c == '\n'
  }

  predicate IsBlank(c: char) { c == ' ' || c == '\t' }

  /** Between words, inside a word, inside single quotes (2.2.2), or after an
      unquoted backslash (2.2.1); word is what the current word denotes so far. */
  datatype Lexer =
    | Between
    | Word(word: string)
    | Quoted(word: string)
    | Escaped(word: string, inWord: bool)

  datatype Lexed = Lexed(lexer: Lexer, words: seq<string>)

  /** None: the input is not a plain list of words. */
  function LexChar(l: Lexed, c: char): Option<Lexed> {
    match l.lexer
    case Quoted(w) => Some(l.(lexer := if c == '\'' then Word(w) else Quoted(w + [c])))
    case Escaped(w, inWord) =>
      if c == '\n' then Some(l.(lexer := if inWord then Word(w) else Between))   // line continuation
      else Some(l.(lexer := Word(w + [c])))
    case _ =>
      var w := if l.lexer.Word? then l.lexer.word else "";
      if c == '\'' then Some(l.(lexer := Quoted(w)))
      else if c == '\\' then Some(l.(lexer := Escaped(w, l.lexer.Word?)))
      else if IsBlank(c) then Some(if l.lexer.Word? then Lexed(Between, l.words + [w]) else l)
      else if IsSpecial(c) then None
      else Some(l.(lexer := Word(w + [c])))
  }

  function Lex(l: Lexed, s: string): Option<Lexed>
    decreases s
  {
    if s == [] then Some(l)
    else match LexChar(l, s[0])
      case None => None
      case Some(l1) => Lex(l1, s[1..])
  }

  function Tokenize(s: string): Option<seq<string>> {
    match Lex(Lexed(Between, []), s)
    case None => None
    case Some(l) =>
      match l.lexer
      case Between => Some(l.words)
      case Word(w) => Some(l.words + [w])
      case _ => None   // unterminated quote or trailing backslash
  }

  // ----- Escaping ---------------------------------------------------------

  predicate IsSafe(c: char) {
    || 'a' <= c <= 'z' || 'A' <= c <= 'Z' || '0' <= c <= '9'
    || c == '-' || c == '_' || c == '.' || c == '/' || c == ':' || c == ',' || c == '+' || c == '='
  }

  /** strings.ReplaceAll(s, "'", "'\\''"). */
  function QuoteQuotes(s: string): string {
    if s == [] then [] else (if s[0] == '\'' then "'\\''" else [s[0]]) + QuoteQuotes(s[1..])
  }

  ghost predicate AllSafe(s: string) { forall i :: 0 <= i < |s| ==> IsSafe(s[i]) }

  ghost function Escape(s: string): string {
    if s == "" then "''" else if AllSafe(s) then s else "'" + QuoteQuotes(s) + "'"
  }

  method ShellEscape(s: string) returns (r: string)
    ensures r == Escape(s)
  {
    if s == "" { return "''"; }
    var safe := true;
    var i := 0;
    while i < |s| && safe
      invariant 0 <= i <= |s|
      invariant safe ==> forall k :: 0 <= k < i ==> IsSafe(s[k])
      invariant !safe ==> exists k :: 0 <= k < i && !IsSafe(s[k])
    {
      if !IsSafe(s[i]) { safe := false; }
      i := i + 1;
    }
    if safe { return s; }
    r := "'" + QuoteQuotes(s) + "'";
  }

  /** strings.Join(parts, " "). */
  function Join(parts: seq<string>): string {
    if parts == [] then ""
    else if |parts| == 1 then parts[0]
    else Join(parts[..|parts| - 1]) + " " + parts[|parts| - 1]
  }

  /** buildRemoteCommand: whatever the arguments, the remote shell's words are
      exactly the arguments. */
  method BuildRemoteCommand(args: seq<string>) returns (r: string)
    ensures Tokenize(r) == Some(args)
  {
    if |args| == 0 { return ""; }
    var escaped: seq<string> := [];
    for i := 0 to |args|
      invariant |escaped| == i
      invariant forall k :: 0 <= k < i ==> escaped[k] == Escape(args[k])
    {
      var e := ShellEscape(args[i]);
      escaped := escaped + [e];
    }
    r := Join(escaped);
    JoinTokenizes(args, escaped);
  }

  // ----- Proof ------------------------------------------------------------

  lemma {:induction false} LexAppend(l: Lexed, a: string, b: string)
    requires Lex(l, a).Some?
    ensures Lex(l, a + b) == Lex(Lex(l, a).value, b)
    decreases a
  {
    if a == [] {
      assert a + b == b;
    } else {
      assert (a + b)[0] == a[0] && (a + b)[1..] == a[1..] + b;
      LexAppend(LexChar(l, a[0]).value, a[1..], b);
    }
  }

  function WordOf(x: Lexer): string
    requires x.Between? || x.Word?
  {
    if x.Word? then x.word else ""
  }

  lemma SafeChar(l: Lexed, c: char)
    requires IsSafe(c) && (l.lexer.Between? || l.lexer.Word?)
    ensures LexChar(l, c) == Some(Lexed(Word(WordOf(l.lexer) + [c]), l.words))
  {
  }

  lemma {:induction false} SafeLexes(l: Lexed, s: string)
    requires AllSafe(s) && (l.lexer.Between? || l.lexer.Word?)
    ensures Lex(l, s) == Some(if s == [] then l else Lexed(Word(WordOf(l.lexer) + s), l.words))
    decreases s
  {
    if s != [] {
      var w := WordOf(l.lexer) + [s[0]];
      SafeChar(l, s[0]);
      SafeLexes(Lexed(Word(w), l.words), s[1..]);
      MoveHead(WordOf(l.lexer), s);
      if s[1..] == [] { assert w + s[1..] == w; }
    }
  }

  lemma LexOne(l: Lexed, c: char)
    requires LexChar(l, c).Some?
    ensures Lex(l, [c]) == LexChar(l, c)
  {
    assert [c][1..] == [];
  }

  /** A quoted quote, '\'' , leaves quotes, adds the quote and comes back. */
  lemma QuoteLexes(w: string, words: seq<string>)
    ensures Lex(Lexed(Quoted(w), words), "'\\''") == Some(Lexed(Quoted(w + "'"), words))
  {
    var q: string := "'\\''";
    var l0 := Lexed(Quoted(w), words);
    var l1, l2, l3 := Lexed(Word(w), words), Lexed(Escaped(w, true), words), Lexed(Word(w + "'"), words);
    LexOne(l0, '\'');
    LexOne(l1, '\\');
    LexOne(l2, '\'');
    LexOne(l3, '\'');
    LexAppend(l2, ['\''], ['\'']);
    LexAppend(l1, ['\\'], ['\''] + ['\'']);
    LexAppend(l0, ['\''], ['\\'] + (['\''] + ['\'']));
    assert q == ['\''] + (['\\'] + (['\''] + ['\'']));
    assert w + "'" == w + ['\''];
  }

  lemma {:induction false} InQuotes(w: string, words: seq<string>, s: string)
    ensures Lex(Lexed(Quoted(w), words), QuoteQuotes(s)) == Some(Lexed(Quoted(w + s), words))
    decreases s
  {
    var l := Lexed(Quoted(w), words);
    if s == [] {
      assert w + s == w;
    } else {
      var head: string := if s[0] == '\'' then "'\\''" else [s[0]];
      if s[0] == '\'' { QuoteLexes(w, words); } else { LexOne(l, s[0]); }
      assert Lex(l, head) == Some(Lexed(Quoted(w + [s[0]]), words));
      LexAppend(l, head, QuoteQuotes(s[1..]));
      InQuotes(w + [s[0]], words, s[1..]);
      MoveHead(w, s);
    }
  }

  /** An escaped argument, read at the start of a word, denotes the argument. */
  lemma EscapeLexes(words: seq<string>, s: string)
    ensures Lex(Lexed(Between, words), Escape(s)) == Some(Lexed(Word(s), words))
  {
    var l0 := Lexed(Between, words);
    if s != "" && AllSafe(s) {
      SafeLexes(l0, s);
      assert "" + s == s;
    } else {
      var l1, l2 := Lexed(Quoted(""), words), Lexed(Quoted(s), words);
      LexOne(l0, '\'');
      InQuotes("", words, s);
      assert "" + s == s;
      LexAppend(l0, ['\''], QuoteQuotes(s));
      LexOne(l2, '\'');
      LexAppend(l0, ['\''] + QuoteQuotes(s), ['\'']);
      assert Escape(s) == ['\''] + QuoteQuotes(s) + ['\''];
    }
  }

  /** One more word on a line that lexes to the words before it. */
  lemma WordLexes(line: string, last: string, words: seq<string>, arg: string)
    requires Lex(Lexed(Between, []), line) == Some(Lexed(Word(last), words))
    ensures Lex(Lexed(Between, []), line + " " + Escape(arg)) == Some(Lexed(Word(arg), words + [last]))
  {
    var l0, l1 := Lexed(Between, []), Lexed(Word(last), words);
    LexOne(l1, ' ');
    LexAppend(l0, line, " ");
    EscapeLexes(words + [last], arg);
    LexAppend(l0, line + " ", Escape(arg));
  }

  lemma LastSplit(args: seq<string>, n: nat)
    requires 1 <= n <= |args|
    ensures args[..n][..n - 1] == args[..n - 1] && args[..n - 1] + [args[n - 1]] == args[..n]
  {
  }

  lemma {:induction false} JoinLexes(args: seq<string>, escaped: seq<string>)
    requires |args| > 0 && |escaped| == |args|
    requires forall k :: 0 <= k < |args| ==> escaped[k] == Escape(args[k])
    ensures var n := |args| - 1;
      Lex(Lexed(Between, []), Join(escaped)) == Some(Lexed(Word(args[n]), args[..n]))
    decreases args
  {
    var n := |args| - 1;
    if n == 0 {
      EscapeLexes([], args[0]);
    } else {
      var einit := escaped[..n];
      LastSplit(args, n);
      JoinLexes(args[..n], einit);
      WordLexes(Join(einit), args[n - 1], args[..n - 1], args[n]);
      assert Join(escaped) == Join(einit) + " " + escaped[n];
    }
  }

  lemma JoinTokenizes(args: seq<string>, escaped: seq<string>)
    requires |args| > 0 && |escaped| == |args|
    requires forall k :: 0 <= k < |args| ==> escaped[k] == Escape(args[k])
    ensures Tokenize(Join(escaped)) == Some(args)
  {
    var n := |args| - 1;
    JoinLexes(args, escaped);
    EndsInWord(Join(escaped), args[..n], args[n]);
    LastSplit(args, |args|);
    assert args[..|args|] == args;
  }

  lemma EndsInWord(line: string, words: seq<string>, w: string)
    requires Lex(Lexed(Between, []), line) == Some(Lexed(Word(w), words))
    ensures Tokenize(line) == Some(words + [w])
  {
  }

  /** An argument is left as it is exactly if it is not empty and made of letters,
      digits and - _ . / : , + = only. */
  lemma PlainIsUnchanged(s: string)
    ensures Escape(s) == s <==>
      s != "" && forall i :: 0 <= i < |s| ==>
        || 'a' <= s[i] <= 'z' || 'A' <= s[i] <= 'Z' || '0' <= s[i] <= '9' || s[i] == '-' || s[i] == '_' || s[i] == '.'
        || s[i] == '/' || s[i] == ':' || s[i] == ',' || s[i] == '+' || s[i] == '='
  {
    QuotesGrow(s);
    if s != "" && !AllSafe(s) { assert |Escape(s)| == |QuoteQuotes(s)| + 2; }
  }

  lemma {:induction false} QuotesGrow(s: string)
    ensures |QuoteQuotes(s)| >= |s|
  {
    if s != [] { QuotesGrow(s[1..]); }
  }

  /** Different argument vectors give different command lines. */
  lemma CommandsAreDistinct(a: seq<string>, b: seq<string>, ea: seq<string>, eb: seq<string>)
    requires |a| == |ea| && |b| == |eb|
    requires forall k :: 0 <= k < |a| ==> ea[k] == Escape(a[k])
    requires forall k :: 0 <= k < |b| ==> eb[k] == Escape(b[k])
    requires Join(ea) == Join(eb)
    ensures a == b
  {
    if a != [] { JoinTokenizes(a, ea); } else { assert Tokenize("") == Some([]); }
    if b != [] { JoinTokenizes(b, eb); } else { assert Tokenize("") == Some([]); }
  }
}
