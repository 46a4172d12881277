/** Shell quoting: shellSingleQuote of internal/service/provision.go against the
    way a POSIX shell cuts a command line into words (POSIX.1-2017 Shell Command
    Language, sections 2.2.1 to 2.2.3 and 2.3). */
module Shell {
  // ---- The source's side ----

  /** strings.ReplaceAll for a one-character pattern. */
  function ReplaceChar(s: string, pattern: char, replacement: string): string {
    if s == "" then ""
    else (if s[0] == pattern then replacement else [s[0]]) + ReplaceChar(s[1..], pattern, replacement)
  }

  function ShellSingleQuote(value: string): string {
    "'" + ReplaceChar(value, '\'', "'\\''") + "'"
  }

  const PRINTF_HEAD := "printf '%s\\n' "
  const CHPASSWD_TAIL := " | chpasswd"
  const SUDO_BASH := "sudo bash -c "

  function BuildChpasswdCommand(username: string, password: string): string {
    PRINTF_HEAD + ShellSingleQuote(username + ":" + password) + CHPASSWD_TAIL
  }

  // The remote command that runs an inner command line under bash -c as root.
  function SudoBash(inner: string): string {
    SUDO_BASH + ShellSingleQuote(inner)
  }

  // ---- The shell's side ----

  const NUL := 0 as char

  /** A character of a word, and whether quoting protects it from expansion. */
  datatype Piece = Piece(c: char, quoted: bool)

  type Word = seq<Piece>

  datatype Token = WordToken(word: Word) | Operator(c: char)

  datatype Mode = Unquoted | Escape | SingleQuoted | DoubleQuoted | DoubleEscape

  /** `word` is the word being read, if any; an empty pair of quotes is a word. */
  datatype Lexer = Lexer(mode: Mode, tokens: seq<Token>, inWord: bool, word: Word)

  const START := Lexer(Unquoted, [], false, [])

  predicate IsBlank(c: char) {
    c == ' ' || c == '\t'
  }

  predicate IsOperator(c: char) {
    c == '|' || c == '&' || c == ';' || c == '<' || c == '>' || c == '(' || c == ')' || c == '\n'
  }

  function Append(l: Lexer, c: char, quoted: bool): Lexer {
    l.(inWord := true, word := l.word + [Piece(c, quoted)])
  }

  function EndWord(l: Lexer): Lexer {
    if l.inWord then l.(tokens := l.tokens + [WordToken(l.word)], inWord := false, word := []) else l
  }

  function Read(l: Lexer, c: char): Lexer {
    match l.mode
    case Unquoted =>
      if c == '\\' then l.(mode := Escape)
      else if c == '\'' then l.(mode := SingleQuoted, inWord := true)
      else if c == '"' then l.(mode := DoubleQuoted, inWord := true)
      else if IsBlank(c) then EndWord(l)
      else if IsOperator(c) then var e := EndWord(l); e.(tokens := e.tokens + [Operator(c)])
      else Append(l, c, false)
    case Escape =>
      // An escaped newline joins two lines and leaves nothing behind.
      if c == '\n' then l.(mode := Unquoted) else Append(l, c, true).(mode := Unquoted)
    case SingleQuoted =>
      if c == '\'' then l.(mode := Unquoted) else Append(l, c, true)
    case DoubleQuoted =>
      if c == '"' then l.(mode := Unquoted)
      else if c == '\\' then l.(mode := DoubleEscape)
      else Append(l, c, c != '$' && c != '`')
    case DoubleEscape =>
      if c == '\n' then l.(mode := DoubleQuoted)
      else if c == '$' || c == '`' || c == '"' || c == '\\' then Append(l, c, true).(mode := DoubleQuoted)
      else Append(Append(l, '\\', true), c, true).(mode := DoubleQuoted)
  }

  function ReadAll(l: Lexer, s: string): Lexer
    decreases s
  {
    if s == "" then l else ReadAll(Read(l, s[0]), s[1..])
  }

  /** Command lines and arguments travel as C strings: a NUL ends them. */
  function CString(s: string): string {
    if s == "" || s[0] == NUL then "" else [s[0]] + CString(s[1..])
  }

  function Tokens(line: string): seq<Token> {
    EndWord(ReadAll(START, CString(line))).tokens
  }

  function Quoted(s: string): Word {
    seq(|s|, i requires 0 <= i < |s| => Piece(s[i], true))
  }

  function Text(word: Word): string {
    seq(|word|, i requires 0 <= i < |word| => word[i].c)
  }

  lemma {:induction false} ReadAllAppend(l: Lexer, a: string, b: string)
    ensures ReadAll(l, a + b) == ReadAll(ReadAll(l, a), b)
    decreases a
  {
    if a == "" {
      assert a + b == b;
    } else {
      assert (a + b)[1..] == a[1..] + b;
      ReadAllAppend(Read(l, a[0]), a[1..], b);
    }
  }

  // Inside the quotes: every character of the value is taken as it is, and the
  // replacement for a quote leaves, escapes one quote and comes back.
  lemma {:induction false} BodyIsLiteral(l: Lexer, value: string)
    requires l.mode == SingleQuoted && l.inWord
    ensures ReadAll(l, ReplaceChar(value, '\'', "'\\''")) == l.(word := l.word + Quoted(value))
    decreases value
  {
    if value == "" {
      assert Quoted(value) == [];
    } else {
      var rest := ReplaceChar(value[1..], '\'', "'\\''");
      var next := l.(word := l.word + [Piece(value[0], true)]);
      assert Quoted(value) == [Piece(value[0], true)] + Quoted(value[1..]);
      assert l.word + Quoted(value) == next.word + Quoted(value[1..]);
      if value[0] == '\'' {
        QuoteEscape(l);
        ReadAllAppend(l, "'\\''", rest);
      } else {
        assert ([value[0]] + rest)[1..] == rest;
      }
      BodyIsLiteral(next, value[1..]);
    }
  }

  lemma QuoteEscape(l: Lexer)
    requires l.mode == SingleQuoted && l.inWord
    ensures ReadAll(l, "'\\''") == l.(word := l.word + [Piece('\'', true)])
  {
    var s := "'\\''";
    assert s[1..] == "\\''" && s[1..][1..] == "''" && s[1..][1..][1..] == "'" && s[1..][1..][1..][1..] == "";
    var l1 := Read(l, '\'');
    var l2 := Read(l1, '\\');
    var l3 := Read(l2, '\'');
    var l4 := Read(l3, '\'');
    assert ReadAll(l, s) == ReadAll(l1, "\\''") == ReadAll(l2, "''") == ReadAll(l3, "'") == ReadAll(l4, "") == l4;
  }

  /** From the unquoted state, in the middle of a word or not, a quoted value adds
      exactly its own characters, all protected, to the current word and leaves the
      shell unquoted again. */
  lemma QuoteRoundTrip(l: Lexer, value: string)
    requires l.mode == Unquoted
    ensures ReadAll(l, ShellSingleQuote(value)) == l.(inWord := true, word := l.word + Quoted(value))
  {
    var body := ReplaceChar(value, '\'', "'\\''");
    var inQuotes := Read(l, '\'');
    assert ShellSingleQuote(value) == "'" + (body + "'");
    assert ("'" + (body + "'"))[1..] == body + "'";
    ReadAllAppend(inQuotes, body, "'");
    BodyIsLiteral(inQuotes, value);
    var end := ReadAll(inQuotes, body);
    assert ReadAll(end, "'") == ReadAll(Read(end, '\''), "");
  }

  lemma {:induction false} ReplaceHasNul(s: string, replacement: string)
    requires NUL !in replacement
    ensures NUL in ReplaceChar(s, '\'', replacement) <==> NUL in s
    decreases s
  {
    if s != "" {
      ReplaceHasNul(s[1..], replacement);
    }
  }

  lemma {:induction false} CStringWhole(s: string)
    ensures |CString(s)| <= |s| && NUL !in CString(s)
    ensures CString(s) == s <==> NUL !in s
    decreases s
  {
    if s != "" {
      CStringWhole(s[1..]);
    }
  }

  /** A value quoted as a whole line is read back as one word with exactly the
      value's text if and only if the value has no NUL. */
  lemma QuotedLineRoundTrip(value: string)
    ensures Tokens(ShellSingleQuote(value)) == [WordToken(Quoted(value))] <==> NUL !in value
  {
    var line := ShellSingleQuote(value);
    var body := ReplaceChar(value, '\'', "'\\''");
    ReplaceHasNul(value, "'\\''");
    CStringWhole(line);
    if NUL !in value {
      assert forall i :: 0 <= i < |line| ==> line[i] == if i == 0 || i == |line| - 1 then '\'' else body[i - 1];
      QuoteRoundTrip(START, value);
      assert [] + Quoted(value) == Quoted(value);
    } else {
      var k :| 0 <= k < |body| && body[k] == NUL;
      assert line[k + 1] == NUL;
      NulNeverRead(START, CString(line));
      var j :| 0 <= j < |value| && value[j] == NUL;
      var word := Quoted(value);
      assert word[j].c == NUL;
      var read := EndWord(ReadAll(START, CString(line)));
      assert [WordToken(word)][0].word == word;
      assert read.tokens != [WordToken(word)];
    }
  }

  predicate NulFree(l: Lexer) {
    && (forall i :: 0 <= i < |l.word| ==> l.word[i].c != NUL)
    && (forall t, i :: 0 <= t < |l.tokens| && l.tokens[t].WordToken? && 0 <= i < |l.tokens[t].word| ==>
          l.tokens[t].word[i].c != NUL)
  }

  lemma {:induction false} NulNeverRead(l: Lexer, s: string)
    requires NulFree(l) && NUL !in s
    ensures NulFree(EndWord(ReadAll(l, s)))
    decreases s
  {
    if s != "" {
      NulNeverRead(Read(l, s[0]), s[1..]);
    }
  }

  // ---- Whole command lines ----

  const RESET_TAIL := " | sudo chpasswd"

  /** The remote command of SSHResetPassword. */
  function ResetPasswordCommand(username: string, password: string): string {
    PRINTF_HEAD + ShellSingleQuote(username + ":" + password) + RESET_TAIL
  }

  const CREATE_1 := "{ id -u "
  const CREATE_2 := " 2>/dev/null || useradd -m -s /bin/bash "
  const CREATE_3 := "; } && printf '%s\n' "
  const CREATE_4 := CHPASSWD_TAIL + SSHD_1 + SSHD_2 + SSHD_3 + SSHD_4 + SSHD_5
  const SSHD_1 := " && printf 'PasswordAuthentication yes\n"
  const SSHD_2 := "ChallengeResponseAuthentication yes\n' > "
  const SSHD_3 := "/etc/ssh/sshd_config.d/99-provessor.conf"
  const SSHD_4 := " && sshd -t && systemctl restart sshd"
  const SSHD_5 := " && sshd -T | grep -i passwordauthentication"

  /** The inner command of SSHCreateUser. */
  function CreateUserCommand(username: string, password: string): string {
    CREATE_1 + ShellSingleQuote(username) + CREATE_2 + ShellSingleQuote(username)
    + CREATE_3 + ShellSingleQuote(username + ":" + password) + CREATE_4
  }

  /** Between words, unquoted: where a new word may start. */
  predicate AtWordStart(l: Lexer) {
    l.mode == Unquoted && !l.inWord && l.word == []
  }

  predicate Delimits(c: char) {
    IsBlank(c) || IsOperator(c)
  }

  function WithTokens(before: seq<Token>, l: Lexer): Lexer {
    l.(tokens := before + l.tokens)
  }

  // Tokens already cut have no influence on what comes after them.
  lemma {:induction false} EarlierTokensAreInert(before: seq<Token>, l: Lexer, s: string)
    ensures ReadAll(WithTokens(before, l), s) == WithTokens(before, ReadAll(l, s))
    decreases s
  {
    if s != "" {
      ReadPassesTokens(before, l, s[0]);
      EarlierTokensAreInert(before, Read(l, s[0]), s[1..]);
    }
  }

  lemma ReadPassesTokens(before: seq<Token>, l: Lexer, c: char)
    ensures Read(WithTokens(before, l), c) == WithTokens(before, Read(l, c))
    ensures EndWord(WithTokens(before, l)) == WithTokens(before, EndWord(l))
  {
    assert before + (l.tokens + [WordToken(l.word)]) == (before + l.tokens) + [WordToken(l.word)];
    var e := EndWord(l);
    assert before + (e.tokens + [Operator(c)]) == (before + e.tokens) + [Operator(c)];
  }

  function Cut(l: Lexer, s: string): seq<Token> {
    EndWord(ReadAll(l, s)).tokens
  }

  /** A quoted value between two pieces of a command line is one literal word, and
      the pieces are cut as if it were not there. */
  lemma QuotedInContext(before: string, value: string, after: string)
    requires AtWordStart(ReadAll(START, before))
    requires after != "" && Delimits(after[0])
    ensures Cut(START, before + ShellSingleQuote(value) + after)
         == Cut(START, before) + [WordToken(Quoted(value))] + Cut(START, after)
  {
    var head := ReadAll(START, before);
    var quoted := ShellSingleQuote(value);
    ReadAllAppend(START, before + quoted, after);
    ReadAllAppend(START, before, quoted);
    QuoteRoundTrip(head, value);
    assert [] + Quoted(value) == Quoted(value);
    var inWord := head.(inWord := true, word := Quoted(value));
    DelimiterEndsWord(inWord, after);
    var tokens := head.tokens + [WordToken(Quoted(value))];
    assert EndWord(inWord) == WithTokens(tokens, START);
    EarlierTokensAreInert(tokens, START, after);
    ReadPassesTokens(tokens, ReadAll(START, after), ' ');
  }

  lemma DelimiterEndsWord(l: Lexer, s: string)
    requires l.mode == Unquoted && s != "" && Delimits(s[0])
    ensures ReadAll(l, s) == ReadAll(EndWord(l), s)
  {
  }

  /** Only the last piece decides whether a new word may start. */
  lemma WordStartAfter(before: string, value: string, after: string)
    requires AtWordStart(ReadAll(START, before)) && AtWordStart(ReadAll(START, after))
    requires after != "" && Delimits(after[0])
    ensures AtWordStart(ReadAll(START, before + ShellSingleQuote(value) + after))
  {
    var head := ReadAll(START, before);
    var quoted := ShellSingleQuote(value);
    ReadAllAppend(START, before + quoted, after);
    ReadAllAppend(START, before, quoted);
    QuoteRoundTrip(head, value);
    assert [] + Quoted(value) == Quoted(value);
    var inWord := head.(inWord := true, word := Quoted(value));
    DelimiterEndsWord(inWord, after);
    var tokens := head.tokens + [WordToken(Quoted(value))];
    assert EndWord(inWord) == WithTokens(tokens, START);
    EarlierTokensAreInert(tokens, START, after);
  }

  // A piece without quoting characters that ends in a blank.
  lemma {:induction false} PlainPiece(l: Lexer, s: string)
    requires l.mode == Unquoted && s != "" && IsBlank(s[|s| - 1])
    requires forall i :: 0 <= i < |s| ==> s[i] != '\\' && s[i] != '\'' && s[i] != '"'
    requires !l.inWord ==> l.word == []
    ensures AtWordStart(ReadAll(l, s))
    decreases s
  {
    if |s| > 1 {
      PlainPiece(Read(l, s[0]), s[1..]);
    } else {
      assert s[1..] == "";
    }
  }

  lemma FormatPiece(before: string, format: string)
    requires before != "" && IsBlank(before[|before| - 1])
    requires forall i :: 0 <= i < |before| ==> before[i] != '\\' && before[i] != '\'' && before[i] != '"'
    ensures AtWordStart(ReadAll(START, before + ShellSingleQuote(format) + " "))
  {
    PlainPiece(START, before);
    PlainPiece(START, " ");
    WordStartAfter(before, format, " ");
  }

  lemma NoNulIn(value: string)
    ensures NUL in ShellSingleQuote(value) <==> NUL in value
  {
    var body := ReplaceChar(value, '\'', "'\\''");
    ReplaceHasNul(value, "'\\''");
    if NUL in body {
      var k :| 0 <= k < |body| && body[k] == NUL;
      assert ShellSingleQuote(value)[k + 1] == NUL;
    }
  }

  lemma NoNulAcross(a: string, b: string)
    requires NUL !in a && NUL !in b
    ensures NUL !in a + b
  {
  }

  lemma OneValue(a: string, value: string, b: string)
    requires AtWordStart(ReadAll(START, a)) && b != "" && Delimits(b[0])
    requires NUL !in a && NUL !in value && NUL !in b
    ensures Tokens(a + ShellSingleQuote(value) + b) == Tokens(a) + [WordToken(Quoted(value))] + Tokens(b)
  {
    NoNulIn(value);
    NoNulAcross(a, ShellSingleQuote(value));
    NoNulAcross(a + ShellSingleQuote(value), b);
    CStringWhole(a + ShellSingleQuote(value) + b);
    CStringWhole(a);
    CStringWhole(b);
    QuotedInContext(a, value, b);
  }

  lemma ThreeValues(a: string, u: string, b: string, v: string, c: string, w: string, d: string)
    requires AtWordStart(ReadAll(START, a)) && AtWordStart(ReadAll(START, b)) && AtWordStart(ReadAll(START, c))
    requires b != "" && Delimits(b[0]) && c != "" && Delimits(c[0]) && d != "" && Delimits(d[0])
    requires NUL !in a && NUL !in u && NUL !in b && NUL !in v && NUL !in c && NUL !in w && NUL !in d
    ensures NUL !in a + ShellSingleQuote(u) + b + ShellSingleQuote(v) + c + ShellSingleQuote(w) + d
    ensures Tokens(a + ShellSingleQuote(u) + b + ShellSingleQuote(v) + c + ShellSingleQuote(w) + d)
         == Tokens(a) + [WordToken(Quoted(u))] + Tokens(b) + [WordToken(Quoted(v))] + Tokens(c)
          + [WordToken(Quoted(w))] + Tokens(d)
  {
    var one := a + ShellSingleQuote(u) + b;
    var two := one + ShellSingleQuote(v) + c;
    NoNulIn(u);
    NoNulIn(v);
    NoNulIn(w);
    NoNulAcross(a, ShellSingleQuote(u));
    NoNulAcross(a + ShellSingleQuote(u), b);
    NoNulAcross(one, ShellSingleQuote(v));
    NoNulAcross(one + ShellSingleQuote(v), c);
    NoNulAcross(two, ShellSingleQuote(w));
    NoNulAcross(two + ShellSingleQuote(w), d);
    OneValue(a, u, b);
    WordStartAfter(a, u, b);
    OneValue(one, v, c);
    WordStartAfter(one, v, c);
    OneValue(two, w, d);
  }

  lemma NoNulInPair(username: string, password: string)
    requires NUL !in username && NUL !in password
    ensures NUL !in username + ":" + password
  {
  }

  /** Whatever the user name and the password contain, the line piped into chpasswd
      is cut into the same words and operators around one literal argument. */
  lemma ChpasswdArgument(username: string, password: string)
    requires NUL !in username && NUL !in password
    ensures var line := ShellSingleQuote(username + ":" + password);
            && BuildChpasswdCommand(username, password) == "printf '%s\\n' " + line + " | chpasswd"
            && ResetPasswordCommand(username, password) == "printf '%s\\n' " + line + " | sudo chpasswd"
    ensures Tokens(BuildChpasswdCommand(username, password))
         == Tokens(PRINTF_HEAD) + [WordToken(Quoted(username + ":" + password))] + Tokens(CHPASSWD_TAIL)
    ensures Tokens(ResetPasswordCommand(username, password))
         == Tokens(PRINTF_HEAD) + [WordToken(Quoted(username + ":" + password))] + Tokens(RESET_TAIL)
  {
    hide ReadAll, CString;
    NoNulInPair(username, password);
    PrintfWordStart();
    OneValue(PRINTF_HEAD, username + ":" + password, CHPASSWD_TAIL);
    OneValue(PRINTF_HEAD, username + ":" + password, RESET_TAIL);
  }

  lemma PrintfWordStart()
    ensures AtWordStart(ReadAll(START, PRINTF_HEAD))
  {
    assert ReplaceChar("%s\\n", '\'', "'\\''") == "%s\\n";
    FormatPiece("printf ", "%s\\n");
    assert "printf " + ShellSingleQuote("%s\\n") + " " == PRINTF_HEAD;
  }

  /** The command that creates the SSH user has the same shell syntax for every user
      name and password: the three inserted values are three literal words. */
  lemma CreateUserArguments(username: string, password: string)
    requires NUL !in username && NUL !in password
    ensures CreateUserCommand(username, password)
         == "{ id -u " + ShellSingleQuote(username) + " 2>/dev/null || useradd -m -s /bin/bash "
          + ShellSingleQuote(username) + "; } && printf '%s\n' " + ShellSingleQuote(username + ":" + password)
          + (" | chpasswd" + " && printf 'PasswordAuthentication yes\n"
             + "ChallengeResponseAuthentication yes\n' > " + "/etc/ssh/sshd_config.d/99-provessor.conf"
             + " && sshd -t && systemctl restart sshd" + " && sshd -T | grep -i passwordauthentication")
    ensures Tokens(CreateUserCommand(username, password))
         == Tokens(CREATE_1) + [WordToken(Quoted(username))] + Tokens(CREATE_2) + [WordToken(Quoted(username))]
          + Tokens(CREATE_3) + [WordToken(Quoted(username + ":" + password))] + Tokens(CREATE_4)
  {
    hide ReadAll, CString;
    NoNulInPair(username, password);
    CreatePiece1();
    CreatePiece2();
    CreatePiece3();
    CreatePiece4();
    ThreeValues(CREATE_1, username, CREATE_2, username, CREATE_3, username + ":" + password, CREATE_4);
  }

  lemma CreatePiece1()
    ensures AtWordStart(ReadAll(START, CREATE_1)) && NUL !in CREATE_1
  {
    PlainPiece(START, CREATE_1);
  }

  lemma CreatePiece2()
    ensures AtWordStart(ReadAll(START, CREATE_2)) && NUL !in CREATE_2
  {
    hide ReadAll;
    PlainPiece(START, CREATE_2);
  }

  // One lemma a piece keeps each literal short.
  lemma Sshd1()
    ensures NUL !in SSHD_1
  {
  }

  lemma Sshd2()
    ensures NUL !in SSHD_2
  {
  }

  lemma Sshd3()
    ensures NUL !in SSHD_3
  {
  }

  lemma Sshd4()
    ensures NUL !in SSHD_4
  {
  }

  lemma Sshd5()
    ensures NUL !in SSHD_5
  {
  }

  lemma SixPieces(a: string, b: string, c: string, d: string, e: string, f: string)
    requires a != "" && Delimits(a[0])
    requires NUL !in a && NUL !in b && NUL !in c && NUL !in d && NUL !in e && NUL !in f
    ensures var s := a + b + c + d + e + f; s != "" && Delimits(s[0]) && NUL !in s
  {
  }

  lemma CreatePiece4()
    ensures CREATE_4 != "" && Delimits(CREATE_4[0]) && NUL !in CREATE_4
  {
    Sshd1();
    Sshd2();
    Sshd3();
    Sshd4();
    Sshd5();
    SixPieces(CHPASSWD_TAIL, SSHD_1, SSHD_2, SSHD_3, SSHD_4, SSHD_5);
  }

  lemma CreatePiece3()
    ensures AtWordStart(ReadAll(START, CREATE_3)) && NUL !in CREATE_3
  {
    hide ReadAll;
    var before := "; } && printf ";
    assert ReplaceChar("%s\n", '\'', "'\\''") == "%s\n";
    FormatPiece(before, "%s\n");
    assert before + ShellSingleQuote("%s\n") + " " == CREATE_3;
  }

  /** Running a line through "sudo bash -c" hands bash exactly that line, however
      many quotes it already contains. So bash cuts it as if it had been given
      directly, and the values quoted inside it survive the second layer. */
  lemma NestedQuoting(username: string, password: string)
    requires NUL !in username && NUL !in password
    ensures var inner := CreateUserCommand(username, password);
            var outer := Tokens(SudoBash(inner));
            && SudoBash(inner) == "sudo bash -c " + ShellSingleQuote(inner)
            && outer == Tokens("sudo bash -c ") + [WordToken(Quoted(inner))]
            && Text(Quoted(inner)) == inner
            && WordToken(Quoted(username + ":" + password)) in Tokens(Text(outer[|outer| - 1].word))
  {
    CreateUserNoNul(username, password);
    CreateUserArguments(username, password);
    OuterLayer(CreateUserCommand(username, password));
  }

  lemma CreateUserNoNul(username: string, password: string)
    requires NUL !in username && NUL !in password
    ensures NUL !in CreateUserCommand(username, password)
  {
    hide ReadAll, CString;
    NoNulInPair(username, password);
    CreatePiece1();
    CreatePiece2();
    CreatePiece3();
    CreatePiece4();
    ThreeValues(CREATE_1, username, CREATE_2, username, CREATE_3, username + ":" + password, CREATE_4);
  }

  lemma OuterLayer(inner: string)
    requires NUL !in inner
    ensures Tokens(SudoBash(inner)) == Tokens(SUDO_BASH) + [WordToken(Quoted(inner))]
    ensures Text(Quoted(inner)) == inner
  {
    hide ReadAll, CString;
    NoNulIn(inner);
    NoNulAcross(SUDO_BASH, ShellSingleQuote(inner));
    CStringWhole(SudoBash(inner));
    CStringWhole(SUDO_BASH);
    PlainPiece(START, SUDO_BASH);
    var head := ReadAll(START, SUDO_BASH);
    ReadAllAppend(START, SUDO_BASH, ShellSingleQuote(inner));
    QuoteRoundTrip(head, inner);
    assert [] + Quoted(inner) == Quoted(inner);
  }
}
