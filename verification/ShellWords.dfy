/** The word-only shell tokenizer of the command policy, and the quoting it undoes. A
    command is a Go string of bytes; a byte is written as the character with its code. */
module ShellWords {
  import opened Seqs

  datatype Quote = Unquoted | Single | Double

  datatype WordError = EmptyInput | EmptyCommand | Unfinished

  /** Plain commands, syntax the policy does not look into, or an error. */
  datatype Parsed = Plain(commands: seq<seq<string>>) | Opaque | Bad(error: WordError)

  datatype Lexer = Lexer(
    commands: seq<seq<string>>,
    tokens: seq<string>,
    token: string,
    quote: Quote,
    escaped: bool)

  const START := Lexer([], [], "", Unquoted, false)

  predicate IsByte(c: char) { c < 256 as char }

  predicate IsAscii(c: char) { c < 128 as char }

  predicate AllAscii(s: string) { forall i :: 0 <= i < |s| ==> IsAscii(s[i]) }

  /** One byte taken for a character and written back as UTF-8. */
  function Widened(c: char): string
    requires IsByte(c)
  {
    if IsAscii(c) then [c] else [(0xC0 + c as int / 64) as char, (0x80 + c as int % 64) as char]
  }

  function Put(st: Lexer, c: char): Lexer {
    st.(token := st.token + (if IsByte(c) then Widened(c) else [c]))
  }

  function FlushToken(st: Lexer): Lexer {
    if st.token == "" then st else st.(tokens := st.tokens + [st.token], token := "")
  }

  function FlushCommand(st: Lexer): (r: Lexer) {
    var flushed := FlushToken(st);
    flushed.(commands := flushed.commands + [flushed.tokens], tokens := [])
  }

  predicate NothingToFlush(st: Lexer) {
    FlushToken(st).tokens == []
  }

  predicate IsDynamic(c: char) {
    c == '$' || c == '`' || c == '>' || c == '<' || c == '(' || c == ')' || c == '{' || c == '}' || c == '\n' || c == '\r'
  }

  predicate IsOperator(c: char) {
    c == ';' || c == '|' || c == '&'
  }

  /** How many characters the operator at the head of `rest` takes; 0 for a lone `&`. */
  function OperatorLength(rest: string): nat
    requires rest != "" && IsOperator(rest[0])
    ensures OperatorLength(rest) <= |rest|
  {
    var doubled := |rest| > 1 && rest[1] == rest[0];
    if rest[0] == '&' then (if doubled then 2 else 0)
    else if rest[0] == '|' && doubled then 2
    else 1
  }

  function Finished(st: Lexer): Parsed {
    if st.escaped || st.quote != Unquoted then Bad(Unfinished)
    else if NothingToFlush(st) then Bad(EmptyCommand)
    else Plain(FlushCommand(st).commands)
  }

  function Lexed(rest: string, st: Lexer): Parsed
    decreases |rest|
  {
    if rest == "" then Finished(st)
    else
      var c, tail := rest[0], rest[1..];
      if st.escaped then Lexed(tail, Put(st, c).(escaped := false))
      else if c == '\\' && st.quote != Single then Lexed(tail, st.(escaped := true))
      else if st.quote != Unquoted then
        if c == (if st.quote == Single then '\'' else '"') then Lexed(tail, st.(quote := Unquoted))
        else if (c == '$' || c == '`') && st.quote == Double then Opaque
        else Lexed(tail, Put(st, c))
      else if c == '\'' || c == '"' then Lexed(tail, st.(quote := if c == '"' then Double else Single))
      else if IsDynamic(c) then Opaque
      else if IsOperator(c) then
        if OperatorLength(rest) == 0 then Opaque
        else if NothingToFlush(st) then Bad(EmptyCommand)
        else Lexed(rest[OperatorLength(rest)..], FlushCommand(st))
      else if c == ' ' || c == '\t' then Lexed(tail, FlushToken(st))
      else Lexed(tail, Put(st, c))
  }

  // ----- white space at the ends -----

  predicate IsBlank(c: char) {
    ('\t' <= c <= '\r') || c == ' '
  }

  function TrimmedLeft(s: string): string {
    if s != "" && IsBlank(s[0]) then TrimmedLeft(s[1..]) else s
  }

  function TrimmedRight(s: string): string {
    if s != "" && IsBlank(s[|s| - 1]) then TrimmedRight(s[..|s| - 1]) else s
  }

  function Trimmed(s: string): string {
    TrimmedLeft(TrimmedRight(s))
  }

  function ParsedCommands(command: string): Parsed {
    if Trimmed(command) == "" then Bad(EmptyInput) else Lexed(Trimmed(command), START)
  }

  method ParsePlainShellCommands(text: string) returns (parsed: Parsed)
    ensures parsed == ParsedCommands(text)
  {
    var command := Trimmed(text);
    if command == "" {
      return Bad(EmptyInput);
    }
    var st := START;
    var index := 0;
    assert command[0..] == command;
    while index < |command|
      invariant 0 <= index <= |command|
      invariant Lexed(command[index..], st) == Lexed(command, START)
    {
      var character := command[index];
      ghost var rest := command[index..];
      assert rest[0] == character && rest[1..] == command[index + 1..];
      var step := 1;
      if st.escaped {
        st := Put(st, character).(escaped := false);
      } else if character == '\\' && st.quote != Single {
        st := st.(escaped := true);
      } else if st.quote != Unquoted {
        if character == (if st.quote == Single then '\'' else '"') {
          st := st.(quote := Unquoted);
        } else if (character == '$' || character == '`') && st.quote == Double {
          return Opaque;
        } else {
          st := Put(st, character);
        }
      } else if character == '\'' || character == '"' {
        st := st.(quote := if character == '"' then Double else Single);
      } else if IsDynamic(character) {
        return Opaque;
      } else if IsOperator(character) {
        step := OperatorLength(command[index..]);
        if step == 0 {
          return Opaque;
        }
        if NothingToFlush(st) {
          return Bad(EmptyCommand);
        }
        st := FlushCommand(st);
      } else if character == ' ' || character == '\t' {
        st := FlushToken(st);
      } else {
        st := Put(st, character);
      }
      assert rest[step..] == command[index + step..];
      index := index + step;
    }
    assert command[index..] == "";
    return Finished(st);
  }

  // ----- quoting -----

  predicate Special(c: char) {
    c == '"' || c == '\\' || c == '$' || c == '`'
  }

  function Escaped(word: string): string {
    if word == "" then "" else (if Special(word[0]) then ['\\', word[0]] else [word[0]]) + Escaped(word[1..])
  }

  function Quoted(word: string): string {
    ['"'] + Escaped(word) + ['"']
  }

  /** The words of one command, quoted and separated by spaces. */
  function QuotedLine(words: seq<string>): string {
    if words == [] then ""
    else if |words| == 1 then Quoted(words[0])
    else Quoted(words[0]) + (" " + QuotedLine(words[1..]))
  }

  datatype Operator = Semicolon | Pipe | And | Or

  /** An operator between two commands, with or without a space on both sides. */
  datatype Joint = Joint(operator: Operator, spaced: bool)

  function Symbol(operator: Operator): string {
    match operator
    case Semicolon => ";"
    case Pipe => "|"
    case And => "&&"
    case Or => "||"
  }

  function JointText(joint: Joint): string {
    if joint.spaced then " " + Symbol(joint.operator) + " " else Symbol(joint.operator)
  }

  function QuotedCommands(commands: seq<seq<string>>, joints: seq<Joint>): string
    requires |commands| == |joints| + 1
  {
    if joints == [] then QuotedLine(commands[0])
    else QuotedLine(commands[0]) + (JointText(joints[0]) + QuotedCommands(commands[1..], joints[1..]))
  }

  // ----- what quoting comes back as -----

  function WidenedAll(word: string): string {
    if word == "" then "" else (if IsByte(word[0]) then Widened(word[0]) else [word[0]]) + WidenedAll(word[1..])
  }

  /** The words that survive: each one widened, the empty ones gone. */
  function Surviving(words: seq<string>): seq<string> {
    if words == [] then []
    else (if words[0] == "" then [] else [WidenedAll(words[0])]) + Surviving(words[1..])
  }

  function SurvivingAll(commands: seq<seq<string>>): seq<seq<string>> {
    if commands == [] then [] else [Surviving(commands[0])] + SurvivingAll(commands[1..])
  }

  predicate Quiet(st: Lexer) {
    !st.escaped && st.quote == Unquoted
  }

  function Typed(st: Lexer, word: string): Lexer {
    st.(token := st.token + WidenedAll(word))
  }

  lemma TypedStep(st: Lexer, word: string)
    requires word != ""
    ensures Typed(Put(st, word[0]), word[1..]) == Typed(st, word)
  {
    Associative(st.token, if IsByte(word[0]) then Widened(word[0]) else [word[0]], WidenedAll(word[1..]));
  }

  lemma LexSpecial(c: char, tail: string, st: Lexer)
    requires !st.escaped && st.quote == Double
    ensures Lexed(['\\', c] + tail, st) == Lexed(tail, Put(st, c))
  {
    var text := ['\\', c] + tail;
    assert text[1..][1..] == tail;
    assert Lexed(text, st) == Lexed(text[1..], st.(escaped := true));
    assert Put(st.(escaped := true), c).(escaped := false) == Put(st, c);
  }

  lemma LexOrdinary(c: char, tail: string, st: Lexer)
    requires !st.escaped && st.quote == Double && !Special(c)
    ensures Lexed([c] + tail, st) == Lexed(tail, Put(st, c))
  {
    assert ([c] + tail)[1..] == tail;
  }

  lemma {:induction false} LexEscaped(word: string, rest: string, st: Lexer)
    requires !st.escaped && st.quote == Double
    ensures Lexed(Escaped(word) + rest, st) == Lexed(rest, Typed(st, word))
    decreases |word|
  {
    hide Lexed, Special;
    if word == "" {
      EmptyUnit(rest);
      EmptyUnit(st.token);
    } else {
      hide Typed;
      var c := word[0];
      TypedStep(st, word);
      Associative(if Special(c) then ['\\', c] else [c], Escaped(word[1..]), rest);
      if Special(c) {
        LexSpecial(c, Escaped(word[1..]) + rest, st);
      } else {
        LexOrdinary(c, Escaped(word[1..]) + rest, st);
      }
      LexEscaped(word[1..], rest, Put(st, c));
    }
  }

  lemma LexQuoted(word: string, rest: string, st: Lexer)
    requires Quiet(st)
    ensures Lexed(Quoted(word) + rest, st) == Lexed(rest, Typed(st, word))
  {
    var inside := Escaped(word) + (['"'] + rest);
    var text := Quoted(word) + rest;
    assert text == ['"'] + inside;
    assert text[1..] == inside;
    var open := st.(quote := Double);
    LexEscaped(word, ['"'] + rest, open);
    assert (['"'] + rest)[1..] == rest;
    assert Typed(open, word).(quote := Unquoted) == Typed(st, word);
  }

  lemma {:induction false} WidenedNonEmpty(word: string)
    ensures WidenedAll(word) == "" <==> word == ""
  {
  }

  /** The lexer after the words of one command, the last word still open. */
  function AfterWords(st: Lexer, words: seq<string>): Lexer
    requires words != []
    decreases |words|
  {
    if |words| == 1 then Typed(st, words[0]) else AfterWords(FlushToken(Typed(st, words[0])), words[1..])
  }

  lemma {:induction false} LexLine(words: seq<string>, rest: string, st: Lexer)
    requires words != [] && Quiet(st)
    ensures Lexed(QuotedLine(words) + rest, st) == Lexed(rest, AfterWords(st, words))
    ensures Quiet(AfterWords(st, words))
    decreases |words|
  {
    hide Quoted, Lexed, Typed;
    if |words| == 1 {
      LexQuoted(words[0], rest, st);
      TypedKeeps(st, words[0]);
    } else {
      var tail := QuotedLine(words[1..]) + rest;
      Associative(Quoted(words[0]), " " + QuotedLine(words[1..]), rest);
      Associative(" ", QuotedLine(words[1..]), rest);
      LexQuoted(words[0], " " + tail, st);
      TypedKeeps(st, words[0]);
      LexSpace(tail, Typed(st, words[0]));
      LexLine(words[1..], rest, FlushToken(Typed(st, words[0])));
    }
  }

  lemma TypedKeeps(st: Lexer, word: string)
    ensures Quiet(st) ==> Quiet(Typed(st, word))
    ensures Typed(st, word).tokens == st.tokens && Typed(st, word).commands == st.commands
    ensures st.token == "" ==> Typed(st, word).token == WidenedAll(word)
  {
    EmptyUnit(WidenedAll(word));
  }

  lemma LexSpace(rest: string, st: Lexer)
    requires Quiet(st)
    ensures Lexed(" " + rest, st) == Lexed(rest, FlushToken(st))
  {
    assert (" " + rest)[1..] == rest;
  }

  /** Flushing after the words of a command leaves exactly the surviving words. */
  lemma {:induction false} WordsFlushed(st: Lexer, words: seq<string>)
    requires words != [] && st.token == ""
    ensures FlushToken(AfterWords(st, words)) == st.(tokens := st.tokens + Surviving(words))
    decreases |words|
  {
    WidenedNonEmpty(words[0]);
    TypedKeeps(st, words[0]);
    var flushed := FlushToken(Typed(st, words[0]));
    var head := if words[0] == "" then [] else [WidenedAll(words[0])];
    EmptyUnit(st.tokens);
    assert flushed == st.(tokens := st.tokens + head);
    EmptyUnit(head);
    if |words| > 1 {
      WordsFlushed(flushed, words[1..]);
      Associative(st.tokens, head, Surviving(words[1..]));
    }
  }

  lemma LexJoint(joint: Joint, rest: string, st: Lexer)
    requires Quiet(st) && rest != "" && rest[0] == '"'
    ensures Lexed(JointText(joint) + rest, st)
         == if NothingToFlush(st) then Bad(EmptyCommand) else Lexed(rest, FlushCommand(st))
  {
    if joint.spaced {
      var symbol := Symbol(joint.operator) + (" " + rest);
      assert JointText(joint) + rest == " " + symbol;
      LexSpace(symbol, st);
      LexSymbol(joint.operator, " " + rest, FlushToken(st));
      if !NothingToFlush(st) {
        LexSpace(rest, FlushCommand(st));
      }
    } else {
      LexSymbol(joint.operator, rest, st);
    }
  }

  lemma LexSymbol(operator: Operator, rest: string, st: Lexer)
    requires Quiet(st) && rest != "" && !IsOperator(rest[0])
    ensures Lexed(Symbol(operator) + rest, st)
         == if NothingToFlush(st) then Bad(EmptyCommand) else Lexed(rest, FlushCommand(st))
  {
    hide FlushCommand, NothingToFlush;
    var text := Symbol(operator) + rest;
    assert text[|Symbol(operator)|..] == rest;
    assert OperatorLength(text) == |Symbol(operator)|;
  }

  lemma {:induction false} LexCommands(commands: seq<seq<string>>, joints: seq<Joint>, st: Lexer)
    requires |commands| == |joints| + 1
    requires forall i :: 0 <= i < |commands| ==> commands[i] != []
    requires Quiet(st) && st.token == "" && st.tokens == []
    ensures Lexed(QuotedCommands(commands, joints), st)
         == if [] in SurvivingAll(commands) then Bad(EmptyCommand)
            else Plain(st.commands + SurvivingAll(commands))
    decreases |commands|
  {
    hide Lexed, QuotedLine, AfterWords, Surviving, JointText;
    var words := commands[0];
    var after := AfterWords(st, words);
    WordsFlushed(st, words);
    EmptyUnit(Surviving(words));
    assert FlushToken(after).tokens == Surviving(words);
    var all := SurvivingAll(commands);
    assert all[0] == Surviving(words) && all[1..] == SurvivingAll(commands[1..]);
    if joints == [] {
      LexLine(words, "", st);
      EmptyUnit(QuotedLine(words));
      LexEnd(after);
      assert SurvivingAll(commands[1..]) == [];
      assert all == [Surviving(words)];
    } else {
      var rest := QuotedCommands(commands[1..], joints[1..]);
      QuotedStart(commands[1..], joints[1..]);
      LexLine(words, JointText(joints[0]) + rest, st);
      LexJoint(joints[0], rest, after);
      if Surviving(words) != [] {
        var next := FlushCommand(after);
        LexCommands(commands[1..], joints[1..], next);
        Associative(st.commands, [Surviving(words)], all[1..]);
        assert all == [Surviving(words)] + all[1..];
      }
    }
  }

  lemma LexEnd(st: Lexer)
    requires Quiet(st)
    ensures Lexed("", st) == if NothingToFlush(st) then Bad(EmptyCommand) else Plain(FlushCommand(st).commands)
  {
  }

  lemma LineEnds(words: seq<string>)
    requires words != []
    ensures var text := QuotedLine(words); text != "" && text[0] == '"' && text[|text| - 1] == '"'
  {
    if |words| > 1 {
      LineEnds(words[1..]);
    }
  }

  lemma {:induction false} QuotedStart(commands: seq<seq<string>>, joints: seq<Joint>)
    requires |commands| == |joints| + 1 && forall i :: 0 <= i < |commands| ==> commands[i] != []
    ensures var text := QuotedCommands(commands, joints); text != "" && text[0] == '"' && text[|text| - 1] == '"'
    decreases |commands|
  {
    hide QuotedLine;
    LineEnds(commands[0]);
    if joints != [] {
      QuotedStart(commands[1..], joints[1..]);
    }
  }

  lemma TrimmedKeeps(s: string)
    requires s != "" && !IsBlank(s[0]) && !IsBlank(s[|s| - 1])
    ensures Trimmed(s) == s
  {
  }

  /** Quoting every word and joining the commands with safe operators parses back to the
      same commands, word for word, up to widened bytes and dropped empty words. */
  lemma QuotedCommandsParse(commands: seq<seq<string>>, joints: seq<Joint>)
    requires |commands| == |joints| + 1
    requires forall i :: 0 <= i < |commands| ==> commands[i] != []
    ensures ParsedCommands(QuotedCommands(commands, joints))
         == if [] in SurvivingAll(commands) then Bad(EmptyCommand) else Plain(SurvivingAll(commands))
  {
    hide QuotedCommands, Lexed;
    QuotedStart(commands, joints);
    TrimmedKeeps(QuotedCommands(commands, joints));
    LexCommands(commands, joints, START);
    EmptyUnit(SurvivingAll(commands));
  }

  // ----- exactly when nothing is lost -----

  lemma {:induction false} WidenedLength(word: string)
    requires forall i :: 0 <= i < |word| ==> IsByte(word[i])
    ensures |WidenedAll(word)| >= |word|
    ensures AllAscii(word) <==> |WidenedAll(word)| == |word|
    ensures AllAscii(word) ==> WidenedAll(word) == word
  {
    if word != "" {
      WidenedLength(word[1..]);
      assert [word[0]] + word[1..] == word;
      if AllAscii(word[1..]) && IsAscii(word[0]) {
        forall i | 0 <= i < |word| ensures IsAscii(word[i]) {
          if i > 0 {
            assert word[i] == word[1..][i - 1];
          }
        }
      }
      if AllAscii(word) {
        forall i | 0 <= i < |word[1..]| ensures IsAscii(word[1..][i]) {
          assert word[1..][i] == word[i + 1];
        }
      }
    }
  }

  predicate WordOk(word: string) {
    word != "" && AllAscii(word)
  }

  predicate WordsOk(words: seq<string>) {
    forall i :: 0 <= i < |words| ==> WordOk(words[i])
  }

  predicate AllBytes(words: seq<string>) {
    forall i, j :: 0 <= i < |words| && 0 <= j < |words[i]| ==> IsByte(words[i][j])
  }

  lemma {:induction false} SurvivingExactly(words: seq<string>)
    requires AllBytes(words)
    ensures |Surviving(words)| <= |words|
    ensures Surviving(words) == words <==> WordsOk(words)
    decreases |words|
  {
    hide WidenedAll;
    if words != [] {
      var tail := words[1..];
      forall i, j | 0 <= i < |tail| && 0 <= j < |tail[i]| ensures IsByte(tail[i][j]) {
        assert tail[i] == words[i + 1];
      }
      SurvivingExactly(tail);
      WidenedLength(words[0]);
      assert words == [words[0]] + tail;
      assert WordsOk(words) <==> WordOk(words[0]) && WordsOk(tail) by {
        SplitWordsOk(words);
      }
      if words[0] == "" {
        assert Surviving(words) == Surviving(tail);
      } else {
        var first := WidenedAll(words[0]);
        assert Surviving(words) == [first] + Surviving(tail);
        assert Surviving(words)[1..] == Surviving(tail);
        assert Surviving(words)[0] == first;
      }
    }
  }

  lemma SplitWordsOk(words: seq<string>)
    requires words != []
    ensures WordsOk(words) <==> WordOk(words[0]) && WordsOk(words[1..])
  {
    if WordOk(words[0]) && WordsOk(words[1..]) {
      forall i | 0 <= i < |words| ensures WordOk(words[i]) {
        if i > 0 {
          assert words[i] == words[1..][i - 1];
        }
      }
    }
    if WordsOk(words) {
      forall i | 0 <= i < |words[1..]| ensures WordOk(words[1..][i]) {
        assert words[1..][i] == words[i + 1];
      }
    }
  }

  lemma {:induction false} SurvivingAllExactly(commands: seq<seq<string>>)
    requires forall i :: 0 <= i < |commands| ==> AllBytes(commands[i])
    ensures |SurvivingAll(commands)| == |commands|
    ensures SurvivingAll(commands) == commands <==> forall i :: 0 <= i < |commands| ==> WordsOk(commands[i])
    decreases |commands|
  {
    hide Surviving, WordsOk, AllBytes;
    if commands != [] {
      var tail := commands[1..];
      assert forall i :: 0 <= i < |tail| ==> tail[i] == commands[i + 1];
      SurvivingAllExactly(tail);
      SurvivingExactly(commands[0]);
      var all := SurvivingAll(commands);
      assert all[0] == Surviving(commands[0]) && all[1..] == SurvivingAll(tail);
      assert commands == [commands[0]] + tail && all == [all[0]] + all[1..];
      if forall i :: 0 <= i < |commands| ==> WordsOk(commands[i]) {
        assert WordsOk(commands[0]);
        forall i | 0 <= i < |tail| ensures WordsOk(tail[i]) {
          assert tail[i] == commands[i + 1];
        }
      }
      if all == commands {
        forall i | 0 <= i < |commands| ensures WordsOk(commands[i]) {
          if i > 0 {
            assert tail[i - 1] == commands[i];
          }
        }
      }
    }
  }

  /** The round trip is exact if and only if no word is empty and every byte is ASCII. */
  lemma QuotingRoundTripIff(commands: seq<seq<string>>, joints: seq<Joint>)
    requires |commands| == |joints| + 1
    requires forall i :: 0 <= i < |commands| ==> commands[i] != [] && AllBytes(commands[i])
    ensures ParsedCommands(QuotedCommands(commands, joints)) == Plain(commands)
      <==> forall i :: 0 <= i < |commands| ==> WordsOk(commands[i])
  {
    hide ParsedCommands, QuotedCommands, WordsOk, AllBytes, SurvivingAll;
    QuotedCommandsParse(commands, joints);
    SurvivingAllExactly(commands);
  }

  // ----- what a lexer keeps -----

  /** The commands a lexer has closed stay in front of everything it closes later. */
  lemma {:induction false} LexedKeepsCommands(rest: string, st: Lexer)
    requires Lexed(rest, st).Plain?
    ensures |Lexed(rest, st).commands| > |st.commands|
    decreases |rest|
  {
    if rest != "" {
      var c, tail := rest[0], rest[1..];
      if st.escaped {
        LexedKeepsCommands(tail, Put(st, c).(escaped := false));
      } else if c == '\\' && st.quote != Single {
        LexedKeepsCommands(tail, st.(escaped := true));
      } else if st.quote != Unquoted {
        LexedKeepsCommands(tail, if c == (if st.quote == Single then '\'' else '"') then st.(quote := Unquoted) else Put(st, c));
      } else if c == '\'' || c == '"' {
        LexedKeepsCommands(tail, st.(quote := if c == '"' then Double else Single));
      } else if IsOperator(c) {
        LexedKeepsCommands(rest[OperatorLength(rest)..], FlushCommand(st));
      } else if c == ' ' || c == '\t' {
        LexedKeepsCommands(tail, FlushToken(st));
      } else {
        LexedKeepsCommands(tail, Put(st, c));
      }
    }
  }

  /** Words are never empty, and words of ASCII commands are ASCII. */
  predicate WellWorded(st: Lexer, ascii: bool) {
    && (ascii ==> AllAscii(st.token))
    && (forall i :: 0 <= i < |st.tokens| ==> st.tokens[i] != "" && (ascii ==> AllAscii(st.tokens[i])))
    && (forall i, j :: 0 <= i < |st.commands| && 0 <= j < |st.commands[i]| ==>
          st.commands[i][j] != "" && (ascii ==> AllAscii(st.commands[i][j])))
    && (forall i :: 0 <= i < |st.commands| ==> st.commands[i] != [])
  }

  lemma FlushKeepsWords(st: Lexer, ascii: bool)
    requires WellWorded(st, ascii)
    ensures WellWorded(FlushToken(st), ascii)
    ensures !NothingToFlush(st) ==> WellWorded(FlushCommand(st), ascii)
  {
    var f := FlushToken(st);
    assert WellWorded(f, ascii);
    if f.tokens != [] {
      var g := FlushCommand(st);
      assert g.commands == f.commands + [f.tokens] && g.tokens == [] && g.token == "";
    }
  }

  lemma PutKeepsWords(st: Lexer, c: char, ascii: bool)
    requires WellWorded(st, ascii) && (ascii ==> IsAscii(c))
    ensures WellWorded(Put(st, c), ascii)
  {
  }

  lemma {:induction false} LexedWords(rest: string, st: Lexer, ascii: bool)
    requires WellWorded(st, ascii) && (ascii ==> AllAscii(rest)) && Lexed(rest, st).Plain?
    ensures WellWorded(START.(commands := Lexed(rest, st).commands), ascii)
    decreases |rest|
  {
    if rest == "" {
      FlushKeepsWords(st, ascii);
    } else {
      var c, tail := rest[0], rest[1..];
      PutKeepsWords(st, c, ascii);
      if st.escaped {
        LexedWords(tail, Put(st, c).(escaped := false), ascii);
      } else if c == '\\' && st.quote != Single {
        LexedWords(tail, st.(escaped := true), ascii);
      } else if st.quote != Unquoted {
        LexedWords(tail, if c == (if st.quote == Single then '\'' else '"') then st.(quote := Unquoted) else Put(st, c), ascii);
      } else if c == '\'' || c == '"' {
        LexedWords(tail, st.(quote := if c == '"' then Double else Single), ascii);
      } else {
        FlushKeepsWords(st, ascii);
        if IsOperator(c) {
          LexedWords(rest[OperatorLength(rest)..], FlushCommand(st), ascii);
        } else if c == ' ' || c == '\t' {
          LexedWords(tail, FlushToken(st), ascii);
        } else {
          LexedWords(tail, Put(st, c), ascii);
        }
      }
    }
  }
}
