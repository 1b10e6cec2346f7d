/** The tokenizer for one command without operators. It steps through runes, where the other
    tokenizer steps through bytes. */
module SimpleWords {
  import opened Seqs
  import opened ShellWords

  // ----- runes -----

  /** A rune of valid UTF-8, as its bytes: one ASCII byte, or several bytes none of which is. */
  predicate IsRune(rune: string) {
    || (|rune| == 1 && IsAscii(rune[0]))
    || (|rune| > 1 && forall i :: 0 <= i < |rune| ==> IsByte(rune[i]) && !IsAscii(rune[i]))
  }

  predicate AreRunes(runes: seq<string>) {
    forall i :: 0 <= i < |runes| ==> IsRune(runes[i])
  }

  function Bytes(runes: seq<string>): string {
    if runes == [] then "" else runes[0] + Bytes(runes[1..])
  }

  predicate IsBlankRune(rune: string) {
    |rune| == 1 && IsBlank(rune[0])
  }

  function WithoutLeading(runes: seq<string>): seq<string> {
    if runes != [] && IsBlankRune(runes[0]) then WithoutLeading(runes[1..]) else runes
  }

  function WithoutTrailing(runes: seq<string>): seq<string> {
    if runes != [] && IsBlankRune(runes[|runes| - 1]) then WithoutTrailing(runes[..|runes| - 1]) else runes
  }

  function WithoutEnds(runes: seq<string>): seq<string> {
    WithoutLeading(WithoutTrailing(runes))
  }

  // ----- the tokenizer -----

  predicate SimpleStop(c: char) {
    c == ';' || c == '|' || c == '&' || c == '>' || c == '<' || c == '`' || c == '\n' || c == '\r' || c == '$'
  }

  function Copied(st: Lexer, rune: string): Lexer {
    st.(token := st.token + rune)
  }

  function SimpleFinished(st: Lexer): Parsed {
    if st.escaped || st.quote != Unquoted then Bad(Unfinished)
    else if NothingToFlush(st) then Bad(EmptyInput)
    else Plain([FlushToken(st).tokens])
  }

  function SimpleLexed(rest: seq<string>, st: Lexer): Parsed
    decreases |rest|
  {
    if rest == [] then SimpleFinished(st)
    else
      var rune, tail := rest[0], rest[1..];
      if st.escaped then SimpleLexed(tail, Copied(st, rune).(escaped := false))
      else if rune == "\\" && st.quote != Single then SimpleLexed(tail, st.(escaped := true))
      else if st.quote != Unquoted then
        if rune == (if st.quote == Single then "'" else "\"") then SimpleLexed(tail, st.(quote := Unquoted))
        else SimpleLexed(tail, Copied(st, rune))
      else if rune == "'" || rune == "\"" then SimpleLexed(tail, st.(quote := if rune == "\"" then Double else Single))
      else if |rune| == 1 && SimpleStop(rune[0]) then Opaque
      else if rune == " " || rune == "\t" then SimpleLexed(tail, FlushToken(st))
      else SimpleLexed(tail, Copied(st, rune))
  }

  function SimpleCommand(command: seq<string>): Parsed {
    if WithoutEnds(command) == [] then Bad(EmptyInput) else SimpleLexed(WithoutEnds(command), START)
  }

  method ParseSimpleCommand(text: seq<string>) returns (parsed: Parsed)
    ensures parsed == SimpleCommand(text)
  {
    var command := WithoutEnds(text);
    if command == [] {
      return Bad(EmptyInput);
    }
    var st := START;
    assert command[0..] == command;
    for index := 0 to |command|
      invariant SimpleLexed(command[index..], st) == SimpleLexed(command, START)
    {
      var character := command[index];
      assert command[index..][1..] == command[index + 1..];
      if st.escaped {
        st := Copied(st, character).(escaped := false);
      } else if character == "\\" && st.quote != Single {
        st := st.(escaped := true);
      } else if st.quote != Unquoted {
        if character == (if st.quote == Single then "'" else "\"") {
          st := st.(quote := Unquoted);
        } else {
          st := Copied(st, character);
        }
      } else if character == "'" || character == "\"" {
        st := st.(quote := if character == "\"" then Double else Single);
      } else if |character| == 1 && SimpleStop(character[0]) {
        return Opaque;
      } else if character == " " || character == "\t" {
        st := FlushToken(st);
      } else {
        st := Copied(st, character);
      }
    }
    return SimpleFinished(st);
  }

  // ----- the two tokenizers on one command -----

  function WidenedWords(words: seq<string>): seq<string> {
    seq(|words|, i requires 0 <= i < |words| => WidenedAll(words[i]))
  }

  /** The byte tokenizer's state where the rune tokenizer is in the given one. */
  function WidenedLexer(st: Lexer): Lexer {
    st.(token := WidenedAll(st.token), tokens := WidenedWords(st.tokens))
  }

  lemma {:induction false} WidenedAppend(a: string, b: string)
    ensures WidenedAll(a + b) == WidenedAll(a) + WidenedAll(b)
  {
    if a == "" {
      EmptyUnit(b);
      EmptyUnit(WidenedAll(b));
    } else {
      assert (a + b)[1..] == a[1..] + b;
      WidenedAppend(a[1..], b);
      Associative(if IsByte(a[0]) then Widened(a[0]) else [a[0]], WidenedAll(a[1..]), WidenedAll(b));
    }
  }

  lemma WidenedCopy(st: Lexer, rune: string)
    ensures WidenedLexer(Copied(st, rune)) == Typed(WidenedLexer(st), rune)
  {
    WidenedAppend(st.token, rune);
  }

  lemma WidenedFlush(st: Lexer)
    ensures WidenedLexer(FlushToken(st)) == FlushToken(WidenedLexer(st))
    ensures NothingToFlush(WidenedLexer(st)) <==> NothingToFlush(st)
  {
    WidenedNonEmpty(st.token);
    assert WidenedAll("") == "";
    assert WidenedWords(st.tokens + [st.token]) == WidenedWords(st.tokens) + [WidenedAll(st.token)];
  }

  /** Bytes that are no ASCII characters are copied in every state. */
  lemma {:induction false} WideBytesAreTyped(bytes: string, tail: string, st: Lexer)
    requires bytes != "" && forall i :: 0 <= i < |bytes| ==> IsByte(bytes[i]) && !IsAscii(bytes[i])
    ensures Lexed(bytes + tail, st) == Lexed(tail, Typed(st, bytes).(escaped := false))
    decreases |bytes|
  {
    var next := Put(st, bytes[0]).(escaped := false);
    OneWideByte(bytes[0], bytes[1..] + tail, st);
    assert bytes + tail == [bytes[0]] + (bytes[1..] + tail);
    if |bytes| == 1 {
      assert bytes == [bytes[0]] && bytes[1..] == "";
      EmptyUnit(tail);
      EmptyUnit(Widened(bytes[0]));
      assert WidenedAll(bytes) == Widened(bytes[0]);
    } else {
      hide Lexed, Put, Typed;
      WideBytesAreTyped(bytes[1..], tail, next);
      TypedWide(st, bytes);
    }
  }

  lemma OneWideByte(c: char, tail: string, st: Lexer)
    requires IsByte(c) && !IsAscii(c)
    ensures Lexed([c] + tail, st) == Lexed(tail, Put(st, c).(escaped := false))
  {
    assert ([c] + tail)[1..] == tail && ([c] + tail)[0] == c;
  }

  lemma TypedWide(st: Lexer, bytes: string)
    requires bytes != ""
    ensures Typed(Put(st, bytes[0]).(escaped := false), bytes[1..]).(escaped := false) == Typed(st, bytes).(escaped := false)
  {
    TypedStep(st, bytes);
  }

  lemma OneAsciiRune(rune: string, tail: string)
    requires |rune| == 1
    ensures (rune + tail)[0] == rune[0] && (rune + tail)[1..] == tail && rune + tail != ""
  {
  }

  /** One rune of plain syntax takes both tokenizers to corresponding states. */
  lemma {:induction false} RunesAgree(rest: seq<string>, st: Lexer)
    requires AreRunes(rest) && st.commands == []
    requires Lexed(Bytes(rest), WidenedLexer(st)).Plain? && |Lexed(Bytes(rest), WidenedLexer(st)).commands| == 1
    ensures var simple := SimpleLexed(rest, st);
      && simple.Plain? && |simple.commands| == 1
      && Lexed(Bytes(rest), WidenedLexer(st)) == Plain([WidenedWords(simple.commands[0])])
    decreases |rest|
  {
    hide WidenedLexer, WidenedWords, Copied, FlushToken, NothingToFlush, Typed, Put;
    if rest == [] {
      EndsAgree(st);
    } else {
      var rune, tail := rest[0], rest[1..];
      var wide, copied := WidenedLexer(st), Copied(st, rune).(escaped := false);
      WidenedCopy(st, rune);
      WidenedFlush(st);
      SameMode(st);
      SameMode(Copied(st, rune));
      if |rune| > 1 {
        hide Lexed, SimpleLexed;
        WideBytesAreTyped(rune, Bytes(tail), wide);
        SimpleWide(rest, st);
        WidenedModes(Copied(st, rune), copied);
        RunesAgree(tail, copied);
      } else {
        var c := rune[0];
        OneAsciiRune(rune, Bytes(tail));
        TypedOne(wide, rune);
        if st.escaped {
          WidenedModes(Copied(st, rune), copied);
          RunesAgree(tail, copied);
        } else if c == '\\' && st.quote != Single {
          WidenedModes(st, st.(escaped := true));
          RunesAgree(tail, st.(escaped := true));
        } else if st.quote != Unquoted {
          if c == (if st.quote == Single then '\'' else '"') {
            WidenedModes(st, st.(quote := Unquoted));
            RunesAgree(tail, st.(quote := Unquoted));
          } else {
            RunesAgree(tail, Copied(st, rune));
          }
        } else if c == '\'' || c == '"' {
          var next := st.(quote := if c == '"' then Double else Single);
          WidenedModes(st, next);
          RunesAgree(tail, next);
        } else if IsOperator(c) {
          LexedKeepsCommands(Bytes(rest)[OperatorLength(Bytes(rest))..], FlushCommand(wide));
        } else if c == ' ' || c == '\t' {
          RunesAgree(tail, FlushToken(st));
        } else {
          RunesAgree(tail, Copied(st, rune));
        }
      }
    }
  }

  lemma SameMode(st: Lexer)
    ensures WidenedLexer(st).quote == st.quote && WidenedLexer(st).escaped == st.escaped && WidenedLexer(st).commands == st.commands
    ensures FlushToken(st).commands == st.commands
    ensures forall rune :: Copied(st, rune).commands == st.commands
  {
  }

  lemma WidenedModes(st: Lexer, next: Lexer)
    requires next == st.(quote := next.quote, escaped := next.escaped)
    ensures WidenedLexer(next) == WidenedLexer(st).(quote := next.quote, escaped := next.escaped)
  {
  }

  lemma TypedOne(st: Lexer, rune: string)
    requires |rune| == 1
    ensures Typed(st, rune) == Put(st, rune[0])
  {
    var first := if IsByte(rune[0]) then Widened(rune[0]) else [rune[0]];
    assert rune[1..] == "";
    EmptyUnit(first);
    assert WidenedAll(rune) == first + WidenedAll(rune[1..]);
  }

  lemma SimpleWide(rest: seq<string>, st: Lexer)
    requires rest != [] && |rest[0]| > 1
    ensures SimpleLexed(rest, st) == SimpleLexed(rest[1..], Copied(st, rest[0]).(escaped := false))
  {
    assert !st.escaped ==> Copied(st, rest[0]).(escaped := false) == Copied(st, rest[0]);
  }

  lemma EndsAgree(st: Lexer)
    requires st.commands == [] && Lexed("", WidenedLexer(st)).Plain?
    ensures SimpleFinished(st).Plain? && |SimpleFinished(st).commands| == 1
    ensures Lexed("", WidenedLexer(st)) == Plain([WidenedWords(SimpleFinished(st).commands[0])])
  {
    WidenedFlush(st);
    var flushed := FlushToken(WidenedLexer(st));
    assert [] + [flushed.tokens] == [flushed.tokens];
  }

  // ----- white space at the ends -----

  lemma {:induction false} BytesAppend(a: seq<string>, b: seq<string>)
    ensures Bytes(a + b) == Bytes(a) + Bytes(b)
  {
    if a == [] {
      EmptyUnit(b);
      EmptyUnit(Bytes(b));
    } else {
      assert (a + b)[1..] == a[1..] + b;
      BytesAppend(a[1..], b);
      Associative(a[0], Bytes(a[1..]), Bytes(b));
    }
  }

  lemma BytesOfOne(rune: string)
    ensures Bytes([rune]) == rune
  {
    var none: seq<string> := [];
    assert [rune][1..] == none;
    EmptyUnit(rune);
  }

  lemma {:induction false} LeadingAgrees(runes: seq<string>)
    requires AreRunes(runes)
    ensures Bytes(WithoutLeading(runes)) == TrimmedLeft(Bytes(runes))
    ensures AreRunes(WithoutLeading(runes))
  {
    if runes != [] {
      LeadingAgrees(runes[1..]);
      assert IsRune(runes[0]);
      assert Bytes(runes)[0] == runes[0][0];
      if |runes[0]| == 1 {
        OneAsciiRune(runes[0], Bytes(runes[1..]));
      }
    }
  }

  lemma {:induction false} TrailingAgrees(runes: seq<string>)
    requires AreRunes(runes)
    ensures Bytes(WithoutTrailing(runes)) == TrimmedRight(Bytes(runes))
    ensures AreRunes(WithoutTrailing(runes))
  {
    if runes != [] {
      var n := |runes| - 1;
      var front, rune := runes[..n], runes[n];
      TrailingAgrees(front);
      assert IsRune(rune);
      assert runes == front + [rune];
      BytesAppend(front, [rune]);
      BytesOfOne(rune);
      assert Bytes(runes)[|Bytes(runes)| - 1] == rune[|rune| - 1];
      if |rune| == 1 {
        assert Bytes(runes)[..|Bytes(runes)| - 1] == Bytes(front);
      }
    }
  }

  lemma EndsTrimmed(runes: seq<string>)
    requires AreRunes(runes)
    ensures AreRunes(WithoutEnds(runes)) && Bytes(WithoutEnds(runes)) == Trimmed(Bytes(runes))
    ensures WithoutEnds(runes) == [] <==> Trimmed(Bytes(runes)) == ""
  {
    TrailingAgrees(runes);
    LeadingAgrees(WithoutTrailing(runes));
  }

  // ----- exactly when they agree -----

  predicate AsciiState(st: Lexer) {
    AllAscii(st.token) && forall i :: 0 <= i < |st.tokens| ==> AllAscii(st.tokens[i])
  }

  predicate ByteState(st: Lexer) {
    AllBytes(st.tokens + [st.token])
  }

  lemma CopiedState(st: Lexer, rune: string, escaped: bool)
    requires IsRune(rune)
    ensures var next := Copied(st, rune).(escaped := escaped);
      && (AsciiState(next) <==> AsciiState(st) && AllAscii(rune))
      && (ByteState(st) ==> ByteState(next))
  {
    AsciiAppend(st.token, rune);
    var before, after := st.tokens + [st.token], st.tokens + [st.token + rune];
    assert ByteState(st) ==> AllBytes(after) by {
      if ByteState(st) {
        forall i, j | 0 <= i < |after| && 0 <= j < |after[i]|
          ensures IsByte(after[i][j])
        {
          if i < |st.tokens| {
            assert after[i] == before[i];
          } else if j < |st.token| {
            assert after[i][j] == before[i][j];
          }
        }
      }
    }
  }

  lemma AsciiAppend(a: string, b: string)
    ensures AllAscii(a + b) <==> AllAscii(a) && AllAscii(b)
  {
    assert forall i :: 0 <= i < |a| ==> (a + b)[i] == a[i];
    assert forall i :: 0 <= i < |b| ==> (a + b)[|a| + i] == b[i];
  }

  lemma FlushedState(st: Lexer)
    ensures AsciiState(FlushToken(st)) <==> AsciiState(st)
    ensures ByteState(st) ==> ByteState(FlushToken(st))
  {
    var f := FlushToken(st);
    if st.token != "" {
      assert f.tokens == st.tokens + [st.token] && f.token == "";
      assert AsciiState(f) ==> AsciiState(st) by {
        assert f.tokens[|st.tokens|] == st.token;
        assert forall i :: 0 <= i < |st.tokens| ==> f.tokens[i] == st.tokens[i];
      }
      assert forall i :: 0 <= i < |f.tokens + [f.token]| && (f.tokens + [f.token])[i] != "" ==>
        i < |st.tokens + [st.token]| && (f.tokens + [f.token])[i] == (st.tokens + [st.token])[i];
    }
  }

  lemma ModeState(st: Lexer, next: Lexer)
    requires next == st.(quote := next.quote, escaped := next.escaped)
    ensures (AsciiState(next) <==> AsciiState(st)) && (ByteState(next) <==> ByteState(st))
  {
  }

  /** The words are all ASCII exactly when all of the command is. */
  lemma {:induction false} WordsTellAscii(rest: seq<string>, st: Lexer)
    requires AreRunes(rest) && ByteState(st) && SimpleLexed(rest, st).Plain?
    ensures |SimpleLexed(rest, st).commands| == 1
    ensures var words := SimpleLexed(rest, st).commands[0];
      && AllBytes(words)
      && ((forall i :: 0 <= i < |words| ==> AllAscii(words[i])) <==> AsciiState(st) && AllAscii(Bytes(rest)))
    decreases |rest|
  {
    hide AsciiState, ByteState, AllBytes, AllAscii, FlushToken, Copied;
    if rest == [] {
      LastWords(st);
    } else {
      var rune, tail := rest[0], rest[1..];
      assert IsRune(rune);
      AsciiAppend(rune, Bytes(tail));
      CopiedState(st, rune, false);
      CopiedState(st, rune, st.escaped);
      FlushedState(st);
      SyntaxIsAscii(rune);
      assert Copied(st, rune).(escaped := st.escaped) == Copied(st, rune) by {
        SameMode(st);
        CopyKeepsMode(st, rune);
      }
      if st.escaped {
        WordsTellAscii(tail, Copied(st, rune).(escaped := false));
      } else if rune == "\\" && st.quote != Single {
        ModeState(st, st.(escaped := true));
        WordsTellAscii(tail, st.(escaped := true));
      } else if st.quote != Unquoted {
        if rune == (if st.quote == Single then "'" else "\"") {
          ModeState(st, st.(quote := Unquoted));
          WordsTellAscii(tail, st.(quote := Unquoted));
        } else {
          WordsTellAscii(tail, Copied(st, rune));
        }
      } else if rune == "'" || rune == "\"" {
        var next := st.(quote := if rune == "\"" then Double else Single);
        ModeState(st, next);
        WordsTellAscii(tail, next);
      } else if rune == " " || rune == "\t" {
        WordsTellAscii(tail, FlushToken(st));
      } else {
        WordsTellAscii(tail, Copied(st, rune));
      }
    }
  }

  lemma CopyKeepsMode(st: Lexer, rune: string)
    ensures Copied(st, rune).(escaped := st.escaped) == Copied(st, rune)
  {
  }

  lemma SyntaxIsAscii(rune: string)
    requires IsRune(rune)
    ensures |rune| == 1 ==> AllAscii(rune)
  {
  }

  lemma LastWords(st: Lexer)
    requires ByteState(st) && SimpleFinished(st).Plain?
    ensures var words := SimpleFinished(st).commands[0];
      && AllBytes(words)
      && ((forall i :: 0 <= i < |words| ==> AllAscii(words[i])) <==> AsciiState(st))
    ensures AllAscii("")
  {
    FlushedState(st);
    var f := FlushToken(st);
    assert f.token == "" && SimpleFinished(st).commands[0] == f.tokens;
    assert forall i :: 0 <= i < |f.tokens| ==> f.tokens[i] == (f.tokens + [f.token])[i];
  }

  lemma {:induction false} WidenedWordsSame(words: seq<string>)
    requires AllBytes(words)
    ensures WidenedWords(words) == words <==> forall i :: 0 <= i < |words| ==> AllAscii(words[i])
  {
    forall i | 0 <= i < |words|
      ensures WidenedAll(words[i]) == words[i] <==> AllAscii(words[i])
    {
      WidenedLength(words[i]);
    }
    assert WidenedWords(words) == words ==> forall i :: 0 <= i < |words| ==> WidenedWords(words)[i] == words[i];
  }

  /** Whenever the byte tokenizer yields one plain command, the rune tokenizer yields one too,
      and the first one's words are the other's with every byte widened: the same words exactly
      when the command is ASCII. */
  lemma SimpleAgreesIff(text: seq<string>)
    requires AreRunes(text)
    requires ParsedCommands(Bytes(text)).Plain? && |ParsedCommands(Bytes(text)).commands| == 1
    ensures SimpleCommand(text).Plain? && |SimpleCommand(text).commands| == 1
    ensures ParsedCommands(Bytes(text)) == Plain([WidenedWords(SimpleCommand(text).commands[0])])
    ensures SimpleCommand(text) == ParsedCommands(Bytes(text)) <==> AllAscii(Trimmed(Bytes(text)))
  {
    hide Lexed, SimpleLexed, Trimmed, WithoutEnds, AllAscii, AreRunes, Bytes, WidenedWords;
    var command := WithoutEnds(text);
    EndsTrimmed(text);
    StartIsAscii();
    RunesAgree(command, START);
    WordsTellAscii(command, START);
    WidenedWordsSame(SimpleCommand(text).commands[0]);
    assert SimpleCommand(text) == Plain([SimpleCommand(text).commands[0]]);
  }

  lemma StartIsAscii()
    ensures AsciiState(START) && ByteState(START) && WidenedLexer(START) == START
  {
    assert WidenedWords([]) == [];
  }
}
