/** What the tokenizer makes of each position of a command, told by a scan of quotes and
    escapes alone, and which commands it therefore calls plain, opaque or bad. */
module LiveSyntax {
  import opened Seqs
  import opened ShellWords

  /** What surrounds a position: nothing, a backslash, quotes, quotes and a backslash, or the
      first half of an operator. */
  datatype Mode = Bare | Escape | InSingle | InDouble | DoubleEscape | Second

  predicate Doubled(s: string, i: nat)
    requires i < |s|
  {
    i + 1 < |s| && s[i + 1] == s[i]
  }

  function After(mode: Mode, s: string, i: nat): Mode
    requires i < |s|
  {
    match mode
    case Bare =>
      if s[i] == '\\' then Escape
      else if s[i] == '\'' then InSingle
      else if s[i] == '"' then InDouble
      else if s[i] in "&|" && Doubled(s, i) then Second
      else Bare
    case InSingle => if s[i] == '\'' then Bare else InSingle
    case InDouble => if s[i] == '"' then Bare else if s[i] == '\\' then DoubleEscape else InDouble
    case DoubleEscape => InDouble
    case Escape => Bare
    case Second => Bare
  }

  function ModeAt(s: string, i: nat): Mode
    requires i <= |s|
  {
    if i == 0 then Bare else After(ModeAt(s, i - 1), s, i - 1)
  }

  /** An expansion, a redirection, a group, a new line or a background job: an unquoted and
      unescaped character for one, or an expansion inside double quotes. */
  predicate Live(s: string, i: nat)
    requires i < |s|
  {
    match ModeAt(s, i)
    case Bare => s[i] in "$`><(){}\n\r" || (s[i] == '&' && !Doubled(s, i))
    case InDouble => s[i] in "$`"
    case _ => false
  }

  /** The first character of an operator between commands. */
  predicate Separator(s: string, i: nat)
    requires i < |s|
  {
    ModeAt(s, i) == Bare && (s[i] in ";|" || (s[i] == '&' && Doubled(s, i)))
  }

  /** White space between words. */
  predicate Gap(s: string, i: nat)
    requires i < |s|
  {
    ModeAt(s, i) == Bare && s[i] in " \t"
  }

  /** A character that ends up in a word. */
  predicate Kept(s: string, i: nat)
    requires i < |s|
  {
    match ModeAt(s, i)
    case Bare => s[i] !in "\\'\"$`><(){}\n\r;|& \t"
    case InSingle => s[i] != '\''
    case InDouble => s[i] !in "\"\\$`"
    case Second => false
    case _ => true
  }

  /** No character is kept between the last operator before `i`, if any, and `i`. */
  predicate EmptyBefore(s: string, i: nat)
    requires i <= |s|
  {
    i > 0 ==> !Kept(s, i - 1) && (Separator(s, i - 1) || EmptyBefore(s, i - 1))
  }

  /** An operator with no command before it. */
  predicate Dangling(s: string, i: nat)
    requires i < |s|
  {
    Separator(s, i) && EmptyBefore(s, i)
  }

  predicate Stops(s: string, i: nat)
    requires i < |s|
  {
    Live(s, i) || Dangling(s, i)
  }

  /** The words from `i` on, cut at gaps and operators; the empty ones are still there. */
  function Cut(s: string, i: nat): (pieces: seq<seq<string>>)
    requires i <= |s|
    ensures |pieces| >= 1 && |pieces[0]| >= 1
    decreases |s| - i
  {
    if i == |s| then [[""]]
    else
      var rest := Cut(s, i + 1);
      if Kept(s, i) then [[WidenedAll([s[i]]) + rest[0][0]] + rest[0][1..]] + rest[1..]
      else if Gap(s, i) then [[""] + rest[0]] + rest[1..]
      else if Separator(s, i) then [[""]] + rest
      else rest
  }

  function NonEmpty(words: seq<string>): seq<string> {
    if words == [] then [] else (if words[0] == "" then [] else [words[0]]) + NonEmpty(words[1..])
  }

  function NonEmptyAll(pieces: seq<seq<string>>): seq<seq<string>> {
    seq(|pieces|, k requires 0 <= k < |pieces| => NonEmpty(pieces[k]))
  }

  // ----- the tokenizer keeps to the scan -----

  function ModeOf(st: Lexer): Mode {
    match st.quote
    case Unquoted => if st.escaped then Escape else Bare
    case Double => if st.escaped then DoubleEscape else InDouble
    case Single => InSingle
  }

  /** The tokenizer's state agrees with the scan. */
  predicate InStep(s: string, i: nat, st: Lexer)
    requires i <= |s|
  {
    && ModeAt(s, i) == ModeOf(st)
    && (st.quote == Single ==> !st.escaped)
    && (NothingToFlush(st) <==> EmptyBefore(s, i))
  }

  /** What the tokenizer adds to its state when it is given the pieces that follow. */
  function Completed(st: Lexer, pieces: seq<seq<string>>): seq<seq<string>>
    requires |pieces| >= 1 && |pieces[0]| >= 1
  {
    st.commands + [st.tokens + NonEmpty([st.token + pieces[0][0]] + pieces[0][1..])] + NonEmptyAll(pieces[1..])
  }

  function Outcome(s: string, i: nat, st: Lexer, p: nat): Parsed
    requires i <= |s| && p <= |s|
  {
    if p < |s| then (if Live(s, p) then Opaque else Bad(EmptyCommand))
    else if ModeAt(s, |s|) != Bare then Bad(Unfinished)
    else if EmptyBefore(s, |s|) then Bad(EmptyCommand)
    else Plain(Completed(st, Cut(s, i)))
  }

  lemma WidenedOne(c: char)
    ensures WidenedAll([c]) == if IsByte(c) then Widened(c) else [c]
  {
    assert [c][1..] == "";
    EmptyUnit(if IsByte(c) then Widened(c) else [c]);
  }

  lemma PutCompletes(st: Lexer, c: char, rest: seq<seq<string>>)
    requires |rest| >= 1 && |rest[0]| >= 1
    ensures Completed(st, [[WidenedAll([c]) + rest[0][0]] + rest[0][1..]] + rest[1..]) == Completed(Put(st, c), rest)
  {
    hide NonEmpty, NonEmptyAll, WidenedAll;
    WidenedOne(c);
    var w := WidenedAll([c]);
    var pieces := [[w + rest[0][0]] + rest[0][1..]] + rest[1..];
    assert pieces[0][1..] == rest[0][1..] && pieces[1..] == rest[1..];
    Associative(st.token, w, rest[0][0]);
  }

  lemma FlushCompletes(st: Lexer, rest: seq<seq<string>>)
    requires |rest| >= 1 && |rest[0]| >= 1
    ensures Completed(st, [[""] + rest[0]] + rest[1..]) == Completed(FlushToken(st), rest)
  {
    hide NonEmptyAll;
    var pieces := [[""] + rest[0]] + rest[1..];
    assert pieces[0][1..] == rest[0] && pieces[1..] == rest[1..];
    EmptyUnit(st.token);
    EmptyUnit(rest[0][0]);
    assert [rest[0][0]] + rest[0][1..] == rest[0];
    assert ([st.token] + rest[0])[1..] == rest[0];
    if st.token == "" {
      EmptyUnit(NonEmpty(rest[0]));
    } else {
      Associative(st.tokens, [st.token], NonEmpty(rest[0]));
    }
  }

  lemma NonEmptyOne(word: string)
    ensures NonEmpty([word]) == if word == "" then [] else [word]
  {
    assert [word][1..] == [];
    EmptyUnit(if word == "" then [] else [word]);
  }

  lemma CommandCompletes(st: Lexer, rest: seq<seq<string>>)
    requires |rest| >= 1 && |rest[0]| >= 1
    ensures Completed(st, [[""]] + rest) == Completed(FlushCommand(st), rest)
  {
    hide NonEmpty;
    var none: seq<string> := [];
    var pieces: seq<seq<string>> := [[""]] + rest;
    assert pieces[0][1..] == none && pieces[1..] == rest;
    EmptyUnit(st.token);
    EmptyUnit([st.token]);
    NonEmptyOne(st.token);
    EmptyUnit(st.tokens);
    var words := FlushToken(st).tokens;
    assert st.tokens + NonEmpty([st.token]) == words;
    EmptyUnit(rest[0][0]);
    assert [rest[0][0]] + rest[0][1..] == rest[0];
    EmptyUnit(NonEmpty(rest[0]));
    assert NonEmptyAll(rest) == [NonEmpty(rest[0])] + NonEmptyAll(rest[1..]);
    Associative(st.commands, [words], [NonEmpty(rest[0])] + NonEmptyAll(rest[1..]));
    Associative(st.commands + [words], [NonEmpty(rest[0])], NonEmptyAll(rest[1..]));
  }

  /** One step over a character that is kept. */
  lemma KeptStep(s: string, i: nat, st: Lexer)
    requires i < |s| && InStep(s, i, st) && Kept(s, i)
    ensures Lexed(s[i..], st) == Lexed(s[i + 1..], Put(st, s[i]).(escaped := false))
    ensures InStep(s, i + 1, Put(st, s[i]).(escaped := false))
    ensures Completed(st, Cut(s, i)) == Completed(Put(st, s[i]).(escaped := false), Cut(s, i + 1))
  {
    assert s[i..][0] == s[i] && s[i..][1..] == s[i + 1..];
    var next := Put(st, s[i]).(escaped := false);
    assert Lexed(s[i..], st) == Lexed(s[i + 1..], next) by {
      hide Cut, EmptyBefore, Put;
      assert !st.escaped ==> Put(st, s[i]) == next by { PutMode(st, s[i]); }
    }
    hide Lexed;
    assert ModeAt(s, i + 1) == ModeOf(next);
    assert next.token != "" by { PutKeeps(st, s[i]); }
    PutCompletes(st, s[i], Cut(s, i + 1));
  }

  lemma PutMode(st: Lexer, c: char)
    ensures Put(st, c).escaped == st.escaped && Put(st, c).quote == st.quote
  {
  }

  lemma PutKeeps(st: Lexer, c: char)
    ensures Put(st, c).token != ""
  {
  }

  /** One step over a quote or a backslash that is not kept. */
  lemma SilentStep(s: string, i: nat, st: Lexer) returns (next: Lexer)
    requires i < |s| && InStep(s, i, st) && !Kept(s, i) && !Gap(s, i) && !Separator(s, i) && !Live(s, i)
    ensures Lexed(s[i..], st) == Lexed(s[i + 1..], next)
    ensures InStep(s, i + 1, next)
    ensures Completed(st, Cut(s, i)) == Completed(next, Cut(s, i + 1))
  {
    assert s[i..][0] == s[i] && s[i..][1..] == s[i + 1..];
    if s[i] == '\\' {
      next := st.(escaped := true);
    } else if st.quote != Unquoted {
      next := st.(quote := Unquoted);
    } else {
      next := st.(quote := if s[i] == '"' then Double else Single);
    }
    assert Lexed(s[i..], st) == Lexed(s[i + 1..], next) by {
      hide Cut, EmptyBefore;
    }
  }

  lemma GapStep(s: string, i: nat, st: Lexer)
    requires i < |s| && InStep(s, i, st) && Gap(s, i)
    ensures Lexed(s[i..], st) == Lexed(s[i + 1..], FlushToken(st))
    ensures InStep(s, i + 1, FlushToken(st))
    ensures Completed(st, Cut(s, i)) == Completed(FlushToken(st), Cut(s, i + 1))
  {
    assert s[i..][0] == s[i] && s[i..][1..] == s[i + 1..];
    FlushCompletes(st, Cut(s, i + 1));
  }

  /** How many positions an operator takes, and what the scan says behind it. */
  function Behind(s: string, i: nat): nat
    requires i < |s|
  {
    if s[i] in "&|" && Doubled(s, i) then i + 2 else i + 1
  }

  lemma BehindSeparator(s: string, i: nat)
    requires i < |s| && Separator(s, i)
    ensures i < Behind(s, i) <= |s|
    ensures Behind(s, i) == i + 2 ==> !Stops(s, i + 1) && Cut(s, i + 1) == Cut(s, i + 2)
    ensures ModeAt(s, Behind(s, i)) == Bare && EmptyBefore(s, Behind(s, i))
  {
    hide WidenedAll;
    assert ModeAt(s, i + 1) == if Behind(s, i) == i + 1 then Bare else Second;
    assert EmptyBefore(s, i + 1);
    if Behind(s, i) == i + 2 {
      assert ModeAt(s, i + 2) == Bare;
      assert !Kept(s, i + 1) && !Gap(s, i + 1) && !Separator(s, i + 1) && !Live(s, i + 1);
    }
  }

  lemma LexSeparator(s: string, i: nat, st: Lexer)
    requires i < |s| && ModeOf(st) == Bare && Separator(s, i) && !NothingToFlush(st)
    ensures i < Behind(s, i) <= |s| && Lexed(s[i..], st) == Lexed(s[Behind(s, i)..], FlushCommand(st))
  {
    hide FlushCommand, NothingToFlush;
    assert s[i..][0] == s[i] && (i + 1 < |s| ==> s[i..][1] == s[i + 1]);
    assert i + OperatorLength(s[i..]) == Behind(s, i);
    assert s[i..][Behind(s, i) - i..] == s[Behind(s, i)..];
  }

  lemma SeparatorStep(s: string, i: nat, st: Lexer)
    requires i < |s| && InStep(s, i, st) && Separator(s, i) && !EmptyBefore(s, i)
    ensures i < Behind(s, i) <= |s| && (Behind(s, i) == i + 2 ==> !Stops(s, i + 1))
    ensures Lexed(s[i..], st) == Lexed(s[Behind(s, i)..], FlushCommand(st))
    ensures InStep(s, Behind(s, i), FlushCommand(st))
    ensures Completed(st, Cut(s, i)) == Completed(FlushCommand(st), Cut(s, Behind(s, i)))
  {
    hide Lexed, Completed, Stops;
    BehindSeparator(s, i);
    LexSeparator(s, i, st);
    assert Cut(s, i) == [[""]] + Cut(s, i + 1);
    CommandCompletes(st, Cut(s, i + 1));
  }

  lemma OneStep(s: string, i: nat, st: Lexer) returns (j: nat, next: Lexer)
    requires i < |s| && InStep(s, i, st) && !Stops(s, i)
    ensures i < j <= |s| && InStep(s, j, next)
    ensures forall k :: i <= k < j ==> !Stops(s, k)
    ensures Lexed(s[i..], st) == Lexed(s[j..], next)
    ensures Completed(st, Cut(s, i)) == Completed(next, Cut(s, j))
  {
    hide Lexed, InStep, Stops, Cut, Completed, EmptyBefore, ModeAt, Kept, Gap, Separator, Live;
    NotDangling(s, i);
    j := i + 1;
    if Kept(s, i) {
      next := Put(st, s[i]).(escaped := false);
      KeptStep(s, i, st);
    } else if Gap(s, i) {
      next := FlushToken(st);
      GapStep(s, i, st);
    } else if Separator(s, i) {
      next := FlushCommand(st);
      j := Behind(s, i);
      SeparatorStep(s, i, st);
    } else {
      next := SilentStep(s, i, st);
    }
  }

  /** Where the tokenizer stops, and with what. */
  lemma {:induction false} FirstStop(s: string, i: nat, st: Lexer) returns (p: nat)
    requires i <= |s| && InStep(s, i, st)
    ensures i <= p <= |s| && (p < |s| ==> Stops(s, p))
    ensures forall j :: i <= j < p ==> !Stops(s, j)
    ensures Lexed(s[i..], st) == Outcome(s, i, st, p)
    decreases |s| - i
  {
    hide Lexed, InStep, Stops, Cut, Completed, Outcome;
    if i == |s| {
      p := i;
      AtEnd(s, st);
    } else if Stops(s, i) {
      p := i;
      AtStop(s, i, st);
    } else {
      var j, next := OneStep(s, i, st);
      p := FirstStop(s, j, next);
      OutcomeMoves(s, i, st, j, next, p);
    }
  }

  lemma OutcomeMoves(s: string, i: nat, st: Lexer, j: nat, next: Lexer, p: nat)
    requires i <= |s| && j <= |s| && p <= |s| && Completed(st, Cut(s, i)) == Completed(next, Cut(s, j))
    ensures Outcome(s, i, st, p) == Outcome(s, j, next, p)
  {
    hide Completed, Cut;
  }

  lemma NotDangling(s: string, i: nat)
    requires i < |s| && !Stops(s, i)
    ensures !Live(s, i) && (Separator(s, i) ==> !EmptyBefore(s, i))
  {
  }

  lemma AtStop(s: string, i: nat, st: Lexer)
    requires i < |s| && InStep(s, i, st) && Stops(s, i)
    ensures Lexed(s[i..], st) == Outcome(s, i, st, i)
  {
    assert s[i..][0] == s[i] && (i + 1 < |s| ==> s[i..][1] == s[i + 1]);
  }

  lemma AtEnd(s: string, st: Lexer)
    requires InStep(s, |s|, st)
    ensures Lexed(s[|s|..], st) == Outcome(s, |s|, st, |s|)
  {
    NonEmptyOne(st.token);
    EmptyUnit(st.token);
    EmptyUnit(st.tokens);
    EmptyUnit([st.token]);
    var commands := FlushCommand(st).commands;
    EmptyUnit(commands);
  }

  // ----- what a command is called -----

  predicate Unstopped(s: string) {
    forall j :: 0 <= j < |s| ==> !Stops(s, j)
  }

  /** A live character that no dangling operator precedes. */
  predicate LiveFirst(s: string) {
    exists i :: 0 <= i < |s| && Live(s, i) && forall j :: 0 <= j < i ==> !Dangling(s, j)
  }

  /** A dangling operator that no live character precedes. */
  predicate DanglingFirst(s: string) {
    exists i :: 0 <= i < |s| && Dangling(s, i) && forall j :: 0 <= j < i ==> !Live(s, j)
  }

  lemma StopTellsFirst(s: string, p: nat)
    requires p <= |s| && (p < |s| ==> Stops(s, p)) && forall j :: 0 <= j < p ==> !Stops(s, j)
    ensures Unstopped(s) <==> p == |s|
    ensures LiveFirst(s) <==> p < |s| && Live(s, p)
    ensures DanglingFirst(s) <==> p < |s| && !Live(s, p)
  {
    hide Live, Dangling;
    forall i | 0 <= i < p
      ensures !Live(s, i) && !Dangling(s, i)
    {
      assert !Stops(s, i);
    }
    if p < |s| {
      assert Stops(s, p);
      if Live(s, p) {
        LiveIsNotDangling(s, p);
      }
    }
  }

  lemma LiveIsNotDangling(s: string, i: nat)
    requires i < |s| && Live(s, i)
    ensures !Dangling(s, i)
  {
    hide EmptyBefore, ModeAt;
  }

  lemma CompletedFromStart(pieces: seq<seq<string>>)
    requires |pieces| >= 1 && |pieces[0]| >= 1
    ensures Completed(START, pieces) == NonEmptyAll(pieces)
  {
    hide NonEmpty;
    EmptyUnit(pieces[0][0]);
    assert [pieces[0][0]] + pieces[0][1..] == pieces[0];
    EmptyUnit(NonEmpty(pieces[0]));
    EmptyUnit([NonEmpty(pieces[0])]);
    assert NonEmptyAll(pieces) == [NonEmpty(pieces[0])] + NonEmptyAll(pieces[1..]);
  }

  /** What each command is called, for all commands: opaque exactly when something live comes
      first, bad when an operator dangles first, when a quote or an escape stays open, or when
      the last command is empty, and plain otherwise, with the words that the scan keeps. */
  lemma ParsedIff(command: string)
    ensures var s, parsed := Trimmed(command), ParsedCommands(command);
      && (parsed == Bad(EmptyInput) <==> s == "")
      && (parsed == Opaque <==> LiveFirst(s))
      && (parsed == Bad(Unfinished) <==> Unstopped(s) && ModeAt(s, |s|) != Bare)
      && (parsed == Bad(EmptyCommand) <==>
          s != "" && (DanglingFirst(s) || (Unstopped(s) && ModeAt(s, |s|) == Bare && EmptyBefore(s, |s|))))
      && (parsed.Plain? <==> Unstopped(s) && ModeAt(s, |s|) == Bare && !EmptyBefore(s, |s|))
      && (parsed.Plain? ==> parsed == Plain(NonEmptyAll(Cut(s, 0))))
  {
    hide Lexed, Stops, Cut, Completed, Unstopped, LiveFirst, DanglingFirst, Trimmed;
    var s := Trimmed(command);
    assert s[0..] == s;
    var p := FirstStop(s, 0, START);
    StopTellsFirst(s, p);
    CompletedFromStart(Cut(s, 0));
  }

  /** A plain command has nothing live in it. */
  lemma PlainIsQuiet(command: string, i: nat)
    requires ParsedCommands(command).Plain? && i < |Trimmed(command)|
    ensures !Live(Trimmed(command), i)
  {
    hide ParsedCommands, Live, Dangling;
    ParsedIff(command);
    assert !Stops(Trimmed(command), i);
  }

  // ----- bytes and white space -----

  /** A widened byte is the UTF-8 form of the character with that code. */
  lemma WidenedDecodes(c: char)
    requires IsByte(c) && !IsAscii(c)
    ensures var w := Widened(c);
      && |w| == 2 && 0xC2 <= w[0] as int <= 0xC3 && 0x80 <= w[1] as int <= 0xBF
      && (w[0] as int - 0xC0) * 64 + (w[1] as int - 0x80) == c as int
  {
  }

  predicate AllBlank(s: string) {
    forall i :: 0 <= i < |s| ==> s[i] in " \t\n\U{000B}\U{000C}\r"
  }

  lemma {:induction false} RightTrimmed(s: string) returns (tail: string)
    ensures s == TrimmedRight(s) + tail && AllBlank(tail)
    ensures TrimmedRight(s) == "" || !AllBlank([TrimmedRight(s)[|TrimmedRight(s)| - 1]])
  {
    if s != "" && IsBlank(s[|s| - 1]) {
      tail := RightTrimmed(s[..|s| - 1]);
      tail := tail + [s[|s| - 1]];
    } else {
      tail := "";
      if s != "" {
        assert [s[|s| - 1]][0] == s[|s| - 1];
      }
    }
  }

  lemma {:induction false} LeftTrimmed(s: string) returns (head: string)
    ensures s == head + TrimmedLeft(s) && AllBlank(head)
    ensures TrimmedLeft(s) != "" ==>
      !AllBlank([TrimmedLeft(s)[0]]) && TrimmedLeft(s)[|TrimmedLeft(s)| - 1] == s[|s| - 1]
  {
    if s != "" && IsBlank(s[0]) {
      head := LeftTrimmed(s[1..]);
      head := [s[0]] + head;
    } else {
      head := "";
      if s != "" {
        assert [s[0]][0] == s[0];
      }
    }
  }

  /** Trimming takes the white space off both ends and nothing else. */
  lemma TrimmedEnds(s: string) returns (head: string, tail: string)
    ensures s == head + Trimmed(s) + tail && AllBlank(head) && AllBlank(tail)
    ensures Trimmed(s) != "" ==> !AllBlank([Trimmed(s)[0]]) && !AllBlank([Trimmed(s)[|Trimmed(s)| - 1]])
  {
    hide AllBlank, IsBlank;
    tail := RightTrimmed(s);
    head := LeftTrimmed(TrimmedRight(s));
  }
}
