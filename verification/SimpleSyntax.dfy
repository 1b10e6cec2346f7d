/** The tokenizer for one command, told by the same scan of quotes and escapes, over runes. */
module SimpleSyntax {
  import opened Seqs
  import opened ShellWords
  import opened LiveSyntax
  import opened SimpleWords

  /** The first bytes of the runes: what decides about syntax. */
  function Heads(runes: seq<string>): string
    requires AreRunes(runes)
  {
    seq(|runes|, i requires 0 <= i < |runes| => runes[i][0])
  }

  /** An unquoted and unescaped character that ends a simple command. */
  predicate SimpleLive(s: string, i: nat)
    requires i < |s|
  {
    ModeAt(s, i) == Bare && s[i] in ";|&><`\n\r$"
  }

  predicate SimpleKept(s: string, i: nat)
    requires i < |s|
  {
    match ModeAt(s, i)
    case Bare => s[i] !in "\\'\";|&><`\n\r$ \t"
    case InSingle => s[i] != '\''
    case InDouble => s[i] !in "\"\\"
    case _ => true
  }

  /** The words from `i` on, cut at gaps; the empty ones are still there. */
  function SimpleCut(runes: seq<string>, i: nat): (words: seq<string>)
    requires AreRunes(runes) && i <= |runes|
    ensures |words| >= 1
    decreases |runes| - i
  {
    if i == |runes| then [""]
    else
      var rest := SimpleCut(runes, i + 1);
      if SimpleKept(Heads(runes), i) then [runes[i] + rest[0]] + rest[1..]
      else if Gap(Heads(runes), i) then [""] + rest
      else rest
  }

  predicate SimpleInStep(runes: seq<string>, i: nat, st: Lexer)
    requires AreRunes(runes) && i <= |runes|
  {
    ModeAt(Heads(runes), i) == ModeOf(st) && (st.quote == Single ==> !st.escaped)
  }

  /** All words, with what the tokenizer already holds. */
  function AllWords(st: Lexer, words: seq<string>): seq<string>
    requires |words| >= 1
  {
    st.tokens + NonEmpty([st.token + words[0]] + words[1..])
  }

  lemma CopyWords(st: Lexer, rune: string, rest: seq<string>)
    requires |rest| >= 1
    ensures AllWords(st, [rune + rest[0]] + rest[1..]) == AllWords(Copied(st, rune), rest)
  {
    hide NonEmpty;
    assert ([rune + rest[0]] + rest[1..])[1..] == rest[1..];
    Associative(st.token, rune, rest[0]);
  }

  lemma FlushWords(st: Lexer, rest: seq<string>)
    requires |rest| >= 1
    ensures AllWords(st, [""] + rest) == AllWords(FlushToken(st), rest)
  {
    assert ([""] + rest)[1..] == rest;
    EmptyUnit(st.token);
    EmptyUnit(rest[0]);
    assert [rest[0]] + rest[1..] == rest;
    assert ([st.token] + rest)[1..] == rest;
    if st.token == "" {
      EmptyUnit(NonEmpty(rest));
    } else {
      Associative(st.tokens, [st.token], NonEmpty(rest));
    }
  }

  lemma SimpleStep(runes: seq<string>, i: nat, st: Lexer) returns (next: Lexer)
    requires AreRunes(runes) && i < |runes| && SimpleInStep(runes, i, st) && !SimpleLive(Heads(runes), i)
    ensures SimpleLexed(runes[i..], st) == SimpleLexed(runes[i + 1..], next)
    ensures SimpleInStep(runes, i + 1, next)
    ensures AllWords(st, SimpleCut(runes, i)) == AllWords(next, SimpleCut(runes, i + 1))
  {
    hide AllWords;
    var rune, c := runes[i], Heads(runes)[i];
    assert IsRune(rune);
    assert runes[i..][0] == rune && runes[i..][1..] == runes[i + 1..];
    if SimpleKept(Heads(runes), i) {
      next := Copied(st, rune).(escaped := false);
      CopyWords(st, rune, SimpleCut(runes, i + 1));
      assert AllWords(next, SimpleCut(runes, i + 1)) == AllWords(Copied(st, rune), SimpleCut(runes, i + 1)) by {
        SameWords(Copied(st, rune), next, SimpleCut(runes, i + 1));
      }
      assert !st.escaped ==> next == Copied(st, rune);
    } else if Gap(Heads(runes), i) {
      next := FlushToken(st);
      FlushWords(st, SimpleCut(runes, i + 1));
    } else {
      if c == '\\' {
        next := st.(escaped := true);
      } else if st.quote != Unquoted {
        next := st.(quote := Unquoted);
      } else {
        next := st.(quote := if c == '"' then Double else Single);
      }
      SameWords(st, next, SimpleCut(runes, i + 1));
    }
  }

  lemma SameWords(st: Lexer, next: Lexer, words: seq<string>)
    requires |words| >= 1 && next.token == st.token && next.tokens == st.tokens
    ensures AllWords(next, words) == AllWords(st, words)
  {
  }

  lemma LastCut(st: Lexer)
    ensures AllWords(st, [""]) == FlushToken(st).tokens
  {
    EmptyUnit(st.token);
    assert [""][1..] == [];
    EmptyUnit([st.token]);
    NonEmptyOne(st.token);
    EmptyUnit(st.tokens);
  }

  predicate LiveFrom(s: string, i: nat) {
    exists j :: i <= j < |s| && SimpleLive(s, j)
  }

  function Verdict(s: string, i: nat, words: seq<string>): Parsed {
    if LiveFrom(s, i) then Opaque
    else if ModeAt(s, |s|) != Bare then Bad(Unfinished)
    else if words == [] then Bad(EmptyInput)
    else Plain([words])
  }

  lemma {:induction false} SimpleOutcome(runes: seq<string>, i: nat, st: Lexer)
    requires AreRunes(runes) && i <= |runes| && SimpleInStep(runes, i, st)
    ensures SimpleLexed(runes[i..], st) == Verdict(Heads(runes), i, AllWords(st, SimpleCut(runes, i)))
    decreases |runes| - i
  {
    hide AllWords, SimpleInStep, SimpleLexed, SimpleLive, SimpleCut;
    if i == |runes| {
      SimpleEnd(runes, st);
    } else if SimpleLive(Heads(runes), i) {
      LiveRune(runes, i, st);
    } else {
      var next := SimpleStep(runes, i, st);
      SimpleOutcome(runes, i + 1, next);
    }
  }

  lemma SimpleEnd(runes: seq<string>, st: Lexer)
    requires AreRunes(runes) && SimpleInStep(runes, |runes|, st)
    ensures SimpleLexed(runes[|runes|..], st) == Verdict(Heads(runes), |runes|, AllWords(st, SimpleCut(runes, |runes|)))
  {
    hide AllWords, SimpleLive;
    LastCut(st);
  }

  lemma LiveRune(runes: seq<string>, i: nat, st: Lexer)
    requires AreRunes(runes) && i < |runes| && SimpleInStep(runes, i, st) && SimpleLive(Heads(runes), i)
    ensures SimpleLexed(runes[i..], st) == Verdict(Heads(runes), i, AllWords(st, SimpleCut(runes, i)))
  {
    hide AllWords, SimpleCut;
    assert IsRune(runes[i]) && runes[i..][0] == runes[i];
  }

  /** What each simple command is called: opaque exactly when a character that ends it is neither
      quoted nor escaped, bad when a quote or an escape stays open or no word is left, and plain
      otherwise, with the words that the scan keeps. */
  lemma SimpleIff(text: seq<string>)
    requires AreRunes(text)
    ensures AreRunes(WithoutEnds(text))
    ensures var runes, parsed := WithoutEnds(text), SimpleCommand(text);
      var heads, words := Heads(runes), NonEmpty(SimpleCut(runes, 0));
      && (parsed == Opaque <==> exists j :: 0 <= j < |heads| && SimpleLive(heads, j))
      && (parsed == Bad(Unfinished) <==>
          (forall j :: 0 <= j < |heads| ==> !SimpleLive(heads, j)) && ModeAt(heads, |heads|) != Bare)
      && (parsed == Bad(EmptyInput) <==>
          (forall j :: 0 <= j < |heads| ==> !SimpleLive(heads, j)) && ModeAt(heads, |heads|) == Bare && words == [])
      && (parsed.Plain? ==> parsed == Plain([words]))
  {
    hide SimpleLexed, SimpleLive, NonEmpty;
    EndsTrimmed(text);
    var runes := WithoutEnds(text);
    assert runes[0..] == runes;
    SimpleOutcome(runes, 0, START);
    FromStart(SimpleCut(runes, 0));
    NonEmptyOne("");
  }

  lemma FromStart(words: seq<string>)
    requires |words| >= 1
    ensures AllWords(START, words) == NonEmpty(words)
  {
    hide NonEmpty;
    EmptyUnit(words[0]);
    assert [words[0]] + words[1..] == words;
    EmptyUnit(NonEmpty(words));
  }
}
