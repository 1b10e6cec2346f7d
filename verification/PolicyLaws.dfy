/** What the command policy lets through, told by the shape of words, paths and rules. */
module PolicyLaws {
  import opened Seqs
  import opened Text
  import opened Wrappers
  import opened ShellWords
  import LiveSyntax
  import opened ExecPolicy

  /** Nothing with a live expansion, redirection, group, new line or background job passes,
      whatever the rules are. */
  lemma LiveSyntaxNeverPasses(policy: Policy, command: string, i: nat)
    requires i < |Trimmed(command)| && LiveSyntax.Live(Trimmed(command), i)
    ensures !Passes(policy, command)
  {
    hide ParsedCommands;
    if ParsedCommands(command).Plain? {
      LiveSyntax.PlainIsQuiet(command, i);
    }
  }

  // ----- names of programs -----

  predicate IsName(name: string) {
    name != "" && '/' !in name
  }

  lemma NameHasNoSlash(name: string, tail: string)
    requires IsName(name)
    ensures WithoutTrailingSlashes(tail + name) == tail + name
  {
    assert (tail + name)[|tail + name| - 1] == name[|name| - 1];
  }

  lemma {:induction false} LastName(path: string, name: string)
    requires '/' !in name && (path == "" || path[|path| - 1] == '/')
    ensures AfterLastSlash(path + name) == name
    decreases |name|
  {
    if name == "" {
      EmptyUnit(path);
    } else {
      var n := |name| - 1;
      assert (path + name)[|path + name| - 1] == name[n];
      assert (path + name)[..|path + name| - 1] == path + name[..n];
      LastName(path, name[..n]);
    }
  }

  /** The program of a path: a plain name is its own, what precedes a slash does not count, and
      neither do slashes at the end. Every path has one of these forms. */
  lemma ProgramOfPath(dir: string, name: string)
    requires IsName(name)
    ensures Base(name) == name
    ensures Base(dir + "/" + name) == name
    ensures Base(dir + "/") == if exists i :: 0 <= i < |dir| && dir[i] != '/' then Base(dir) else "/"
    ensures Base("") == "."
  {
    NameHasNoSlash(name, "");
    NameHasNoSlash(name, dir + "/");
    EmptyUnit(name);
    LastName("", name);
    LastName(dir + "/", name);
    assert (dir + "/")[..|dir|] == dir;
    SlashesGone(dir);
  }

  lemma {:induction false} SlashesGone(path: string)
    ensures WithoutTrailingSlashes(path) == "" <==> forall i :: 0 <= i < |path| ==> path[i] == '/'
  {
    if path != "" && path[|path| - 1] == '/' {
      SlashesGone(path[..|path| - 1]);
    }
  }

  // ----- arguments -----

  predicate AllQuotes(s: string) {
    forall i :: 0 <= i < |s| ==> s[i] in "'\""
  }

  /** `core` is `token` without the quotes at its ends. */
  ghost predicate QuotesAround(token: string, core: string) {
    && (core != "" ==> core[0] !in "'\"" && core[|core| - 1] !in "'\"")
    && exists head, tail :: token == head + core + tail && AllQuotes(head) && AllQuotes(tail)
  }

  /** A path that is absolute or climbs to a parent directory. */
  ghost predicate Climbs(path: string) {
    || (path != "" && path[0] == '/')
    || path == ".."
    || (exists rest :: path == "../" + rest)
    || (exists before, rest :: path == before + "/../" + rest)
  }

  lemma {:induction false} QuotesOnRight(s: string) returns (tail: string)
    ensures s == UnquotedRight(s) + tail && AllQuotes(tail)
    ensures UnquotedRight(s) != "" ==> UnquotedRight(s)[|UnquotedRight(s)| - 1] !in "'\""
  {
    if s != "" && IsQuote(s[|s| - 1]) {
      tail := QuotesOnRight(s[..|s| - 1]);
      tail := tail + [s[|s| - 1]];
    } else {
      tail := "";
    }
  }

  lemma {:induction false} QuotesOnLeft(s: string) returns (head: string)
    ensures s == head + UnquotedLeft(s) && AllQuotes(head)
    ensures UnquotedLeft(s) != "" ==>
      UnquotedLeft(s)[0] !in "'\"" && UnquotedLeft(s)[|UnquotedLeft(s)| - 1] == s[|s| - 1]
  {
    if s != "" && IsQuote(s[0]) {
      head := QuotesOnLeft(s[1..]);
      head := [s[0]] + head;
    } else {
      head := "";
    }
  }

  lemma {:induction false} UnquotedRightAppend(core: string, tail: string)
    requires AllQuotes(tail) && (core != "" ==> core[|core| - 1] !in "'\"")
    ensures UnquotedRight(core + tail) == core
    decreases |tail|
  {
    if tail == "" {
      EmptyUnit(core);
    } else {
      var n := |tail| - 1;
      assert (core + tail)[..|core + tail| - 1] == core + tail[..n];
      UnquotedRightAppend(core, tail[..n]);
    }
  }

  lemma {:induction false} UnquotedLeftPrepend(head: string, core: string)
    requires AllQuotes(head) && (core != "" ==> core[0] !in "'\"")
    ensures UnquotedLeft(head + core) == core
  {
    if head == "" {
      EmptyUnit(core);
    } else {
      assert (head + core)[1..] == head[1..] + core;
      UnquotedLeftPrepend(head[1..], core);
    }
  }

  lemma UnquotedIff(token: string, core: string)
    ensures UnquotedLeft(UnquotedRight(token)) == core <==> QuotesAround(token, core)
  {
    hide AllQuotes, UnquotedLeft, UnquotedRight;
    var right := UnquotedRight(token);
    var tail := QuotesOnRight(token);
    var head := QuotesOnLeft(right);
    if QuotesAround(token, core) {
      var a, b :| token == a + core + b && AllQuotes(a) && AllQuotes(b);
      UnquotedAround(a, core, b);
    }
  }

  lemma UnquotedAround(head: string, core: string, tail: string)
    requires AllQuotes(head) && AllQuotes(tail)
    requires core != "" ==> core[0] !in "'\"" && core[|core| - 1] !in "'\""
    ensures UnquotedLeft(UnquotedRight(head + core + tail)) == core
  {
    if core == "" {
      EmptyUnit(head);
      EmptyUnit(head + tail);
      UnquotedRightAppend("", head + tail);
    } else {
      UnquotedRightAppend(head + core, tail);
      UnquotedLeftPrepend(head, core);
    }
  }

  lemma PrefixIff(s: string, prefix: string)
    ensures HasPrefix(s, prefix) <==> exists rest :: s == prefix + rest
  {
    if HasPrefix(s, prefix) {
      assert s == prefix + s[|prefix|..];
    }
  }

  lemma {:induction false} ContainedAt(s: string, part: string) returns (before: string, rest: string)
    requires Contains(s, part)
    ensures s == before + part + rest
  {
    if HasPrefix(s, part) {
      before, rest := "", s[|part|..];
    } else {
      before, rest := ContainedAt(s[1..], part);
      before := [s[0]] + before;
    }
  }

  lemma {:induction false} ContainsAround(before: string, part: string, rest: string)
    ensures Contains(before + part + rest, part)
    decreases |before|
  {
    var s := before + part + rest;
    if before == "" {
      assert s[..|part|] == part;
    } else {
      assert s[1..] == before[1..] + part + rest;
      ContainsAround(before[1..], part, rest);
    }
  }

  lemma ContainsIff(s: string, part: string)
    ensures Contains(s, part) <==> exists before, rest :: s == before + part + rest
  {
    hide Contains;
    if Contains(s, part) {
      var before, rest := ContainedAt(s, part);
    }
    if before, rest :| s == before + part + rest {
      ContainsAround(before, part, rest);
    }
  }

  /** An argument is refused exactly when, without the quotes at its ends, it climbs. */
  lemma SafeArgumentIff(token: string, core: string)
    requires QuotesAround(token, core)
    ensures SafeArgument(token) <==> !Climbs(core)
  {
    hide UnquotedLeft, UnquotedRight, QuotesAround;
    UnquotedIff(token, core);
    PrefixIff(core, "../");
    ContainsIff(core, "/../");
    hide Contains;
  }

  // ----- read-only commands -----

  /** The options of git that do not count, the subcommand, and arguments that neither write a
      file nor start a program. */
  predicate HarmlessGit(tokens: seq<string>, k: nat)
    requires k < |tokens|
  {
    && (forall i :: 1 <= i < k ==> tokens[i] in ["--no-pager", "--literal-pathspecs", "--no-optional-locks"])
    && tokens[k] in ["diff", "grep", "log", "ls-files", "rev-parse", "show", "status"]
    && (forall i :: k < i < |tokens| ==>
          && tokens[i] != "--ext-diff" && tokens[i] != "--textconv"
          && !HasPrefix(tokens[i], "--output") && !HasPrefix(tokens[i], "--open-files-in-pager"))
    && (forall i :: k < i < |tokens| ==> SafeArgument(tokens[i]))
  }

  lemma {:induction false} OptionsSkipped(tokens: seq<string>) returns (k: nat)
    ensures k <= |tokens| && AfterGitOptions(tokens) == tokens[k..]
    ensures forall i :: 0 <= i < k ==> HarmlessGitOption(tokens[i])
    ensures k < |tokens| ==> !HarmlessGitOption(tokens[k])
  {
    k := 0;
    if tokens != [] && HarmlessGitOption(tokens[0]) {
      k := OptionsSkipped(tokens[1..]);
      k := k + 1;
    }
  }

  lemma GitIff(tokens: seq<string>)
    requires tokens != []
    ensures IsBuiltInReadOnlyGit(tokens) <==> exists k :: 1 <= k < |tokens| && HarmlessGit(tokens, k)
  {
    hide SafeArgument, HasPrefix;
    var n := OptionsSkipped(tokens[1..]);
    var rest := AfterGitOptions(tokens[1..]);
    assert rest == tokens[n + 1..];
    assert forall i :: 0 <= i < n ==> HarmlessGitOption(tokens[1..][i]) && tokens[1..][i] == tokens[i + 1];
    if IsBuiltInReadOnlyGit(tokens) {
      GitShape(tokens, n + 1);
    }
    if k :| 1 <= k < |tokens| && HarmlessGit(tokens, k) {
      OptionsEnd(tokens, n + 1, k);
      GitShape(tokens, n + 1);
    }
  }

  lemma OptionsEnd(tokens: seq<string>, n: nat, k: nat)
    requires 1 <= k < |tokens| && HarmlessGit(tokens, k) && 1 <= n <= |tokens|
    requires forall i :: 1 <= i < n ==> HarmlessGitOption(tokens[i])
    requires n < |tokens| ==> !HarmlessGitOption(tokens[n])
    ensures n == k
  {
    hide SafeArgument, HasPrefix;
    assert !HarmlessGitOption(tokens[k]);
    forall i | 1 <= i < k
      ensures HarmlessGitOption(tokens[i])
    {
    }
  }

  lemma GitShape(tokens: seq<string>, k: nat)
    requires 1 <= k < |tokens| && forall i :: 1 <= i < k ==> HarmlessGitOption(tokens[i])
    requires AfterGitOptions(tokens[1..]) == tokens[k..]
    ensures IsBuiltInReadOnlyGit(tokens) <==> HarmlessGit(tokens, k)
  {
    hide SafeArgument, HasPrefix, AfterGitOptions;
    var rest := tokens[k..];
    assert forall i :: k < i < |tokens| ==> rest[i - k] == tokens[i];
    assert forall i :: 1 <= i < |rest| ==> rest[i] == rest[1..][i - 1];
  }

  /** The read-only commands: ten programs whose arguments do not climb, and git with a harmless
      subcommand. */
  lemma ReadOnlyIff(tokens: seq<string>)
    requires tokens != []
    ensures IsBuiltInReadOnly(tokens) <==>
      || (&& Base(tokens[0]) in ["file", "find", "head", "ls", "pwd", "rg", "sed", "stat", "tail", "wc"]
          && forall i :: 1 <= i < |tokens| ==> SafeArgument(tokens[i]))
      || (Base(tokens[0]) == "git" && exists k :: 1 <= k < |tokens| && HarmlessGit(tokens, k))
  {
    hide SafeArgument, HarmlessGit, Base, IsBuiltInReadOnlyGit;
    GitIff(tokens);
    assert forall i :: 1 <= i < |tokens| ==> tokens[1..][i - 1] == tokens[i];
    assert forall i :: 0 <= i < |tokens| - 1 ==> tokens[1..][i] == tokens[i + 1];
  }

  /** Words without a slash or a dot never climb. */
  lemma PlainWordIsSafe(token: string)
    requires '/' !in token && '.' !in token
    ensures SafeArgument(token)
  {
    hide AllQuotes, UnquotedLeft, UnquotedRight, Climbs, SafeArgument;
    var core := UnquotedLeft(UnquotedRight(token));
    UnquotedIff(token, core);
    SafeArgumentIff(token, core);
    var head, tail :| token == head + core + tail && AllQuotes(head) && AllQuotes(tail);
    assert forall i :: 0 <= i < |core| ==> core[i] == token[|head| + i];
    assert '/' !in core && '.' !in core;
    if Climbs(core) {
      ClimbingShows(core);
    }
  }

  lemma ClimbingShows(path: string)
    requires Climbs(path)
    ensures '/' in path || '.' in path
  {
    if path == ".." {
      assert path[0] == '.';
    } else if rest :| path == "../" + rest {
      assert path[0] == '.';
    } else if before, rest :| path == before + "/../" + rest {
      assert path[|before|] == '/';
    }
  }

  lemma GitArgumentsAreSafe(tokens: seq<string>, k: nat, i: nat)
    requires 1 <= k < |tokens| && HarmlessGit(tokens, k) && 1 <= i < |tokens|
    ensures SafeArgument(tokens[i])
  {
    hide SafeArgument, HasPrefix;
    if i <= k {
      PlainWordIsSafe(tokens[i]);
    }
  }

  /** No command that passes as read-only names an absolute path or a parent directory. */
  lemma ReadOnlyStaysInside(command: string, n: nat, i: nat, core: string)
    requires ReadOnly(ParsedCommands(command)) && n < |ParsedCommands(command).commands|
    requires 1 <= i < |ParsedCommands(command).commands[n]|
    requires QuotesAround(ParsedCommands(command).commands[n][i], core)
    ensures !Climbs(core)
  {
    hide ParsedCommands, QuotesAround, SafeArgument, Climbs, Base, HarmlessGit;
    var tokens := ParsedCommands(command).commands[n];
    ReadOnlyIff(tokens);
    if k :| 1 <= k < |tokens| && HarmlessGit(tokens, k) {
      GitArgumentsAreSafe(tokens, k, i);
    }
    SafeArgumentIff(tokens[i], core);
  }

  // ----- rules -----

  /** What is proposed: what the request asks for if it is a prefix of two words or more, else
      three words of a script run by npm, pnpm or yarn, else two, if there are two. */
  lemma ProposedWords(tokens: seq<string>, requested: Rule)
    requires tokens != []
    ensures var rule := Proposal(tokens, requested);
      && (|requested| >= 2 && (exists rest :: tokens == requested + rest) ==> rule == requested)
      && (|requested| < 2 || !(exists rest :: tokens == requested + rest) ==>
          && rule == tokens[..|rule|]
          && |rule| == (if |tokens| < 2 then 0
                        else if |tokens| > 2 && Base(tokens[0]) in ["npm", "pnpm", "yarn"] && tokens[1] == "run" then 3
                        else 2))
  {
    hide Base;
    if HasTokenPrefix(tokens, requested) {
      assert tokens == requested + tokens[|requested|..];
    }
  }

  /** What passes, in full: a plain command line of read-only commands, or of one command that
      starts with the words of a stored rule. */
  lemma PassesIff(policy: Policy, command: string)
    ensures Passes(policy, command) <==>
      && !policy.loadFailed && ParsedCommands(command).Plain?
      && var commands := ParsedCommands(command).commands;
         || (forall i :: 0 <= i < |commands| ==> commands[i] != [] && IsBuiltInReadOnly(commands[i]))
         || (|commands| == 1 && exists rule, rest ::
              (rule in policy.persistentRules || rule in policy.sessionRules) && commands[0] == rule + rest)
  {
    hide ParsedCommands, IsBuiltInReadOnly;
    if ParsedCommands(command).Plain? {
      PlainCommandsNonEmpty(command);
      var tokens := ParsedCommands(command).commands[0];
      CoversIff(policy.persistentRules, tokens);
      CoversIff(policy.sessionRules, tokens);
      hide Covers;
    }
  }

  lemma CoversIff(rules: seq<Rule>, tokens: seq<string>)
    ensures Covers(rules, tokens) <==> exists rule, rest :: rule in rules && tokens == rule + rest
  {
    if Covers(rules, tokens) {
      var i :| 0 <= i < |rules| && HasTokenPrefix(tokens, rules[i]);
      assert rules[i] in rules && tokens == rules[i] + tokens[|rules[i]|..];
    }
    if rule, rest :| rule in rules && tokens == rule + rest {
      var i :| 0 <= i < |rules| && rules[i] == rule;
      assert HasTokenPrefix(tokens, rules[i]);
    }
  }

  /** Rule `i` is the first that is a prefix of the command. */
  predicate FirstPrefix(rules: seq<Rule>, tokens: seq<string>, i: nat)
    requires i < |rules|
  {
    rules[i] <= tokens && forall j :: 0 <= j < i ==> !(rules[j] <= tokens)
  }

  lemma {:induction false} FirstCoveringIff(rules: seq<Rule>, tokens: seq<string>, rule: Rule)
    ensures FirstCovering(rules, tokens) == Some(rule) <==>
      exists i :: 0 <= i < |rules| && rules[i] == rule && FirstPrefix(rules, tokens, i)
    ensures FirstCovering(rules, tokens).None? <==> forall i :: 0 <= i < |rules| ==> !(rules[i] <= tokens)
  {
    if rules != [] {
      if rules[0] <= tokens {
        assert FirstPrefix(rules, tokens, 0);
      } else {
        FirstCoveringIff(rules[1..], tokens, rule);
        FirstPrefixShifts(rules, tokens);
        assert forall i :: 1 <= i < |rules| ==> rules[i] == rules[1..][i - 1];
        if i :| 0 <= i < |rules| - 1 && rules[1..][i] == rule && FirstPrefix(rules[1..], tokens, i) {
          assert FirstPrefix(rules, tokens, i + 1);
        }
        if i :| 0 <= i < |rules| && rules[i] == rule && FirstPrefix(rules, tokens, i) {
          assert FirstPrefix(rules[1..], tokens, i - 1);
        }
      }
    }
  }

  lemma FirstPrefixShifts(rules: seq<Rule>, tokens: seq<string>)
    requires rules != [] && !(rules[0] <= tokens)
    ensures forall i :: 1 <= i < |rules| ==> (FirstPrefix(rules, tokens, i) <==> FirstPrefix(rules[1..], tokens, i - 1))
  {
    forall i | 1 <= i < |rules|
      ensures FirstPrefix(rules, tokens, i) <==> FirstPrefix(rules[1..], tokens, i - 1)
    {
      assert forall j :: 0 <= j < i - 1 ==> rules[1..][j] == rules[j + 1];
      assert forall j :: 1 <= j < i ==> rules[j] == rules[1..][j - 1];
    }
  }

  /** What is named as the reason: read-only programs first, then the first persistent rule that
      is a prefix of the one command, then the first of the session. */
  lemma MatchIff(policy: Policy, parsed: Parsed, rule: Rule)
    requires Reusable(parsed)
    ensures var tokens, persistent, session := parsed.commands[0], policy.persistentRules, policy.sessionRules;
      && (Matched(policy, parsed) == Persistent(rule) <==>
          !ReadOnly(parsed) && exists i :: 0 <= i < |persistent| && persistent[i] == rule && FirstPrefix(persistent, tokens, i))
      && (Matched(policy, parsed) == Session(rule) <==>
          && !ReadOnly(parsed)
          && (forall i :: 0 <= i < |persistent| ==> !(persistent[i] <= tokens))
          && exists i :: 0 <= i < |session| && session[i] == rule && FirstPrefix(session, tokens, i))
  {
    hide ReadOnly, FirstCovering, FirstPrefix;
    FirstCoveringIff(policy.persistentRules, parsed.commands[0], rule);
    FirstCoveringIff(policy.sessionRules, parsed.commands[0], rule);
  }

  /** A stored policy brings back its rules of two words or more, in order. */
  lemma {:induction false} LoadedRulesAre(before: seq<Rule>, rule: Rule, after: seq<Rule>)
    ensures Loaded(Stored([])).persistentRules == []
    ensures Loaded(Stored(before + [rule] + after)).persistentRules ==
      Loaded(Stored(before)).persistentRules + (if |rule| >= 2 then [rule] else []) + Loaded(Stored(after)).persistentRules
    decreases |before|
  {
    var all, kept := before + [rule] + after, if |rule| >= 2 then [rule] else [];
    if before == [] {
      assert all[1..] == after;
      EmptyUnit(kept);
    } else {
      assert all[1..] == before[1..] + [rule] + after;
      LoadedRulesAre(before[1..], rule, after);
      var first := if |before[0]| >= 2 then [before[0]] else [];
      Associative(first, LongRules(before[1..]), kept);
      Associative(first, LongRules(before[1..]) + kept, LongRules(after));
    }
  }

  predicate Distinct(rules: seq<Rule>) {
    forall i, j :: 0 <= i < j < |rules| ==> rules[i] != rules[j]
  }

  /** No rule is stored twice, and stored rules stay where they are. */
  lemma {:induction false} RulesStayDistinct(policy: Policy, changes: seq<Change>)
    requires Distinct(policy.sessionRules) && Distinct(policy.persistentRules)
    ensures var after := Changed(policy, changes);
      && Distinct(after.sessionRules) && Distinct(after.persistentRules)
      && policy.sessionRules <= after.sessionRules && policy.persistentRules <= after.persistentRules
    decreases |changes|
  {
    if changes != [] {
      var next := match changes[0]
        case AddSession(rule) => SessionAdded(policy, rule)
        case AddPersistent(rule, written) => PersistentAdded(policy, rule, written).0;
      RulesStayDistinct(next, changes[1..]);
    }
  }
}
