/** Which commands run without asking: built-in read-only commands and stored token
    prefixes, and the stores those prefixes grow in. */
module ExecPolicy {
  import opened Seqs
  import opened Wrappers
  import opened ShellWords
  import opened Text

  type Rule = seq<string>

  const READ_ONLY_COMMANDS: seq<string> := ["file", "find", "head", "ls", "pwd", "rg", "sed", "stat", "tail", "wc"]
  const READ_ONLY_GIT_SUBCOMMANDS: seq<string> := ["diff", "grep", "log", "ls-files", "rev-parse", "show", "status"]

  // ----- built-in read-only commands -----

  predicate Contains(s: string, part: string) {
    HasPrefix(s, part) || (s != "" && Contains(s[1..], part))
  }

  function WithoutTrailingSlashes(path: string): string {
    if path != "" && path[|path| - 1] == '/' then WithoutTrailingSlashes(path[..|path| - 1]) else path
  }

  function AfterLastSlash(path: string): string {
    if path == "" || path[|path| - 1] == '/' then "" else AfterLastSlash(path[..|path| - 1]) + [path[|path| - 1]]
  }

  /** The last element of a Unix path. */
  function Base(path: string): string {
    if path == "" then "."
    else if WithoutTrailingSlashes(path) == "" then "/"
    else AfterLastSlash(WithoutTrailingSlashes(path))
  }

  predicate IsQuote(c: char) { c == '\'' || c == '"' }

  function UnquotedLeft(s: string): string {
    if s != "" && IsQuote(s[0]) then UnquotedLeft(s[1..]) else s
  }

  function UnquotedRight(s: string): string {
    if s != "" && IsQuote(s[|s| - 1]) then UnquotedRight(s[..|s| - 1]) else s
  }

  predicate SafeArgument(token: string) {
    var trimmed := UnquotedLeft(UnquotedRight(token));
    !(HasPrefix(trimmed, "/") || trimmed == ".." || HasPrefix(trimmed, "../") || Contains(trimmed, "/../"))
  }

  predicate HasSafeReadOnlyArguments(tokens: seq<string>) {
    forall i :: 0 <= i < |tokens| ==> SafeArgument(tokens[i])
  }

  predicate HarmlessGitOption(option: string) {
    option == "--no-pager" || option == "--literal-pathspecs" || option == "--no-optional-locks"
  }

  predicate UnsafeGitArgument(argument: string) {
    || HasPrefix(argument, "--output")
    || argument == "--ext-diff"
    || argument == "--textconv"
    || HasPrefix(argument, "--open-files-in-pager")
  }

  function AfterGitOptions(tokens: seq<string>): seq<string> {
    if tokens != [] && HarmlessGitOption(tokens[0]) then AfterGitOptions(tokens[1..]) else tokens
  }

  predicate IsBuiltInReadOnlyGit(tokens: seq<string>)
    requires tokens != []
  {
    var rest := AfterGitOptions(tokens[1..]);
    && rest != []
    && rest[0] in READ_ONLY_GIT_SUBCOMMANDS
    && (forall i :: 1 <= i < |rest| ==> !UnsafeGitArgument(rest[i]))
    && HasSafeReadOnlyArguments(rest[1..])
  }

  predicate IsBuiltInReadOnly(tokens: seq<string>)
    requires tokens != []
  {
    if Base(tokens[0]) == "git" then IsBuiltInReadOnlyGit(tokens)
    else Base(tokens[0]) in READ_ONLY_COMMANDS && HasSafeReadOnlyArguments(tokens[1..])
  }

  // ----- prefixes -----

  predicate HasTokenPrefix(tokens: seq<string>, prefix: Rule) {
    prefix <= tokens
  }

  predicate RunsScript(tokens: seq<string>) {
    && |tokens| >= 3
    && (Base(tokens[0]) == "npm" || Base(tokens[0]) == "pnpm" || Base(tokens[0]) == "yarn")
    && tokens[1] == "run"
  }

  function DerivePrefixRule(tokens: seq<string>): Rule {
    if |tokens| < 2 then [] else tokens[..if RunsScript(tokens) then 3 else 2]
  }

  predicate ValidRequestedPrefix(tokens: seq<string>, prefix: Rule) {
    |prefix| >= 2 && HasTokenPrefix(tokens, prefix)
  }

  // ----- the policy -----

  datatype Disk = Missing | Unreadable | Stored(rules: seq<Rule>)

  datatype Policy = Policy(sessionRules: seq<Rule>, persistentRules: seq<Rule>, disk: Disk, loadFailed: bool)

  datatype Match = NoMatch | BuiltIn(names: seq<string>) | Persistent(rule: Rule) | Session(rule: Rule)

  datatype Requirement = Requirement(needsApproval: bool, proposedRule: Rule, matched: Match)

  datatype PolicyError = LoadFailed | Unparsable(error: WordError) | RuleTooShort | WriteFailed

  function LongRules(rules: seq<Rule>): seq<Rule> {
    if rules == [] then []
    else (if |rules[0]| >= 2 then [rules[0]] else []) + LongRules(rules[1..])
  }

  /** The policy a session starts with. */
  function Loaded(disk: Disk): Policy {
    match disk
    case Missing => Policy([], [], disk, false)
    case Unreadable => Policy([], [], disk, true)
    case Stored(rules) => Policy([], LongRules(rules), disk, false)
  }

  predicate Covers(rules: seq<Rule>, tokens: seq<string>) {
    exists i :: 0 <= i < |rules| && HasTokenPrefix(tokens, rules[i])
  }

  predicate ReadOnly(parsed: Parsed) {
    && parsed.Plain?
    && parsed.commands != []
    && forall i :: 0 <= i < |parsed.commands| ==> parsed.commands[i] != [] && IsBuiltInReadOnly(parsed.commands[i])
  }

  /** The one command whose approval could be reused. */
  predicate Reusable(parsed: Parsed) {
    parsed.Plain? && |parsed.commands| == 1
  }

  /** What the policy promises to let pass. */
  predicate Passes(policy: Policy, command: string) {
    var parsed := ParsedCommands(command);
    && !policy.loadFailed
    && (|| ReadOnly(parsed)
        || (&& Reusable(parsed)
            && (Covers(policy.persistentRules, parsed.commands[0]) || Covers(policy.sessionRules, parsed.commands[0]))))
  }

  /** The first rule that covers a command. */
  function FirstCovering(rules: seq<Rule>, tokens: seq<string>): (r: Option<Rule>)
    ensures r.Some? ==> r.value in rules && HasTokenPrefix(tokens, r.value)
  {
    if rules == [] then None
    else if HasTokenPrefix(tokens, rules[0]) then Some(rules[0])
    else FirstCovering(rules[1..], tokens)
  }

  function Names(commands: seq<seq<string>>): seq<string>
    requires forall i :: 0 <= i < |commands| ==> commands[i] != []
  {
    seq(|commands|, i requires 0 <= i < |commands| => Base(commands[i][0]))
  }

  /** What lets a command pass: first the built-in list, then the persistent rules in order,
      then the session's. */
  function Matched(policy: Policy, parsed: Parsed): Match {
    if ReadOnly(parsed) then BuiltIn(Names(parsed.commands))
    else if !Reusable(parsed) then NoMatch
    else
      var tokens := parsed.commands[0];
      match FirstCovering(policy.persistentRules, tokens)
      case Some(rule) => Persistent(rule)
      case None =>
        match FirstCovering(policy.sessionRules, tokens)
        case Some(rule) => Session(rule)
        case None => NoMatch
  }

  function Proposal(tokens: seq<string>, requested: Rule): Rule {
    if ValidRequestedPrefix(tokens, requested) then requested else DerivePrefixRule(tokens)
  }

  /** Nothing a plain command consists of is empty. */
  lemma PlainCommandsNonEmpty(command: string)
    requires ParsedCommands(command).Plain?
    ensures var commands := ParsedCommands(command).commands;
      commands != [] && forall i :: 0 <= i < |commands| ==> commands[i] != []
  {
    hide Lexed;
    LexedWords(Trimmed(command), START, false);
    LexedKeepsCommands(Trimmed(command), START);
  }

  function SessionAdded(policy: Policy, rule: Rule): Policy {
    if rule == [] || rule in policy.sessionRules then policy
    else policy.(sessionRules := policy.sessionRules + [rule])
  }

  /** Storing a rule on disk; `written` says whether the file could be replaced. */
  function PersistentAdded(policy: Policy, rule: Rule, written: bool): (Policy, Option<PolicyError>) {
    if |rule| < 2 then (policy, Some(RuleTooShort))
    else if rule in policy.persistentRules then (policy, None)
    else if !written then (policy, Some(WriteFailed))
    else
      var rules := policy.persistentRules + [rule];
      (policy.(persistentRules := rules, disk := Stored(rules)), None)
  }

  class ExecPolicy {
    var sessionRules: seq<Rule>
    var persistentRules: seq<Rule>
    var disk: Disk
    var loadFailed: bool

    function State(): Policy
      reads this
    {
      Policy(sessionRules, persistentRules, disk, loadFailed)
    }

    constructor (stored: Disk)
      ensures State() == Loaded(stored)
    {
      disk := stored;
      loadFailed := stored == Unreadable;
      sessionRules := [];
      persistentRules := if stored.Stored? then LongRules(stored.rules) else [];
    }

    /** Exactly the promised commands need no approval. */
    method Evaluate(command: string, requested: Rule) returns (result: Result<Requirement, PolicyError>)
      ensures result.Ok? ==> (!result.value.needsApproval <==> Passes(State(), command))
      ensures result.Err? <==> loadFailed || ParsedCommands(command).Bad?
      ensures result.Err? ==> !Passes(State(), command)
      ensures result.Err? ==> result.error == if loadFailed then LoadFailed else Unparsable(ParsedCommands(command).error)
      ensures result.Ok? ==> result.value.matched == Matched(State(), ParsedCommands(command))
      ensures result.Ok? && result.value.needsApproval ==>
        result.value.proposedRule == (if Reusable(ParsedCommands(command))
                                      then Proposal(ParsedCommands(command).commands[0], requested) else [])
    {
      hide ParsedCommands, IsBuiltInReadOnly, Proposal, FirstCovering;
      if loadFailed {
        return Err(LoadFailed);
      }
      var parsed := ParsePlainShellCommands(command);
      if parsed.Bad? {
        return Err(Unparsable(parsed.error));
      }
      if parsed.Opaque? {
        return Ok(Requirement(true, [], NoMatch));
      }
      PlainCommandsNonEmpty(command);
      var allReadOnly := |parsed.commands| > 0;
      var names: seq<string> := [];
      var i := 0;
      while allReadOnly && i < |parsed.commands|
        invariant 0 <= i <= |parsed.commands|
        invariant allReadOnly ==> forall j :: 0 <= j < i ==> IsBuiltInReadOnly(parsed.commands[j])
        invariant names == Names(parsed.commands[..i])
        invariant !allReadOnly ==> !ReadOnly(parsed)
        decreases |parsed.commands| - i, allReadOnly
      {
        if IsBuiltInReadOnly(parsed.commands[i]) {
          names := names + [Base(parsed.commands[i][0])];
          i := i + 1;
        } else {
          allReadOnly := false;
        }
      }
      assert parsed.commands[..|parsed.commands|] == parsed.commands;
      if allReadOnly {
        return Ok(Requirement(false, [], BuiltIn(names)));
      }
      if |parsed.commands| != 1 {
        return Ok(Requirement(true, [], NoMatch));
      }
      var tokens := parsed.commands[0];
      var found := FindRule(persistentRules, tokens);
      if found.Some? {
        return Ok(Requirement(false, [], Persistent(found.value)));
      }
      found := FindRule(sessionRules, tokens);
      if found.Some? {
        return Ok(Requirement(false, [], Session(found.value)));
      }
      return Ok(Requirement(true, Proposal(tokens, requested), NoMatch));
    }

    method AddSessionRule(rule: Rule)
      modifies this
      ensures State() == SessionAdded(old(State()), rule)
    {
      if |rule| == 0 {
        return;
      }
      if rule in sessionRules {
        return;
      }
      sessionRules := sessionRules + [rule];
    }

    method AddPersistentRule(rule: Rule, written: bool) returns (error: Option<PolicyError>)
      modifies this
      ensures (State(), error) == PersistentAdded(old(State()), rule, written)
    {
      if |rule| < 2 {
        return Some(RuleTooShort);
      }
      if rule in persistentRules {
        return None;
      }
      var rules := persistentRules + [rule];
      if !written {
        return Some(WriteFailed);
      }
      disk := Stored(rules);
      persistentRules := rules;
      return None;
    }
  }

  method FindRule(rules: seq<Rule>, tokens: seq<string>) returns (found: Option<Rule>)
    ensures found == FirstCovering(rules, tokens)
    ensures found.Some? <==> Covers(rules, tokens)
  {
    assert rules[0..] == rules;
    for i := 0 to |rules|
      invariant FirstCovering(rules[i..], tokens) == FirstCovering(rules, tokens)
      invariant forall j :: 0 <= j < i ==> !HasTokenPrefix(tokens, rules[j])
    {
      assert rules[i..][1..] == rules[i + 1..];
      if HasTokenPrefix(tokens, rules[i]) {
        return Some(rules[i]);
      }
    }
    return None;
  }

  // ----- growing the stores -----

  lemma CoversAppend(rules: seq<Rule>, rule: Rule, tokens: seq<string>)
    ensures Covers(rules + [rule], tokens) <==> Covers(rules, tokens) || HasTokenPrefix(tokens, rule)
  {
    var more := rules + [rule];
    if Covers(rules, tokens) {
      var i :| 0 <= i < |rules| && HasTokenPrefix(tokens, rules[i]);
      assert more[i] == rules[i];
    }
    assert more[|rules|] == rule;
    if Covers(more, tokens) && !HasTokenPrefix(tokens, rule) {
      var i :| 0 <= i < |more| && HasTokenPrefix(tokens, more[i]);
      assert rules[i] == more[i];
    }
  }

  lemma CoversMember(rules: seq<Rule>, rule: Rule, tokens: seq<string>)
    requires rule in rules && HasTokenPrefix(tokens, rule)
    ensures Covers(rules, tokens)
  {
    var i :| 0 <= i < |rules| && rules[i] == rule;
  }

  /** Which single plain commands a rule is about. */
  predicate About(rule: Rule, command: string) {
    var parsed := ParsedCommands(command);
    Reusable(parsed) && HasTokenPrefix(parsed.commands[0], rule)
  }

  /** A session rule enlarges the set of commands that pass by exactly the single plain
      commands it is a prefix of. */
  lemma SessionRuleEffect(policy: Policy, rule: Rule, command: string)
    requires rule != [] && !policy.loadFailed
    ensures Passes(SessionAdded(policy, rule), command) <==> Passes(policy, command) || About(rule, command)
  {
    hide ParsedCommands, ReadOnly, HasTokenPrefix, Covers;
    var parsed := ParsedCommands(command);
    if Reusable(parsed) {
      if rule in policy.sessionRules {
        if HasTokenPrefix(parsed.commands[0], rule) {
          CoversMember(policy.sessionRules, rule, parsed.commands[0]);
        }
      } else {
        CoversAppend(policy.sessionRules, rule, parsed.commands[0]);
      }
    }
  }

  /** So does a persistent rule that could be stored. */
  lemma PersistentRuleEffect(policy: Policy, rule: Rule, command: string)
    requires |rule| >= 2 && !policy.loadFailed
    ensures var (after, error) := PersistentAdded(policy, rule, true);
      error == None && (Passes(after, command) <==> Passes(policy, command) || About(rule, command))
  {
    hide ParsedCommands, ReadOnly, HasTokenPrefix, Covers;
    var parsed := ParsedCommands(command);
    if Reusable(parsed) {
      if rule in policy.persistentRules {
        if HasTokenPrefix(parsed.commands[0], rule) {
          CoversMember(policy.persistentRules, rule, parsed.commands[0]);
        }
      } else {
        CoversAppend(policy.persistentRules, rule, parsed.commands[0]);
      }
    }
  }

  datatype Change = AddSession(rule: Rule) | AddPersistent(rule: Rule, written: bool)

  function Changed(policy: Policy, changes: seq<Change>): Policy
    decreases |changes|
  {
    if changes == [] then policy
    else
      var next := match changes[0]
        case AddSession(rule) => SessionAdded(policy, rule)
        case AddPersistent(rule, written) => PersistentAdded(policy, rule, written).0;
      Changed(next, changes[1..])
  }

  /** No history of additions, failed ones included, ever takes a permission away. */
  lemma {:induction false} RulesOnlyEnlarge(policy: Policy, changes: seq<Change>, command: string)
    requires Passes(policy, command)
    ensures Passes(Changed(policy, changes), command)
    decreases |changes|
  {
    hide Passes, About;
    if changes != [] {
      assert !policy.loadFailed by {
        NotFailed(policy, command);
      }
      match changes[0]
      case AddSession(rule) =>
        if rule != [] {
          SessionRuleEffect(policy, rule, command);
        }
        RulesOnlyEnlarge(SessionAdded(policy, rule), changes[1..], command);
      case AddPersistent(rule, written) =>
        if |rule| >= 2 {
          PersistentRuleEffect(policy, rule, command);
        }
        RulesOnlyEnlarge(PersistentAdded(policy, rule, written).0, changes[1..], command);
    }
  }

  lemma NotFailed(policy: Policy, command: string)
    requires Passes(policy, command)
    ensures !policy.loadFailed
  {
  }

  /** A proposed rule is a prefix of the command it is proposed for, long enough to be stored
      on disk, and missing exactly for commands of one word. */
  lemma ProposalFits(tokens: seq<string>, requested: Rule)
    requires tokens != []
    ensures var rule := Proposal(tokens, requested);
      && HasTokenPrefix(tokens, rule)
      && (rule == [] <==> |tokens| == 1)
      && (rule != [] ==> |rule| >= 2)
  {
  }

  /** Storing the rule proposed for a prompted command makes that command pass from then on,
      for the session or for good, exactly when there is a rule to store, that is, exactly
      when the command has a second word. */
  lemma StoringProposalAdmitsCommand(policy: Policy, command: string, requested: Rule)
    requires Reusable(ParsedCommands(command)) && !policy.loadFailed && !Passes(policy, command)
    ensures var tokens := ParsedCommands(command).commands[0];
      var rule := Proposal(tokens, requested);
      && (Passes(SessionAdded(policy, rule), command) <==> |tokens| > 1)
      && (Passes(PersistentAdded(policy, rule, true).0, command) <==> |tokens| > 1)
      && (PersistentAdded(policy, rule, true).1 == None <==> |tokens| > 1)
  {
    hide ParsedCommands, Passes, Proposal, HasTokenPrefix;
    PlainCommandsNonEmpty(command);
    var tokens := ParsedCommands(command).commands[0];
    var rule := Proposal(tokens, requested);
    ProposalFits(tokens, requested);
    if rule != [] {
      SessionRuleEffect(policy, rule, command);
      PersistentRuleEffect(policy, rule, command);
    }
  }

  /** The one-word rule that patches ask to keep can be kept for the session, which admits the
      patch command, but never on disk: that choice always ends in an error. */
  lemma PatchAmendmentAlwaysFails(policy: Policy, written: bool)
    requires !policy.loadFailed
    ensures PersistentAdded(policy, ["apply_patch"], written) == (policy, Some(RuleTooShort))
    ensures About(["apply_patch"], "apply_patch")
    ensures Passes(SessionAdded(policy, ["apply_patch"]), "apply_patch")
  {
    PatchCommandParses();
    var tokens := ["apply_patch"];
    assert tokens <= tokens;
    SessionRuleEffect(policy, ["apply_patch"], "apply_patch");
  }

  lemma PatchCommandParses()
    ensures ParsedCommands("apply_patch") == Plain([["apply_patch"]])
  {
    TrimmedKeeps("apply_patch");
    var word := "apply_patch";
    BareWord(word, 0);
    assert word[0..] == word && word[..0] == "";
  }

  /** Letters and underscores are read as they stand. */
  lemma {:induction false} BareWord(word: string, i: nat)
    requires i <= |word| && word != ""
    requires forall k :: 0 <= k < |word| ==> 'a' <= word[k] <= 'z' || word[k] == '_'
    ensures Lexed(word[i..], START.(token := word[..i])) == Plain([[word]])
    decreases |word| - i
  {
    if i == |word| {
      assert word[i..] == "" && word[..i] == word;
      EmptyUnit([word]);
      EmptyUnit([[word]]);
    } else {
      BareWord(word, i + 1);
      assert word[i..][0] == word[i] && word[i..][1..] == word[i + 1..];
      assert word[..i] + [word[i]] == word[..i + 1];
    }
  }

  // ----- what is on disk -----

  /** Restarting brings back exactly the persistent rules. */
  predicate Durable(policy: Policy) {
    Loaded(policy.disk).persistentRules == policy.persistentRules
  }

  lemma {:induction false} LongRulesAppend(rules: seq<Rule>, rule: Rule)
    requires |rule| >= 2
    ensures LongRules(rules + [rule]) == LongRules(rules) + [rule]
  {
    if rules == [] {
      EmptyUnit([rule]);
      assert [rule][1..] == [];
    } else {
      var head := if |rules[0]| >= 2 then [rules[0]] else [];
      assert (rules + [rule])[1..] == rules[1..] + [rule];
      assert (rules + [rule])[0] == rules[0];
      LongRulesAppend(rules[1..], rule);
      Associative(head, LongRules(rules[1..]), [rule]);
    }
  }

  lemma {:induction false} LongRulesIdempotent(rules: seq<Rule>)
    ensures LongRules(LongRules(rules)) == LongRules(rules)
  {
    if rules != [] {
      LongRulesIdempotent(rules[1..]);
      if |rules[0]| >= 2 {
        assert ([rules[0]] + LongRules(rules[1..]))[1..] == LongRules(rules[1..]);
      } else {
        EmptyUnit(LongRules(rules[1..]));
      }
    }
  }

  predicate OnlyLongRules(policy: Policy) {
    LongRules(policy.persistentRules) == policy.persistentRules
  }

  /** After any history of additions a restarted session holds the same persistent rules,
      whatever it started from. */
  lemma {:induction false} RulesSurviveRestart(stored: Disk, changes: seq<Change>)
    ensures var policy := Changed(Loaded(stored), changes);
      Loaded(policy.disk).persistentRules == policy.persistentRules
  {
    if stored.Stored? {
      LongRulesIdempotent(stored.rules);
    }
    RulesStayDurable(Loaded(stored), changes);
  }

  lemma {:induction false} RulesStayDurable(policy: Policy, changes: seq<Change>)
    requires Durable(policy) && OnlyLongRules(policy)
    ensures Durable(Changed(policy, changes))
    decreases |changes|
  {
    if changes != [] {
      match changes[0]
      case AddSession(rule) =>
        RulesStayDurable(SessionAdded(policy, rule), changes[1..]);
      case AddPersistent(rule, written) =>
        if |rule| >= 2 {
          LongRulesAppend(policy.persistentRules, rule);
        }
        RulesStayDurable(PersistentAdded(policy, rule, written).0, changes[1..]);
    }
  }

  // ----- quoting does not change the verdict -----

  lemma AsciiCommandWords(command: string)
    requires AllAscii(Trimmed(command)) && ParsedCommands(command).Plain?
    ensures var commands := ParsedCommands(command).commands;
      forall i :: 0 <= i < |commands| ==> commands[i] != [] && AllBytes(commands[i]) && WordsOk(commands[i])
  {
    hide Lexed;
    LexedWords(Trimmed(command), START, true);
  }

  /** A plain ASCII command and the same command with every word quoted are judged alike. */
  lemma QuotingKeepsVerdict(policy: Policy, command: string, joints: seq<Joint>)
    requires AllAscii(Trimmed(command)) && ParsedCommands(command).Plain?
    requires |ParsedCommands(command).commands| == |joints| + 1
    ensures Passes(policy, QuotedCommands(ParsedCommands(command).commands, joints)) == Passes(policy, command)
  {
    hide ParsedCommands, QuotedCommands, WordsOk, AllBytes, ReadOnly, Covers;
    AsciiCommandWords(command);
    QuotingRoundTripIff(ParsedCommands(command).commands, joints);
  }
}
