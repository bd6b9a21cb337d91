/** Client-side filter rules (client/js/store.js, `ruleMatches` and `applyFilters`). */
module Filters {

  datatype Action = Label | Star | Archive | Spam | Read

  /** `from` and `subject` as the user typed them; `label` is looked at by `Label` only. */
  datatype Rule = Rule(enabled: bool, from: string, subject: string, action: Action, lbl: string)

  datatype Folder = Inbox | Archived | Junk | Trash | Sent | Drafts | Other(name: string)

  /** The part of a thread that filters look at or change. */
  datatype Mail = Mail(
    subject: string, senders: seq<string>, folder: Folder, labels: seq<string>, starred: bool, read: bool)

  /** `trim().toLowerCase()` and `toLowerCase()`, which depend on Unicode tables. */
  datatype Text = Text(normal: string -> string, lower: string -> string)

  // --- matching ---------------------------------------------------------------------------------------------

  /** A character that `.` does not match in a regular expression. */
  predicate LineEnd(c: char) { c == '\n' || c == '\r' || c == '\U{2028}' || c == '\U{2029}' }

  /** The anchored pattern: `*` stands for any run of characters within a line, everything else for itself. */
  predicate Glob(pattern: string, s: string)
    decreases |pattern| + |s|
  {
    if pattern == "" then s == ""
    else if pattern[0] == '*' then
      Glob(pattern[1..], s) || (s != "" && !LineEnd(s[0]) && Glob(pattern, s[1..]))
    else s != "" && s[0] == pattern[0] && Glob(pattern[1..], s[1..])
  }

  predicate StartsAt(s: string, part: string, i: nat) {
    i + |part| <= |s| && s[i..i + |part|] == part
  }

  predicate Includes(s: string, part: string) {
    exists i :: 0 <= i <= |s| && StartsAt(s, part, i)
  }

  predicate SenderMatches(from: string, senders: seq<string>) {
    exists i :: 0 <= i < |senders| && (Glob(from, senders[i]) || Includes(senders[i], from))
  }

  predicate Matches(rule: Rule, m: Mail, text: Text) {
    var from, subject := text.normal(rule.from), text.normal(rule.subject);
    && rule.enabled
    && (from != "" || subject != "")
    && (from != "" ==> SenderMatches(from, m.senders))
    && (subject != "" ==> Includes(text.lower(m.subject), subject))
  }

  /** Without a star the pattern adds nothing to the substring test. */
  lemma {:induction false} GlobWithoutStar(pattern: string, s: string)
    requires '*' !in pattern
    ensures Glob(pattern, s) <==> s == pattern
    decreases |pattern|
  {
    if pattern != "" && s != "" {
      GlobWithoutStar(pattern[1..], s[1..]);
    }
  }

  ghost predicate Holds(s: string, part: string) { exists before, after :: s == before + part + after }

  lemma IncludesHolds(s: string, part: string)
    ensures Includes(s, part) <==> Holds(s, part)
  {
    if Includes(s, part) {
      var i :| 0 <= i <= |s| && StartsAt(s, part, i);
      assert s == s[..i] + part + s[i + |part|..];
    }
    if Holds(s, part) {
      var before, after :| s == before + part + after;
      assert StartsAt(s, part, |before|);
    }
  }

  /** So a rule without a star asks whether some sender's address contains its text. */
  lemma StarlessIsSubstring(from: string, senders: seq<string>)
    requires '*' !in from
    ensures SenderMatches(from, senders) <==> exists i :: 0 <= i < |senders| && Holds(senders[i], from)
  {
    forall i | 0 <= i < |senders|
      ensures Glob(from, senders[i]) || Includes(senders[i], from) <==> Holds(senders[i], from)
    {
      GlobWithoutStar(from, senders[i]);
      IncludesHolds(senders[i], from);
      assert senders[i] == from ==> StartsAt(senders[i], from, 0);
    }
    hide Glob, Includes, Holds;
  }

  // --- what matching means ------------------------------------------------------------------------------------

  predicate OneLine(s: string) { '\n' !in s && '\r' !in s && '\U{2028}' !in s && '\U{2029}' !in s }

  function Stars(pattern: string): nat {
    if pattern == "" then 0 else (if pattern[0] == '*' then 1 else 0) + Stars(pattern[1..])
  }

  /** The pattern with its stars replaced, one after another. */
  function Filled(pattern: string, fills: seq<string>): string
    requires |fills| == Stars(pattern)
  {
    if pattern == "" then ""
    else if pattern[0] == '*' then fills[0] + Filled(pattern[1..], fills[1..])
    else [pattern[0]] + Filled(pattern[1..], fills)
  }

  /** Some text within a line in the place of each star makes the pattern into `s`. */
  ghost predicate Fits(pattern: string, s: string) {
    exists fills :: |fills| == Stars(pattern) && (forall f :: f in fills ==> OneLine(f)) && Filled(pattern, fills) == s
  }

  lemma {:induction false} GlobFills(pattern: string, s: string) returns (fills: seq<string>)
    requires Glob(pattern, s)
    ensures |fills| == Stars(pattern) && (forall f :: f in fills ==> OneLine(f)) && Filled(pattern, fills) == s
    decreases |pattern| + |s|
  {
    if pattern == "" {
      fills := [];
    } else if pattern[0] != '*' {
      fills := GlobFills(pattern[1..], s[1..]);
    } else if Glob(pattern[1..], s) {
      var rest := GlobFills(pattern[1..], s);
      fills := [""] + rest;
      assert fills[1..] == rest && "" + s == s;
    } else {
      var rest := GlobFills(pattern, s[1..]);
      fills := [[s[0]] + rest[0]] + rest[1..];
      assert fills[1..] == rest[1..];
      assert [s[0]] + rest[0] + Filled(pattern[1..], rest[1..]) == [s[0]] + (rest[0] + Filled(pattern[1..], rest[1..]));
      assert rest[0] in rest;
    }
  }

  lemma {:induction false} FillsGlob(pattern: string, fills: seq<string>)
    requires |fills| == Stars(pattern) && forall f :: f in fills ==> OneLine(f)
    ensures Glob(pattern, Filled(pattern, fills))
    decreases |pattern|, if pattern != "" && pattern[0] == '*' then |fills[0]| else 0
  {
    if pattern != "" {
      if pattern[0] != '*' {
        FillsGlob(pattern[1..], fills);
      } else if fills[0] == "" {
        FillsGlob(pattern[1..], fills[1..]);
        assert Filled(pattern, fills) == Filled(pattern[1..], fills[1..]);
      } else {
        var less := [fills[0][1..]] + fills[1..];
        assert less[1..] == fills[1..];
        assert fills[0] in fills && fills[0][0] in fills[0];
        assert forall f :: f in less ==> OneLine(f);
        FillsGlob(pattern, less);
        assert Filled(pattern, fills)[1..] == Filled(pattern, less);
      }
    }
  }

  lemma GlobExactly(pattern: string, s: string)
    ensures Glob(pattern, s) <==> Fits(pattern, s)
  {
    if Glob(pattern, s) {
      var fills := GlobFills(pattern, s);
    }
    if Fits(pattern, s) {
      var fills :| |fills| == Stars(pattern) && (forall f :: f in fills ==> OneLine(f)) && Filled(pattern, fills) == s;
      FillsGlob(pattern, fills);
    }
  }

  /**
   * When a rule matches: it is enabled, has a criterion, and every criterion it has is met; the sender's by some
   * address that holds its text or fits it as a pattern, the subject's by a subject that holds it.
   */
  lemma MatchesExactly(rule: Rule, m: Mail, text: Text)
    ensures var from, subject := text.normal(rule.from), text.normal(rule.subject);
            Matches(rule, m, text) <==>
              && rule.enabled && (from != "" || subject != "")
              && (from != "" ==>
                    exists i :: 0 <= i < |m.senders| && (Holds(m.senders[i], from) || Fits(from, m.senders[i])))
              && (subject != "" ==> Holds(text.lower(m.subject), subject))
  {
    hide Glob, Includes, Holds, Fits;
    var from, subject := text.normal(rule.from), text.normal(rule.subject);
    IncludesHolds(text.lower(m.subject), subject);
    forall i | 0 <= i < |m.senders|
      ensures Glob(from, m.senders[i]) || Includes(m.senders[i], from)
         <==> Holds(m.senders[i], from) || Fits(from, m.senders[i])
    {
      GlobExactly(from, m.senders[i]);
      IncludesHolds(m.senders[i], from);
    }
  }

  // --- one thread, one rule ---------------------------------------------------------------------------------

  predicate Skipped(m: Mail) { m.folder.Trash? || m.folder.Sent? || m.folder.Drafts? }

  /** What a matching rule makes of a thread. */
  function Act(rule: Rule, m: Mail): Mail {
    match rule.action
    case Label => if rule.lbl != "" && rule.lbl !in m.labels then m.(labels := m.labels + [rule.lbl]) else m
    case Star => m.(starred := true)
    case Archive => if m.folder.Inbox? then m.(folder := Archived) else m
    case Spam => m.(folder := Junk)
    case Read => m.(read := true)
  }

  function Step(rule: Rule, m: Mail, text: Text): Mail {
    if Matches(rule, m, text) then Act(rule, m) else m
  }

  function After(rules: seq<Rule>, m: Mail, text: Text): Mail {
    if rules == [] then m else Step(rules[|rules| - 1], After(rules[..|rules| - 1], m, text), text)
  }

  /** How many rules changed the thread when applied one after another. */
  function Changes(rules: seq<Rule>, m: Mail, text: Text): nat {
    if rules == [] then 0
    else
      var before := After(rules[..|rules| - 1], m, text);
      Changes(rules[..|rules| - 1], m, text) + (if Step(rules[|rules| - 1], before, text) != before then 1 else 0)
  }

  function Filtered(rules: seq<Rule>, m: Mail, text: Text): Mail {
    if Skipped(m) then m else After(rules, m, text)
  }

  function Counted(rules: seq<Rule>, m: Mail, text: Text): nat {
    if Skipped(m) then 0 else Changes(rules, m, text)
  }

  // --- what a whole rule list does --------------------------------------------------------------------------

  /** Some rule of the list matches the thread and asks for this. */
  predicate Asked(rules: seq<Rule>, m: Mail, text: Text, action: Action) {
    exists i :: 0 <= i < |rules| && rules[i].action == action && Matches(rules[i], m, text)
  }

  predicate AskedLabel(rules: seq<Rule>, m: Mail, text: Text, lbl: string) {
    lbl != "" &&
    exists i :: 0 <= i < |rules| && rules[i].action.Label? && rules[i].lbl == lbl && Matches(rules[i], m, text)
  }

  /** The outcome, stated without an order: flags are set, labels added, and spam beats the archive. */
  ghost predicate Outcome(rules: seq<Rule>, m: Mail, text: Text, n: Mail) {
    && n.subject == m.subject && n.senders == m.senders
    && n.starred == (m.starred || Asked(rules, m, text, Star))
    && n.read == (m.read || Asked(rules, m, text, Read))
    && n.folder == (if Asked(rules, m, text, Spam) then Junk
                    else if m.folder.Inbox? && Asked(rules, m, text, Archive) then Archived else m.folder)
    && (forall x :: x in n.labels <==> x in m.labels || AskedLabel(rules, m, text, x))
    && m.labels <= n.labels
  }

  lemma AskedMore(rules: seq<Rule>, rule: Rule, m: Mail, text: Text, action: Action)
    ensures Asked(rules + [rule], m, text, action)
       <==> Asked(rules, m, text, action) || (rule.action == action && Matches(rule, m, text))
  {
    hide Matches;
    if Asked(rules, m, text, action) {
      var i :| 0 <= i < |rules| && rules[i].action == action && Matches(rules[i], m, text);
      assert (rules + [rule])[i] == rules[i];
    }
    assert (rules + [rule])[|rules|] == rule;
  }

  lemma AskedLabelMore(rules: seq<Rule>, rule: Rule, m: Mail, text: Text, lbl: string)
    ensures AskedLabel(rules + [rule], m, text, lbl)
       <==> AskedLabel(rules, m, text, lbl)
            || (lbl != "" && rule.action.Label? && rule.lbl == lbl && Matches(rule, m, text))
  {
    hide Matches;
    if AskedLabel(rules, m, text, lbl) {
      var i :| 0 <= i < |rules| && rules[i].action.Label? && rules[i].lbl == lbl && Matches(rules[i], m, text);
      assert (rules + [rule])[i] == rules[i];
    }
    assert (rules + [rule])[|rules|] == rule;
  }

  /** Whether a rule matches does not depend on what filters change. */
  lemma MatchesIgnores(rule: Rule, m: Mail, n: Mail, text: Text)
    requires m.subject == n.subject && m.senders == n.senders
    ensures Matches(rule, m, text) == Matches(rule, n, text)
  {
  }

  lemma {:induction false} AfterIsOutcome(rules: seq<Rule>, m: Mail, text: Text)
    ensures Outcome(rules, m, text, After(rules, m, text))
  {
    hide Matches, Asked, AskedLabel;
    if rules == [] {
      NothingAsked(m, text);
    } else {
      var before, rule := rules[..|rules| - 1], rules[|rules| - 1];
      assert rules == before + [rule];
      AfterIsOutcome(before, m, text);
      MatchesIgnores(rule, m, After(before, m, text), text);
      AskedMore(before, rule, m, text, Star);
      AskedMore(before, rule, m, text, Read);
      AskedMore(before, rule, m, text, Spam);
      AskedMore(before, rule, m, text, Archive);
      forall x {
        AskedLabelMore(before, rule, m, text, x);
      }
    }
  }

  /** Trash, sent mail and drafts are left alone, and every other thread has that outcome. */
  lemma FilteredExactly(rules: seq<Rule>, m: Mail, text: Text)
    ensures var n := Filtered(rules, m, text);
            if m.folder.Trash? || m.folder.Sent? || m.folder.Drafts? then n == m && Counted(rules, m, text) == 0
            else Outcome(rules, m, text, n)
  {
    hide Outcome, After;
    AfterIsOutcome(rules, m, text);
  }

  lemma NothingAsked(m: Mail, text: Text)
    ensures forall action :: !Asked([], m, text, action)
    ensures forall x :: !AskedLabel([], m, text, x)
  {
  }

  /**
   * Confluence: rule lists with the same rules, in any order and however often repeated, leave a thread
   * in the same folder, with the same flags and the same set of labels.
   */
  lemma OrderDoesNotMatter(rules: seq<Rule>, others: seq<Rule>, m: Mail, text: Text)
    requires forall r :: r in rules <==> r in others
    ensures var a, b := Filtered(rules, m, text), Filtered(others, m, text);
            && a.folder == b.folder && a.starred == b.starred && a.read == b.read
            && forall x :: x in a.labels <==> x in b.labels
  {
    hide Matches, After;
    AfterIsOutcome(rules, m, text);
    AfterIsOutcome(others, m, text);
    SameAsked(rules, others, m, text);
    SameAsked(others, rules, m, text);
  }

  lemma SameAsked(rules: seq<Rule>, others: seq<Rule>, m: Mail, text: Text)
    requires forall r :: r in rules ==> r in others
    ensures forall action :: Asked(rules, m, text, action) ==> Asked(others, m, text, action)
    ensures forall x :: AskedLabel(rules, m, text, x) ==> AskedLabel(others, m, text, x)
  {
    hide Matches;
    forall action | Asked(rules, m, text, action)
      ensures Asked(others, m, text, action)
    {
      var i :| 0 <= i < |rules| && rules[i].action == action && Matches(rules[i], m, text);
      assert rules[i] in others;
    }
    forall x | AskedLabel(rules, m, text, x)
      ensures AskedLabel(others, m, text, x)
    {
      var i :| 0 <= i < |rules| && rules[i].action.Label? && rules[i].lbl == x && Matches(rules[i], m, text);
      assert rules[i] in others;
    }
  }

  // --- a second pass ----------------------------------------------------------------------------------------

  /** A thread no matching rule can change any more. */
  predicate Settled(rules: seq<Rule>, m: Mail, text: Text) {
    forall i :: 0 <= i < |rules| && Matches(rules[i], m, text) ==> Act(rules[i], m) == m
  }

  lemma {:induction false} SettledStays(rules: seq<Rule>, m: Mail, text: Text)
    requires Settled(rules, m, text)
    ensures After(rules, m, text) == m && Changes(rules, m, text) == 0
  {
    hide Matches, Act;
    if rules != [] {
      SettledStays(rules[..|rules| - 1], m, text);
    }
  }

  lemma OutcomeSettled(rules: seq<Rule>, m: Mail, text: Text, n: Mail)
    requires Outcome(rules, m, text, n)
    ensures Settled(rules, n, text)
  {
    hide Matches;
    forall i | 0 <= i < |rules| && Matches(rules[i], n, text)
      ensures Act(rules[i], n) == n
    {
      MatchesIgnores(rules[i], m, n, text);
      assert Asked(rules, m, text, rules[i].action);
      if rules[i].action.Label? && rules[i].lbl != "" {
        assert AskedLabel(rules, m, text, rules[i].lbl);
      }
    }
  }

  /** One pass reaches a fixpoint: a second one changes nothing and counts nothing. */
  lemma OnePassSuffices(rules: seq<Rule>, m: Mail, text: Text)
    ensures var n := Filtered(rules, m, text);
            Filtered(rules, n, text) == n && Counted(rules, n, text) == 0
  {
    hide After, Changes, Settled, Outcome;
    if !Skipped(m) {
      AfterIsOutcome(rules, m, text);
      OutcomeSettled(rules, m, text, After(rules, m, text));
      SettledStays(rules, After(rules, m, text), text);
    }
  }

  // --- the count --------------------------------------------------------------------------------------------

  lemma {:induction false} ChangesTell(rules: seq<Rule>, m: Mail, text: Text)
    ensures Changes(rules, m, text) == 0 ==> After(rules, m, text) == m
    ensures After(rules, m, text) != m ==> Changes(rules, m, text) > 0
  {
    if rules != [] {
      ChangesTell(rules[..|rules| - 1], m, text);
    }
  }

  /** No rule brings a thread back: a step that changes it leaves it changed for good. */
  lemma {:induction false} CountedTells(rules: seq<Rule>, m: Mail, text: Text)
    ensures Counted(rules, m, text) == 0 <==> Filtered(rules, m, text) == m
  {
    hide Matches;
    if !Skipped(m) {
      ChangesTell(rules, m, text);
      if After(rules, m, text) == m {
        AfterIsOutcome(rules, m, text);
        OutcomeSettled(rules, m, text, m);
        SettledStays(rules, m, text);
      }
    }
  }

  /**
   * The count is of rule applications, not of threads as its comment says, and unlike the result it does
   * depend on the order: filed as spam first, a thread is not archived any more.
   */
  lemma CountDependsOnOrder(m: Mail, archive: Rule, spam: Rule, text: Text)
    requires m.folder.Inbox? && archive.action.Archive? && spam.action.Spam?
    requires Matches(archive, m, text) && Matches(spam, m, text)
    ensures Counted([archive, spam], m, text) == 2 && Counted([spam, archive], m, text) == 1
    ensures Filtered([archive, spam], m, text) == Filtered([spam, archive], m, text) == m.(folder := Junk)
  {
    CountTwo(m, archive, spam, text);
    CountTwo(m, spam, archive, text);
  }

  lemma CountTwo(m: Mail, a: Rule, b: Rule, text: Text)
    requires Matches(a, m, text) && Matches(b, m, text)
    ensures After([a, b], m, text) == Act(b, Act(a, m))
    ensures Changes([a, b], m, text)
         == (if Act(a, m) != m then 1 else 0) + (if Act(b, Act(a, m)) != Act(a, m) then 1 else 0)
  {
    assert [a, b][..1] == [a] && [a][..0] == [];
    hide Matches;
    MatchesIgnores(b, m, Act(a, m), text);
    assert After([a], m, text) == Act(a, m);
    assert Changes([a], m, text) == if Act(a, m) != m then 1 else 0;
  }

  // --- in place ---------------------------------------------------------------------------------------------

  class Thread {
    const subject: string
    const senders: seq<string>
    var folder: Folder
    var labels: seq<string>
    var starred: bool
    var read: bool

    function Value(): Mail
      reads this
    {
      Mail(subject, senders, folder, labels, starred, read)
    }

    constructor (m: Mail)
      ensures Value() == m
    {
      subject, senders, folder, labels, starred, read := m.subject, m.senders, m.folder, m.labels, m.starred, m.read;
    }

    /** Run one rule over the thread. */
    method Apply(rule: Rule, text: Text) returns (did: bool)
      modifies this
      ensures Value() == Step(rule, old(Value()), text) && did == (Value() != old(Value()))
    {
      hide Matches;
      did := false;
      if !Matches(rule, Value(), text) {
        return;
      }
      if rule.action.Label? && rule.lbl != "" && rule.lbl !in labels {
        labels := labels + [rule.lbl];
        did := true;
        assert |labels| != |old(labels)|;
      } else if rule.action.Star? && !starred {
        starred, did := true, true;
      } else if rule.action.Archive? && folder.Inbox? {
        folder, did := Archived, true;
      } else if rule.action.Spam? && !folder.Junk? {
        folder, did := Junk, true;
      } else if rule.action.Read? && !read {
        read, did := true, true;
      }
    }

    method ApplyAll(rules: seq<Rule>, text: Text) returns (changed: nat)
      modifies this
      ensures Value() == Filtered(rules, old(Value()), text)
      ensures changed == Counted(rules, old(Value()), text)
    {
      hide Step;
      changed := 0;
      if folder.Trash? || folder.Sent? || folder.Drafts? {
        return;
      }
      for i := 0 to |rules|
        invariant Value() == After(rules[..i], old(Value()), text)
        invariant changed == Changes(rules[..i], old(Value()), text)
      {
        assert rules[..i + 1][..i] == rules[..i];
        var did := Apply(rules[i], text);
        if did {
          changed := changed + 1;
        }
      }
      assert rules[..|rules|] == rules;
    }
  }

  /** The count over a list of threads. */
  function Total(rules: seq<Rule>, ms: seq<Mail>, text: Text): nat {
    if ms == [] then 0 else Total(rules, ms[..|ms| - 1], text) + Counted(rules, ms[|ms| - 1], text)
  }

  predicate Distinct(threads: seq<Thread>) {
    forall i, j :: 0 <= i < j < |threads| ==> threads[i] != threads[j]
  }

  /** Every thread, wherever and however often it is listed, ends as its rules say; the count tells of any change. */
  method ApplyFilters(threads: seq<Thread>, rules: seq<Rule>, text: Text, ghost were: seq<Mail>) returns (changed: nat)
    requires |were| == |threads| && forall i :: 0 <= i < |threads| ==> were[i] == threads[i].Value()
    modifies set t | t in threads
    ensures forall t :: t in threads ==> t.Value() == Filtered(rules, old(t.Value()), text)
    ensures changed == 0 <==> forall t :: t in threads ==> t.Value() == old(t.Value())
    ensures Distinct(threads) ==> changed == Total(rules, were, text)
  {
    hide Filtered, Counted;
    changed := 0;
    for i := 0 to |threads|
      invariant forall t :: t in threads ==>
                  t.Value() == if t in threads[..i] then Filtered(rules, old(t.Value()), text) else old(t.Value())
      invariant changed == 0 <==> forall t :: t in threads[..i] ==> t.Value() == old(t.Value())
      invariant Distinct(threads) ==> changed == Total(rules, were[..i], text)
    {
      ghost var before := threads[i].Value();
      var more := threads[i].ApplyAll(rules, text);
      changed := changed + more;
      assert threads[..i + 1] == threads[..i] + [threads[i]];
      OnePassSuffices(rules, old(threads[i].Value()), text);
      CountedTells(rules, before, text);
      assert were[..i + 1][..i] == were[..i];
      assert Distinct(threads) ==> threads[i] !in threads[..i];
    }
    assert were[..|threads|] == were;
  }
}
