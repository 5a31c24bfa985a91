/** The chat assistant: a log of messages, the text being typed, and the
    task store it shares with the rest of the application. Built-in commands
    (`aide`, `ajouter <titre>`, `avancement`, `liste`) are answered locally by
    `process`; anything else goes to the model adapter. */
module Chatbot {
  import opened Wrappers
  import opened Text
  import opened StudyPlannerContext
  import Model

  datatype Sender = User | Bot

  /** One chat message. */
  datatype Msg = Msg(from: Sender, text: string)

  const Greeting := "Bonjour ! Je suis ton assistant d'étude. Tape `aide` pour voir les commandes."
  /** The typing indicator's text. */
  const Indicator := "..."
  const HelpText := "Commandes: `ajouter <titre>` ; `avancement` ; `liste` ; `aide`"
  const MissingTitle := "Donne un titre : `ajouter Préparer examen`"
  const NoTasksText := "Aucune tâche pour le moment. Ajoute-en avec `ajouter <titre>`."
  const ListHeader := "Voici tes tâches:\n"
  const NotUnderstoodText := "Je n'ai pas compris. Tape `aide` pour les commandes."

  /** The branch of `process` an input falls into. */
  datatype Command = Help | Add(title: string) | AddWithoutTitle | ShowProgress | ListTasks | NotUnderstood

  /** `text.trim().toLowerCase()`: no surrounding white space, empty
      exactly for a blank input. */
  function Normalised(text: string): (t: string)
    ensures |t| <= |text|
    ensures t == [] <==> AllSpace(text)
    ensures t != [] ==> !IsSpace(t[0]) && !IsSpace(t[|t| - 1])
  {
    var r := Trim(text);
    if r == [] then r
    else
      LowerSpace(r[0]);
      LowerSpace(r[|r| - 1]);
      Lower(r)
  }

  predicate IsHelpWord(t: string) {
    t == "aide" || t == "help"
  }

  predicate IsAddCommand(t: string) {
    StartsWith(t, "ajouter ") || StartsWith(t, "add ")
  }

  predicate MentionsProgress(t: string) {
    Contains(t, "avancement") || Contains(t, "progress") || Contains(t, "progrès")
  }

  predicate MentionsList(t: string) {
    Contains(t, "liste") || Contains(t, "tâche") || Contains(t, "tache")
  }

  /** `text.slice(text.indexOf(' ') + 1)`: the original text after its first space
      (the whole text when it has none). */
  function AfterFirstSpace(text: string): (rest: string)
    ensures ' ' !in text ==> rest == text
    ensures ' ' in text ==> |rest| < |text| && text == text[..|text| - |rest| - 1] + " " + rest
    ensures ' ' in text ==> ' ' !in text[..|text| - |rest| - 1]
  {
    var k := IndexOf(text, ' ');
    assert k >= 0 ==> text == text[..k] + " " + text[k + 1..];
    text[k + 1..]
  }

  /** The title `process` extracts for an add command: what follows the
      first space, without surrounding white space. */
  function TitleOf(text: string): (title: string)
    ensures |title| <= |text|
    ensures title == [] <==> AllSpace(AfterFirstSpace(text))
    ensures title != [] ==> !IsSpace(title[0]) && !IsSpace(title[|title| - 1])
    ensures ' ' !in text ==> title == Trim(text)
  {
    Trim(AfterFirstSpace(text))
  }

  /** The branch `process` takes: the tests are made in the order help, add,
      progress, list, and the first that holds decides. */
  function Classify(text: string): (c: Command)
    ensures c.Add? ==> c.title == TitleOf(text) && IsAddCommand(Normalised(text))
    ensures var t := Normalised(text);
      (IsHelpWord(t) ==> c == Help) &&
      (!IsHelpWord(t) && !IsAddCommand(t) && MentionsProgress(t) ==> c == ShowProgress) &&
      (!IsHelpWord(t) && !IsAddCommand(t) && !MentionsProgress(t) && MentionsList(t) ==> c == ListTasks) &&
      (!IsHelpWord(t) && !IsAddCommand(t) && !MentionsProgress(t) && !MentionsList(t) ==> c == NotUnderstood)
  {
    var t := Normalised(text);
    if IsHelpWord(t) then Help
    else if IsAddCommand(t) then
      var title := TitleOf(text);
      if title == "" then AddWithoutTitle else Add(title)
    else if MentionsProgress(t) then ShowProgress
    else if MentionsList(t) then ListTasks
    else NotUnderstood
  }

  /** Commands do not depend on letter case: two inputs equal once
      lower-cased take the same branch of `process`, an add keeping its own
      title, and the same route in `onSubmit`. */
  lemma CommandsIgnoreCase(a: string, b: string)
    requires Lower(a) == Lower(b)
    ensures Normalised(a) == Normalised(b)
    ensures IsLocalCommand(Normalised(a)) <==> IsLocalCommand(Normalised(b))
    ensures Classify(a).Add? <==> Classify(b).Add?
    ensures !Classify(a).Add? ==> Classify(a) == Classify(b)
  {
    TrimIgnoresCase(a, b);
    NeverAddWithoutTitle(a);
    NeverAddWithoutTitle(b);
  }

  /** For instance `AIDE` is the help command. */
  lemma UpperCaseHelp()
    ensures Normalised("AIDE") == "aide"
    ensures Classify("AIDE") == Help
  {
    var s := "AIDE";
    assert LeadingSpaces(s) == 0 && s[0..] == s;
    assert TrailingSpaces(s) == 0;
    assert Trim(s) == s;
    assert Lower(s) == "aide" by {
      assert Lower(s)[0] == 'a' && Lower(s)[1] == 'i' && Lower(s)[2] == 'd' && Lower(s)[3] == 'e';
    }
  }

  /** One line of the task listing: a check mark for a completed task, an
      empty box otherwise, a space, then the title. */
  function TaskLine(t: Task): (line: string)
    ensures |line| == |t.title| + 2
    ensures line[0] == (if t.completed then '✅' else '⬜') && line[1] == ' '
    ensures line[2..] == t.title
  {
    (if t.completed then "✅" else "⬜") + " " + t.title
  }

  /** The listing's lines, one per task, in list order. */
  function TaskLines(tasks: seq<Task>): (lines: seq<string>)
    ensures |lines| == |tasks|
    ensures forall i :: 0 <= i < |tasks| ==> lines[i] == TaskLine(tasks[i])
  {
    if tasks == [] then [] else [TaskLine(tasks[0])] + TaskLines(tasks[1..])
  }

  /** The reply `process` pushes for a command, given the tasks at that moment. */
  function ReplyFor(c: Command, tasks: seq<Task>): (r: string)
    ensures r != Indicator
    ensures c == Help ==> r == HelpText
    ensures c.Add? ==> r == "Tâche ajoutée : \"" + c.title + "\""
    ensures c == AddWithoutTitle ==> r == MissingTitle
    ensures c == NotUnderstood ==> r == NotUnderstoodText
    ensures c == ShowProgress ==>
      r == "Ton avancement est de " + NatToString(ProgressOf(tasks)) + "% (" +
           NatToString(CompletedCount(tasks)) + "/" + NatToString(|tasks|) + ")"
    ensures c == ListTasks && tasks == [] ==> r == NoTasksText
    ensures c == ListTasks && tasks != [] ==> r == ListHeader + Join(TaskLines(tasks), "\n")
    ensures c == ListTasks && tasks != [] ==> StartsWith(r, ListHeader)
  {
    match c
    case Help => HelpText
    case Add(title) => "Tâche ajoutée : \"" + title + "\""
    case AddWithoutTitle => MissingTitle
    case ShowProgress =>
      "Ton avancement est de " + NatToString(ProgressOf(tasks)) + "% (" +
      NatToString(CompletedCount(tasks)) + "/" + NatToString(|tasks|) + ")"
    case ListTasks =>
      if tasks == [] then NoTasksText
      else ListHeader + Join(TaskLines(tasks), "\n")
    case NotUnderstood => NotUnderstoodText
  }

  /** The listing shows each task on its own display line, in list order:
      splitting what follows the header at the newlines, as the chat bubble
      does, gives back one `TaskLine` per task, as long as no title holds a
      newline. */
  lemma {:induction false} ListingLines(tasks: seq<Task>)
    requires tasks != []
    requires forall i :: 0 <= i < |tasks| ==> '\n' !in tasks[i].title
    ensures Split(ReplyFor(ListTasks, tasks)[|ListHeader|..], '\n') == TaskLines(tasks)
  {
    var lines := TaskLines(tasks);
    forall i | 0 <= i < |lines| ensures '\n' !in lines[i] {
      assert lines[i][2..] == tasks[i].title;
    }
    var body := Join(lines, "\n");
    assert (ListHeader + body)[|ListHeader|..] == body;
    SplitJoin(lines, '\n');
  }

  /** The task list after `process` handles a command: only a titled add
      changes it, by putting a fresh incomplete task in front. */
  function TasksAfter(c: Command, tasks: seq<Task>, freshId: string): (r: seq<Task>)
    ensures !c.Add? ==> r == tasks
    ensures c.Add? ==>
      |r| == |tasks| + 1 && r[1..] == tasks && r[0] == Task(freshId, c.title, None, false, None)
  {
    if c.Add? then [Task(freshId, c.title, None, false, None)] + tasks else tasks
  }

  /** The test `onSubmit` makes on the normalised input before calling `process`. */
  predicate IsLocalCommand(low: string)
    ensures IsHelpWord(low) || IsAddCommand(low) ==> IsLocalCommand(low)
    ensures IsLocalCommand(low) ==> IsHelpWord(low) || IsAddCommand(low) || MentionsProgress(low) || MentionsList(low)
  {
    low == "aide" || low == "help" || StartsWith(low, "ajouter ") || StartsWith(low, "add ") ||
    Contains(low, "liste") || Contains(low, "avancement") || Contains(low, "progress")
  }

  /** `msgs.filter(m => m.text !== '...')`. */
  function WithoutIndicator(ms: seq<Msg>): (r: seq<Msg>)
    ensures |r| <= |ms|
    ensures forall i :: 0 <= i < |r| ==> r[i].text != Indicator
  {
    if ms == [] then []
    else if ms[0].text == Indicator then WithoutIndicator(ms[1..])
    else [ms[0]] + WithoutIndicator(ms[1..])
  }

  // ---------------------------------------------------------------------
  // Properties of the string tests

  /** An add command's input has a space (the one after the command word)
      followed later by a non-space character (the last one of the trimmed
      input). */
  lemma CommandSpace(text: string) returns (j: nat, e: nat)
    requires IsAddCommand(Normalised(text))
    ensures j < e < |text| && text[j] == ' ' && !IsSpace(text[e])
  {
    var t := Normalised(text);
    var a := LeadingSpaces(text);
    var core := Trim(text);
    var m := |core|;
    var w: nat;
    if StartsWith(t, "ajouter ") {
      w := 7;
      assert t[w] == t[..8][7] == ' ';
    } else {
      w := 3;
      assert t[w] == t[..4][3] == ' ';
    }
    LowerSpace(core[w]);
    LowerSpace(core[m - 1]);
    assert w < m - 1;
    j, e := a + w, a + m - 1;
    assert text[j] == core[w] && text[e] == core[m - 1];
  }

  /** The title `process` extracts for an add command is never empty, so the
      "give a title" reply is unreachable: the first space of the input comes
      no later than the command word's, and a non-space character follows. */
  lemma AddTitleNonEmpty(text: string)
    requires IsAddCommand(Normalised(text))
    ensures TitleOf(text) != ""
  {
    var j, e := CommandSpace(text);
    IndexOfAtMost(text, ' ', j);
    var k := IndexOf(text, ' ');
    assert text[k + 1..][e - (k + 1)] == text[e];
  }

  /** No add command is also a help word, so the add test is reached for every add command. */
  lemma AddIsNotHelp(t: string)
    requires IsAddCommand(t)
    ensures !IsHelpWord(t)
  {
    assert t[0] == 'a';
    assert t[1] == 'd' || t[1] == 'j';
    assert "aide"[1] == 'i';
  }

  /** `Classify` never answers with the missing-title reply, and every add
      command is classified as an add with its title. */
  lemma NeverAddWithoutTitle(text: string)
    ensures Classify(text) != AddWithoutTitle
    ensures IsAddCommand(Normalised(text)) ==> Classify(text) == Add(TitleOf(text))
  {
    if IsAddCommand(Normalised(text)) {
      AddIsNotHelp(Normalised(text));
      AddTitleNonEmpty(text);
    }
  }

  /** When the input starts with a space, the first space is that one, and the
      extracted title is the whole trimmed input, command word included:
      `" add devoir"` adds a task titled `"add devoir"`. */
  lemma LeadingSpaceKeepsCommandWord(text: string)
    requires |text| > 0 && text[0] == ' '
    requires IsAddCommand(Normalised(text))
    ensures TitleOf(text) == Trim(text)
    ensures Classify(text) == Add(Trim(text))
    ensures IsAddCommand(Lower(Classify(text).title))
  {
    assert TitleOf(text) == Trim(text) by {
      IndexOfFirst(text, ' ', 0);
      assert AfterFirstSpace(text) == text[1..];
      TrimSkipsLeadingSpace(text);
    }
    NeverAddWithoutTitle(text);
  }

  /** When the input starts with the command word itself, the title is the
      rest of the input after the command word and its space, trimmed. */
  lemma CommandWordDropped(text: string, word: string)
    requires ' ' !in word
    requires |text| > 0 && !IsSpace(text[0])
    requires StartsWith(Normalised(text), word + " ")
    ensures TitleOf(text) == Trim(text[|word| + 1..])
  {
    var core := Trim(text);
    assert LeadingSpaces(text) == 0;
    assert core == text[..|core|];
    var t := Normalised(text);
    forall i | 0 <= i < |word| ensures text[i] != ' ' {
      assert t[i] == (word + " ")[i] == word[i];
      LowerSpace(text[i]);
    }
    assert t[|word|] == ' ';
    LowerSpace(text[|word|]);
    IndexOfFirst(text, ' ', |word|);
  }

  /** Every input `onSubmit` treats as local gets a real answer from `process`:
      never "not understood", never the missing-title reply. */
  lemma LocalCommandsAreUnderstood(text: string)
    requires IsLocalCommand(Normalised(text))
    ensures Classify(text) != NotUnderstood && Classify(text) != AddWithoutTitle
  {
    NeverAddWithoutTitle(text);
    var t := Normalised(text);
    if Contains(t, "liste") { assert MentionsList(t); }
  }

  /** An input reading `progrès` is understood by `process` as a progress
      request, but `onSubmit` does not treat it as local, so it goes to the
      model adapter instead. */
  lemma ProgresGoesRemote(text: string)
    requires Normalised(text) == "progrès"
    ensures !IsLocalCommand(Normalised(text))
    ensures Classify(text) == ShowProgress
  {
    var t := Normalised(text);
    assert !IsLocalCommand(t) by {
      assert 'l' !in t;
      ContainsFirstChar(t, "liste");
      assert !Contains(t, "avancement") by { if Contains(t, "avancement") { ContainsFits(t, "avancement"); } }
      assert !Contains(t, "progress") by { if Contains(t, "progress") { ContainsFits(t, "progress"); } }
    }
    assert !IsHelpWord(t) && !IsAddCommand(t);
    assert Contains(t, "progrès");
  }

  /** An input reading `tâche` or `tache` is understood by `process` as a list
      request, but `onSubmit` does not treat it as local, so it goes to the
      model adapter instead. */
  lemma TacheGoesRemote(text: string)
    requires Normalised(text) == "tâche" || Normalised(text) == "tache"
    ensures !IsLocalCommand(Normalised(text))
    ensures Classify(text) == ListTasks
  {
    var t := Normalised(text);
    assert !IsLocalCommand(t) by {
      assert 'l' !in t;
      ContainsFirstChar(t, "liste");
      assert !Contains(t, "avancement") by { if Contains(t, "avancement") { ContainsFits(t, "avancement"); } }
      assert !Contains(t, "progress") by { if Contains(t, "progress") { ContainsFits(t, "progress"); } }
    }
    assert !IsHelpWord(t) && !IsAddCommand(t);
    assert !MentionsProgress(t) by {
      if Contains(t, "avancement") { ContainsFits(t, "avancement"); }
      if Contains(t, "progress") { ContainsFits(t, "progress"); }
      if Contains(t, "progrès") { ContainsFits(t, "progrès"); }
    }
    assert Contains(t, "tâche") || Contains(t, "tache");
  }

  /** The help reply of `process` is the offline help reply of the model adapter. */
  lemma HelpRepliesAgree(text: string)
    requires IsHelpWord(Normalised(text))
    ensures Classify(text) == Help
    ensures ReplyFor(Classify(text), []) == Model.OfflineReply(text)
  {
  }

  /** `add ` starts a task for `process` (see `NeverAddWithoutTitle`) but is
      not recognised offline: unless it mentions progress, the offline adapter
      just echoes it. */
  lemma AddNotRecognisedOffline(text: string)
    requires StartsWith(Normalised(text), "add ") && !MentionsProgress(Normalised(text))
    ensures Model.OfflineReply(text) == Model.OfflineEchoPrefix + text + "\""
  {
    var t := Normalised(text);
    AddIsNotHelp(t);
    assert t[1] == 'd';
    assert !StartsWith(t, "ajouter ");
  }

  /** An input that reaches the model adapter in offline mode never gets the
      canned help or add-hint reply: those inputs are handled locally. */
  lemma OfflineRepliesForSubmitted(text: string)
    requires !IsLocalCommand(Normalised(text))
    ensures Model.OfflineReply(text) == Model.OfflineProgress ||
            Model.OfflineReply(text) == Model.OfflineEchoPrefix + text + "\""
  {
  }

  // ---------------------------------------------------------------------
  // Properties of the message log

  /** Filtering keeps exactly the messages that are not the indicator. */
  lemma {:induction false} WithoutIndicatorKeeps(ms: seq<Msg>)
    ensures forall m :: m in WithoutIndicator(ms) <==> m in ms && m.text != Indicator
  {
    if ms != [] {
      WithoutIndicatorKeeps(ms[1..]);
      assert ms == [ms[0]] + ms[1..];
    }
  }

  /** Filtering out the indicator distributes over concatenation. */
  lemma {:induction false} WithoutIndicatorAppend(a: seq<Msg>, b: seq<Msg>)
    ensures WithoutIndicator(a + b) == WithoutIndicator(a) + WithoutIndicator(b)
  {
    if a == [] {
      assert a + b == b;
    } else {
      assert (a + b)[1..] == a[1..] + b;
      WithoutIndicatorAppend(a[1..], b);
    }
  }

  /** What one submission leaves in the log, whether the reply is pushed
      before the indicator is filtered out (a local command) or after (a
      remote one): the earlier messages without any indicator, the user's
      message unless it is itself `...`, then exactly one bot reply. */
  lemma SubmissionLog(ms: seq<Msg>, v: string, reply: string)
    ensures reply != Indicator ==>
      WithoutIndicator(ms + [Msg(User, v), Msg(Bot, Indicator), Msg(Bot, reply)]) ==
      WithoutIndicator(ms) + (if v == Indicator then [] else [Msg(User, v)]) + [Msg(Bot, reply)]
    ensures WithoutIndicator(ms + [Msg(User, v), Msg(Bot, Indicator)]) + [Msg(Bot, reply)] ==
      WithoutIndicator(ms) + (if v == Indicator then [] else [Msg(User, v)]) + [Msg(Bot, reply)]
  {
    var user, dots, bot := Msg(User, v), Msg(Bot, Indicator), Msg(Bot, reply);
    var u := if v == Indicator then [] else [user];
    assert WithoutIndicator(ms + [user]) == WithoutIndicator(ms) + u by {
      WithoutIndicatorAppend(ms, [user]);
      WithoutIndicatorOne(user);
    }
    assert WithoutIndicator(ms + [user, dots]) == WithoutIndicator(ms) + u by {
      assert ms + [user, dots] == ms + [user] + [dots];
      WithoutIndicatorAppend(ms + [user], [dots]);
      WithoutIndicatorOne(dots);
    }
    if reply != Indicator {
      assert WithoutIndicator(ms + [user, dots, bot]) == WithoutIndicator(ms) + u + [bot] by {
        assert ms + [user, dots, bot] == ms + [user, dots] + [bot];
        WithoutIndicatorAppend(ms + [user, dots], [bot]);
        WithoutIndicatorOne(bot);
      }
    }
  }

  /** Filtering a single message keeps it exactly when it is not the indicator. */
  lemma WithoutIndicatorOne(m: Msg)
    ensures WithoutIndicator([m]) == if m.text == Indicator then [] else [m]
  {
    assert [m][1..] == [];
  }

  /** The chat component's state. */
  class Chatbot {
    var messages: seq<Msg>
    /** The text currently in the input field. */
    var draft: string
    /** The shared task store. */
    const planner: StudyPlanner

    /** The chat starts with the greeting and an empty input field. */
    constructor (planner: StudyPlanner)
      ensures this.planner == planner
      ensures messages == [Msg(Bot, Greeting)] && draft == ""
    {
      this.planner := planner;
      messages := [Msg(Bot, Greeting)];
      draft := "";
    }

    /** `push`: appends one message to the log. */
    method Push(m: Msg)
      modifies this
      ensures messages == old(messages) + [m]
      ensures draft == old(draft)
    {
      messages := messages + [m];
    }

    /** The input field's `onChange`. */
    method SetDraft(v: string)
      modifies this
      ensures draft == v && messages == old(messages)
    {
      draft := v;
    }

    /** `process`: answers a built-in command with exactly one bot message,
        the reply `ReplyFor` gives for the tasks at that moment, and, for a
        titled add command, first adds the task with a fresh id. */
    method Process(text: string, freshId: string)
      requires freshId !in Ids(planner.tasks)
      modifies this, planner
      ensures messages == old(messages) + [Msg(Bot, ReplyFor(Classify(text), old(planner.tasks)))]
      ensures planner.tasks == TasksAfter(Classify(text), old(planner.tasks), freshId)
      ensures draft == old(draft)
    {
      var tasks := planner.tasks;
      var command := Classify(text);
      var reply := ReplyFor(command, tasks);
      if command.Add? {
        var t := planner.AddTask(freshId, command.title, None, None);
        assert t == Task(freshId, command.title, None, false, None);
      }
      ghost var after := planner.tasks;
      assert after == TasksAfter(command, tasks, freshId);
      Push(Msg(Bot, reply));
      assert planner.tasks == after;
    }

    /** `onSubmit`: ignores a blank input; otherwise logs the user's message,
        clears the input field, shows the indicator, answers locally or through
        the model adapter, and removes every indicator message. `proxyOut` and
        `geminiOut` stand for what the remote requests come back with. */
    method OnSubmit(cfg: Model.Config, proxyOut: Model.ProxyOutcome, geminiOut: Model.GeminiOutcome, freshId: string)
      requires freshId !in Ids(planner.tasks)
      modifies this, planner
      ensures var v := old(draft);
        Trim(v) == "" ==> messages == old(messages) && draft == v && planner.tasks == old(planner.tasks)
      ensures var v := old(draft);
        Trim(v) != "" && IsLocalCommand(Normalised(v)) ==>
          draft == "" &&
          messages == WithoutIndicator(old(messages) + [Msg(User, v), Msg(Bot, Indicator),
                                                         Msg(Bot, ReplyFor(Classify(v), old(planner.tasks)))]) &&
          planner.tasks == TasksAfter(Classify(v), old(planner.tasks), freshId)
      ensures var v := old(draft);
        Trim(v) != "" && !IsLocalCommand(Normalised(v)) ==>
          draft == "" &&
          messages == WithoutIndicator(old(messages) + [Msg(User, v), Msg(Bot, Indicator)]) +
                      [Msg(Bot, Model.QueryModel(cfg, proxyOut, geminiOut, v))] &&
          planner.tasks == old(planner.tasks)
    {
      if Trim(draft) == "" {
        return;
      }
      ghost var before := messages;
      var userText := draft;
      Push(Msg(User, userText));
      draft := "";
      Push(Msg(Bot, Indicator));
      assert messages == before + [Msg(User, userText), Msg(Bot, Indicator)];
      var low := Normalised(userText);
      if IsLocalCommand(low) {
        Process(userText, freshId);
        assert messages == before + [Msg(User, userText), Msg(Bot, Indicator), messages[|messages| - 1]];
        messages := WithoutIndicator(messages);
        return;
      }
      var reply := Model.QueryModel(cfg, proxyOut, geminiOut, userText);
      messages := WithoutIndicator(messages);
      Push(Msg(Bot, reply));
    }
  }
}
