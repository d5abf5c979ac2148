/** The transcript rows and message counts of conversations under any
    interleaving of chat turns. Every step is one atomic write or one event of
    a turn; a turn may stop between any two of its steps. */
module ChatTranscript {

  datatype Role = User | Assistant

  datatype Row = Row(conversation: string, role: Role, content: string, turn: nat)

  /** How far a turn has come. */
  datatype Phase =
    | Begun              // not yet past permission and gate
    | Passed
    | UserWritten        // the user's row is there, not yet counted
    | UserCounted
    | Answered           // the tool loop ended normally
    | AssistantWritten   // the answer's row is there, not yet counted
    | AssistantCounted

  /** A turn; a stopped one takes no further step. No conversation is "". */
  datatype Turn = Turn(conversation: string, message: string, answer: string, phase: Phase, stopped: bool)

  datatype State = State(rows: seq<Row>, counts: map<string, int>, turns: map<nat, Turn>)

  datatype Step =
    | NewConversation(conversation: string)
    | Begin(turn: nat, conversation: string, message: string)
    | Pass(turn: nat)
    | WriteUser(turn: nat)
    | CountUser(turn: nat)
    | Answer(turn: nat, text: string)
    | WriteAssistant(turn: nat)
    | CountAssistant(turn: nat)
    | Stop(turn: nat)

  // ---- the steps ----

  /** `_persist_message`: without a conversation there is nothing to write. */
  function Persisted(rows: seq<Row>, row: Row): seq<Row> {
    if row.conversation == "" then rows else rows + [row]
  }

  /** `_bump_message_count`: an update of the conversation's row, if there is one. */
  function Bumped(counts: map<string, int>, conversation: string): map<string, int> {
    if conversation != "" && conversation in counts then counts[conversation := counts[conversation] + 1] else counts
  }

  predicate Ready(s: State, t: nat, phase: Phase) {
    t in s.turns && s.turns[t].phase == phase && !s.turns[t].stopped
  }

  function Moved(s: State, t: nat, phase: Phase): map<nat, Turn>
    requires t in s.turns
  {
    s.turns[t := s.turns[t].(phase := phase)]
  }

  /** A step that is not due changes nothing. */
  function Next(s: State, step: Step): State {
    match step
    case NewConversation(c) =>
      if c == "" || c in s.counts || (exists t :: t in s.turns && s.turns[t].conversation == c) then s
      else s.(counts := s.counts[c := 0])
    case Begin(t, c, message) =>
      if t in s.turns then s else s.(turns := s.turns[t := Turn(c, message, "", Begun, false)])
    case Pass(t) => if Ready(s, t, Begun) then s.(turns := Moved(s, t, Passed)) else s
    case WriteUser(t) =>
      if Ready(s, t, Passed) then
        s.(rows := Persisted(s.rows, Row(s.turns[t].conversation, User, s.turns[t].message, t)),
           turns := Moved(s, t, UserWritten))
      else s
    case CountUser(t) =>
      if Ready(s, t, UserWritten) then
        s.(counts := Bumped(s.counts, s.turns[t].conversation), turns := Moved(s, t, UserCounted))
      else s
    case Answer(t, text) =>
      if Ready(s, t, UserCounted) then s.(turns := s.turns[t := s.turns[t].(phase := Answered, answer := text)]) else s
    case WriteAssistant(t) =>
      if Ready(s, t, Answered) then
        s.(rows := Persisted(s.rows, Row(s.turns[t].conversation, Assistant, s.turns[t].answer, t)),
           turns := Moved(s, t, AssistantWritten))
      else s
    case CountAssistant(t) =>
      if Ready(s, t, AssistantWritten) then
        s.(counts := Bumped(s.counts, s.turns[t].conversation), turns := Moved(s, t, AssistantCounted))
      else s
    case Stop(t) => if t in s.turns then s.(turns := s.turns[t := s.turns[t].(stopped := true)]) else s
  }

  function Run(s: State, steps: seq<Step>): State {
    if steps == [] then s else Next(Run(s, steps[..|steps| - 1]), steps[|steps| - 1])
  }

  function Empty(): State { State([], map[], map[]) }

  // ---- what is counted ----

  /** How many rows a conversation has. */
  function RowCount(rows: seq<Row>, conversation: string): nat {
    if rows == [] then 0
    else
      var n := |rows| - 1;
      RowCount(rows[..n], conversation) + if rows[n].conversation == conversation then 1 else 0
  }

  /** The rows of a turn, in order. */
  function RowsOf(rows: seq<Row>, t: nat): seq<Row> {
    if rows == [] then []
    else
      var n := |rows| - 1;
      RowsOf(rows[..n], t) + if rows[n].turn == t then [rows[n]] else []
  }

  /** The turn stands, or has stopped, between a row and its bump. */
  predicate Owes(turn: Turn, conversation: string) {
    turn.conversation == conversation && turn.phase in {UserWritten, AssistantWritten}
  }

  ghost function Owing(turns: map<nat, Turn>, conversation: string): set<nat> {
    set t | t in turns && Owes(turns[t], conversation)
  }

  /** What a turn has contributed to the transcript at each phase. */
  function Contribution(t: nat, turn: Turn): seq<Row> {
    var user, assistant :=
      Row(turn.conversation, User, turn.message, t), Row(turn.conversation, Assistant, turn.answer, t);
    if turn.conversation == "" || turn.phase.Begun? || turn.phase.Passed? then []
    else if turn.phase in {UserWritten, UserCounted, Answered} then [user]
    else [user, assistant]
  }

  // ---- what every step keeps ----

  ghost predicate Counted(s: State) {
    forall c :: c in s.counts ==> c != "" && s.counts[c] + |Owing(s.turns, c)| == RowCount(s.rows, c)
  }

  ghost predicate Contributed(s: State) {
    forall t :: t in s.turns ==> RowsOf(s.rows, t) == Contribution(t, s.turns[t])
  }

  /** Every row belongs to a turn of its conversation. */
  ghost predicate Owned(s: State) {
    forall i :: 0 <= i < |s.rows| ==>
      s.rows[i].turn in s.turns && s.rows[i].conversation == s.turns[s.rows[i].turn].conversation
  }

  ghost predicate Sound(s: State) { Counted(s) && Contributed(s) && Owned(s) }

  lemma {:induction false} RowAdded(rows: seq<Row>, row: Row, conversation: string, t: nat)
    ensures RowCount(rows + [row], conversation) ==
      RowCount(rows, conversation) + if row.conversation == conversation then 1 else 0
    ensures RowsOf(rows + [row], t) == RowsOf(rows, t) + if row.turn == t then [row] else []
  {
    assert (rows + [row])[..|rows|] == rows;
  }

  lemma {:induction false} NoRows(rows: seq<Row>, conversation: string, t: nat)
    ensures (forall i :: 0 <= i < |rows| ==> rows[i].conversation != conversation) ==> RowCount(rows, conversation) == 0
    ensures (forall i :: 0 <= i < |rows| ==> rows[i].turn != t) ==> RowsOf(rows, t) == []
  {
    if rows != [] { NoRows(rows[..|rows| - 1], conversation, t); }
  }

  lemma {:induction false} Adding(others: set<nat>, t: nat, whole: set<nat>, there: bool)
    requires t !in others && whole == if there then others + {t} else others
    ensures |whole| == |others| + if there then 1 else 0
  {}

  ghost function OwingOthers(turns: map<nat, Turn>, t: nat, conversation: string): set<nat> {
    set u | u in turns && u != t && Owes(turns[u], conversation)
  }

  lemma {:induction false} OwingSplits(turns: map<nat, Turn>, t: nat, conversation: string)
    ensures |Owing(turns, conversation)| ==
      |OwingOthers(turns, t, conversation)| + if t in turns && Owes(turns[t], conversation) then 1 else 0
  {
    hide Owes;
    var whole, others := Owing(turns, conversation), OwingOthers(turns, t, conversation);
    var there := t in turns && Owes(turns[t], conversation);
    assert whole == if there then others + {t} else others;
    Adding(others, t, whole, there);
  }

  /** How a turn's move changes who owes a bump. */
  lemma {:induction false} OwingMoves(turns: map<nat, Turn>, t: nat, turn: Turn, conversation: string)
    ensures |Owing(turns[t := turn], conversation)| ==
      |Owing(turns, conversation)| + (if Owes(turn, conversation) then 1 else 0)
      - if t in turns && Owes(turns[t], conversation) then 1 else 0
  {
    hide Owes, Owing;
    OwingSplits(turns, t, conversation);
    OwingSplits(turns[t := turn], t, conversation);
    assert OwingOthers(turns, t, conversation) == OwingOthers(turns[t := turn], t, conversation);
  }

  lemma {:induction false} PersistedCount(rows: seq<Row>, row: Row, c: string)
    requires c != ""
    ensures RowCount(Persisted(rows, row), c) == RowCount(rows, c) + if row.conversation == c then 1 else 0
  {
    RowAdded(rows, row, c, 0);
    hide RowCount, RowsOf;
  }

  /** Writing: one row more and one bump more owed. */
  lemma {:induction false} WriteCounts(s: State, t: nat, row: Row, phase: Phase)
    requires Counted(s) && t in s.turns && row.conversation == s.turns[t].conversation
    requires phase in {UserWritten, AssistantWritten} && s.turns[t].phase !in {UserWritten, AssistantWritten}
    ensures Counted(s.(rows := Persisted(s.rows, row), turns := Moved(s, t, phase)))
  {
    hide Persisted, RowCount, Owing;
    forall c | c in s.counts ensures
      c != "" && s.counts[c] + |Owing(Moved(s, t, phase), c)| == RowCount(Persisted(s.rows, row), c)
    {
      OwingMoves(s.turns, t, s.turns[t].(phase := phase), c);
      PersistedCount(s.rows, row, c);
    }
  }

  /** Bumping: the count catches up with the row. */
  lemma {:induction false} BumpCounts(s: State, t: nat, phase: Phase)
    requires Counted(s) && t in s.turns
    requires s.turns[t].phase in {UserWritten, AssistantWritten} && phase !in {UserWritten, AssistantWritten}
    ensures Counted(s.(counts := Bumped(s.counts, s.turns[t].conversation), turns := Moved(s, t, phase)))
  {
    hide RowCount, Owing;
    forall c | c in s.counts ensures
      c != "" && Bumped(s.counts, s.turns[t].conversation)[c] + |Owing(Moved(s, t, phase), c)| == RowCount(s.rows, c)
    {
      OwingMoves(s.turns, t, s.turns[t].(phase := phase), c);
    }
  }

  /** Anything else a turn does, or a new turn. */
  lemma {:induction false} MoveCounts(s: State, t: nat, turn: Turn)
    requires Counted(s) && (t in s.turns ==> turn.conversation == s.turns[t].conversation)
    requires forall c :: Owes(turn, c) <==> t in s.turns && Owes(s.turns[t], c)
    ensures Counted(s.(turns := s.turns[t := turn]))
  {
    hide RowCount, Owing, Owes;
    forall c | c in s.counts ensures
      c != "" && s.counts[c] + |Owing(s.turns[t := turn], c)| == RowCount(s.rows, c)
    {
      OwingMoves(s.turns, t, turn, c);
    }
  }

  lemma {:induction false} NewCounts(s: State, c: string)
    requires Counted(s) && Owned(s) && c != "" && forall t :: t in s.turns ==> s.turns[t].conversation != c
    ensures Counted(s.(counts := s.counts[c := 0]))
  {
    assert Owing(s.turns, c) == {};
    NoRows(s.rows, c, 0);
    hide RowCount, Owing;
  }

  /** A step that writes a turn's next row. */
  lemma {:induction false} WriteContributes(s: State, t: nat, row: Row, phase: Phase)
    requires Contributed(s) && Owned(s) && t in s.turns && row.turn == t && row.conversation == s.turns[t].conversation
    requires Contribution(t, s.turns[t].(phase := phase)) == Persisted(Contribution(t, s.turns[t]), row)
    ensures Contributed(s.(rows := Persisted(s.rows, row), turns := Moved(s, t, phase)))
    ensures Owned(s.(rows := Persisted(s.rows, row), turns := Moved(s, t, phase)))
  {
    hide RowsOf, Contribution;
    forall u | u in s.turns ensures RowsOf(Persisted(s.rows, row), u) == Contribution(u, Moved(s, t, phase)[u]) {
      RowAdded(s.rows, row, "", u);
    }
  }

  lemma {:induction false} MoveContributes(s: State, t: nat, turn: Turn)
    requires Contributed(s) && Owned(s) && t in s.turns && turn.conversation == s.turns[t].conversation
    requires Contribution(t, turn) == Contribution(t, s.turns[t])
    ensures Contributed(s.(turns := s.turns[t := turn])) && Owned(s.(turns := s.turns[t := turn]))
  {
    hide RowsOf, Contribution;
  }

  lemma {:induction false} BeginContributes(s: State, t: nat, turn: Turn)
    requires Contributed(s) && Owned(s) && t !in s.turns && turn.phase.Begun?
    ensures Contributed(s.(turns := s.turns[t := turn])) && Owned(s.(turns := s.turns[t := turn]))
  {
    NoRows(s.rows, "", t);
    hide RowsOf;
  }

  lemma {:induction false} NextSound(s: State, step: Step)
    requires Sound(s)
    ensures Sound(Next(s, step))
  {
    hide Counted, Contributed, Owned, Owing, RowCount, RowsOf, Bumped, Persisted;
    match step {
      case NewConversation(c) =>
        if Next(s, step) != s {
          NewCounts(s, c);
          NewKeepsRows(s, c);
        }
      case Begin(t, c, message) =>
        if t !in s.turns {
          MoveCounts(s, t, Turn(c, message, "", Begun, false));
          BeginContributes(s, t, Turn(c, message, "", Begun, false));
        }
      case Pass(t) =>
        if Ready(s, t, Begun) { Changed(s, t, s.turns[t].(phase := Passed)); }
      case WriteUser(t) =>
        if Ready(s, t, Passed) {
          var row := Row(s.turns[t].conversation, User, s.turns[t].message, t);
          FirstRow(s, t, row);
          WriteCounts(s, t, row, UserWritten);
          WriteContributes(s, t, row, UserWritten);
        }
      case CountUser(t) =>
        if Ready(s, t, UserWritten) { CountSound(s, t, UserCounted); }
      case Answer(t, text) =>
        if Ready(s, t, UserCounted) { Changed(s, t, s.turns[t].(phase := Answered, answer := text)); }
      case WriteAssistant(t) =>
        if Ready(s, t, Answered) {
          var row := Row(s.turns[t].conversation, Assistant, s.turns[t].answer, t);
          SecondRow(s, t, row);
          WriteCounts(s, t, row, AssistantWritten);
          WriteContributes(s, t, row, AssistantWritten);
        }
      case CountAssistant(t) =>
        if Ready(s, t, AssistantWritten) { CountSound(s, t, AssistantCounted); }
      case Stop(t) =>
        if t in s.turns { Changed(s, t, s.turns[t].(stopped := true)); }
    }
  }

  lemma {:induction false} NewKeepsRows(s: State, c: string)
    requires Contributed(s) && Owned(s)
    ensures Contributed(s.(counts := s.counts[c := 0])) && Owned(s.(counts := s.counts[c := 0]))
  {
    hide RowsOf, Contribution;
  }

  lemma {:induction false} FirstRow(s: State, t: nat, row: Row)
    requires t in s.turns && s.turns[t].phase == Passed
    requires row == Row(s.turns[t].conversation, User, s.turns[t].message, t)
    ensures Contribution(t, s.turns[t].(phase := UserWritten)) == Persisted(Contribution(t, s.turns[t]), row)
  {}

  lemma {:induction false} SecondRow(s: State, t: nat, row: Row)
    requires t in s.turns && s.turns[t].phase == Answered
    requires row == Row(s.turns[t].conversation, Assistant, s.turns[t].answer, t)
    ensures Contribution(t, s.turns[t].(phase := AssistantWritten)) == Persisted(Contribution(t, s.turns[t]), row)
  {}

  /** A move that neither writes nor owes. */
  lemma {:induction false} Changed(s: State, t: nat, turn: Turn)
    requires Sound(s) && t in s.turns && turn.conversation == s.turns[t].conversation
    requires Contribution(t, turn) == Contribution(t, s.turns[t])
    requires forall c :: Owes(turn, c) <==> Owes(s.turns[t], c)
    ensures Sound(s.(turns := s.turns[t := turn]))
  {
    hide Counted, Contributed, Owned, Owes, Contribution;
    MoveCounts(s, t, turn);
    MoveContributes(s, t, turn);
  }

  lemma {:induction false} CountSound(s: State, t: nat, phase: Phase)
    requires Sound(s) && t in s.turns
    requires (s.turns[t].phase.UserWritten? && phase.UserCounted?)
          || (s.turns[t].phase.AssistantWritten? && phase.AssistantCounted?)
    ensures Sound(s.(counts := Bumped(s.counts, s.turns[t].conversation), turns := Moved(s, t, phase)))
  {
    hide Counted, Contributed, Owned, Bumped;
    BumpCounts(s, t, phase);
    MoveContributes(s, t, s.turns[t].(phase := phase));
    NewCountsKeep(s.(turns := Moved(s, t, phase)), Bumped(s.counts, s.turns[t].conversation));
  }

  lemma {:induction false} NewCountsKeep(s: State, counts: map<string, int>)
    requires Contributed(s) && Owned(s)
    ensures Contributed(s.(counts := counts)) && Owned(s.(counts := counts))
  {
    hide RowsOf, Contribution;
  }

  lemma {:induction false} RunSound(s: State, steps: seq<Step>)
    requires Sound(s)
    ensures Sound(Run(s, steps))
  {
    if steps != [] {
      var n := |steps| - 1;
      hide Sound, Next;
      RunSound(s, steps[..n]);
      NextSound(Run(s, steps[..n]), steps[n]);
    }
  }

  // ---- the main results ----

  lemma {:induction false} NobodyOwes(turns: map<nat, Turn>, conversation: string)
    ensures |Owing(turns, conversation)| == 0 <==> forall t :: t in turns ==> !Owes(turns[t], conversation)
  {
    hide Owes;
    if t :| t in turns && Owes(turns[t], conversation) {
      assert t in Owing(turns, conversation);
    }
    if |Owing(turns, conversation)| != 0 {
      var t :| t in Owing(turns, conversation);
    }
  }

  /** The conservation law, for any interleaving: a conversation's message count and the turns between a row and
      its bump add up to its transcript rows; so the count is exact if and only if no turn stands or stopped there. */
  lemma {:induction false} CountsAddUp(steps: seq<Step>, conversation: string)
    requires conversation in Run(Empty(), steps).counts
    ensures var s := Run(Empty(), steps);
      && s.counts[conversation] + |Owing(s.turns, conversation)| == RowCount(s.rows, conversation)
      && (s.counts[conversation] == RowCount(s.rows, conversation)
          <==> forall t :: t in s.turns ==> !Owes(s.turns[t], conversation))
  {
    EmptySound();
    RunSound(Empty(), steps);
    var s := Run(Empty(), steps);
    assert s.counts[conversation] + |Owing(s.turns, conversation)| == RowCount(s.rows, conversation);
    hide *;
    NobodyOwes(s.turns, conversation);
  }

  lemma {:induction false} EmptySound()
    ensures Sound(Empty())
  {}

  /** Nothing, the user's row, or the user's row and the answer's. */
  predicate Proper(rows: seq<Row>, turn: Turn) {
    || rows == []
    || (rows[0].role == User && rows[0].content == turn.message
        && (|rows| == 1 || (|rows| == 2 && rows[1].role == Assistant && rows[1].content == turn.answer)))
  }

  /** A phase is only reached by the steps that lead to it: the user's row by passing permission and gate, the
      answer's by a tool loop that ended normally. */
  predicate Earned(steps: seq<Step>, t: nat, turn: Turn) {
    && (!turn.phase.Begun? ==> Pass(t) in steps)
    && (turn.phase !in {Begun, Passed} ==> WriteUser(t) in steps)
    && (turn.phase in {Answered, AssistantWritten, AssistantCounted} ==> Answer(t, turn.answer) in steps)
  }

  /** Each turn contributes nothing, only the user's row, or the user's row and then the answer's: nothing unless
      permission and gate let it pass, and the answer only after the tool loop ended normally. */
  lemma {:induction false} TurnContributes(steps: seq<Step>, t: nat)
    requires t in Run(Empty(), steps).turns
    ensures var s := Run(Empty(), steps);
      var rows, turn := RowsOf(s.rows, t), s.turns[t];
      && Proper(rows, turn)
      && (rows != [] ==> Pass(t) in steps && WriteUser(t) in steps)
      && (|rows| == 2 ==> Answer(t, turn.answer) in steps)
  {
    EmptySound();
    RunSound(Empty(), steps);
    var s := Run(Empty(), steps);
    assert RowsOf(s.rows, t) == Contribution(t, s.turns[t]);
    hide *;
    PhaseEarned(steps, t);
    ContributionEarned(steps, t, s.turns[t]);
  }

  lemma {:induction false} ContributionEarned(steps: seq<Step>, t: nat, turn: Turn)
    requires Earned(steps, t, turn)
    ensures var rows := Contribution(t, turn);
      && Proper(rows, turn)
      && (rows != [] ==> Pass(t) in steps && WriteUser(t) in steps)
      && (|rows| == 2 ==> Answer(t, turn.answer) in steps)
  {}

  /** What one step can make of a turn. */
  predicate Advances(step: Step, t: nat, before: Turn, after: Turn) {
    || (after.phase == before.phase && after.answer == before.answer)
    || (step == Pass(t) && before.phase.Begun? && after.phase.Passed?)
    || (step == WriteUser(t) && before.phase.Passed? && after.phase.UserWritten?)
    || (before.phase.UserWritten? && after.phase.UserCounted?)
    || (step == Answer(t, after.answer) && before.phase.UserCounted? && after.phase.Answered?)
    || (before.phase.Answered? && after.phase.AssistantWritten? && after.answer == before.answer)
    || (before.phase.AssistantWritten? && after.phase.AssistantCounted? && after.answer == before.answer)
  }

  lemma {:induction false} StepAdvances(s: State, step: Step, t: nat)
    requires t in Next(s, step).turns
    ensures t !in s.turns ==> Next(s, step).turns[t].phase.Begun?
    ensures t in s.turns ==> Advances(step, t, s.turns[t], Next(s, step).turns[t])
  {
    hide Persisted, Bumped;
  }

  lemma {:induction false} EarnedGrows(steps: seq<Step>, step: Step, t: nat, before: Turn, after: Turn)
    requires Earned(steps, t, before) && Advances(step, t, before, after)
    ensures Earned(steps + [step], t, after)
  {
    var more := steps + [step];
    assert forall x :: x in steps ==> x in more;
    assert more[|steps|] == step;
  }

  lemma {:induction false} BegunEarned(steps: seq<Step>, t: nat, turn: Turn)
    requires turn.phase.Begun?
    ensures Earned(steps, t, turn)
  {}

  lemma {:induction false} PhaseEarned(steps: seq<Step>, t: nat)
    requires t in Run(Empty(), steps).turns
    ensures Earned(steps, t, Run(Empty(), steps).turns[t])
  {
    if steps != [] {
      var n := |steps| - 1;
      var before, step := Run(Empty(), steps[..n]), steps[n];
      assert steps == steps[..n] + [step] && Run(Empty(), steps) == Next(before, step);
      hide *;
      StepAdvances(before, step, t);
      if t in before.turns {
        PhaseEarned(steps[..n], t);
        EarnedGrows(steps[..n], step, t, before.turns[t], Next(before, step).turns[t]);
      } else {
        BegunEarned(steps, t, Next(before, step).turns[t]);
      }
    }
  }

  /** Once stopped, a turn contributes nothing more; a turn stopped before it passed contributes nothing at all. */
  lemma {:induction false} StoppedForGood(s: State, steps: seq<Step>, t: nat)
    requires Sound(s) && t in s.turns && s.turns[t].stopped
    ensures var r := Run(s, steps);
      t in r.turns && r.turns[t] == s.turns[t] && RowsOf(r.rows, t) == RowsOf(s.rows, t)
    ensures s.turns[t].phase.Begun? ==> RowsOf(Run(s, steps).rows, t) == []
  {
    TurnStays(s, steps, t);
    RunSound(s, steps);
    hide Run, RowsOf;
  }

  lemma {:induction false} TurnStays(s: State, steps: seq<Step>, t: nat)
    requires t in s.turns && s.turns[t].stopped
    ensures t in Run(s, steps).turns && Run(s, steps).turns[t] == s.turns[t]
  {
    if steps != [] {
      var n := |steps| - 1;
      TurnStays(s, steps[..n], t);
      var before := Run(s, steps[..n]);
      assert Run(s, steps) == Next(before, steps[n]);
      hide Run, Persisted, Bumped;
    }
  }

  // ---- one turn, undisturbed ----

  /** How the tool loop of a turn ends: normally, with a text, or by a time-out, an open circuit or an exception. */
  datatype Loop = Ended(text: string) | Failed

  /** The steps of a turn nothing else interferes with. */
  function TurnSteps(
      t: nat, conversation: string, message: string, allowed: bool, gateOpen: bool, loop: Loop): seq<Step> {
    [Begin(t, conversation, message)]
    + if !allowed || !gateOpen then [Stop(t)]
      else [Pass(t), WriteUser(t), CountUser(t)]
           + if loop.Failed? then [Stop(t)] else [Answer(t, loop.text), WriteAssistant(t), CountAssistant(t)]
  }

  lemma {:induction false} RunMore(s: State, steps: seq<Step>, step: Step)
    ensures Run(s, steps + [step]) == Next(Run(s, steps), step)
  {
    assert (steps + [step])[..|steps|] == steps;
  }

  /** The tables, and for the proof the turns taken and the steps done. */
  class ChatDatabase {
    var rows: seq<Row>
    var counts: map<string, int>
    ghost var turns: map<nat, Turn>
    ghost var steps: seq<Step>

    ghost function Contents(): State reads this { State(rows, counts, turns) }

    /** What is in the tables is what the steps lead to. */
    ghost predicate Valid() reads this { Contents() == Run(Empty(), steps) }

    constructor ()
      ensures Valid() && steps == []
    {
      rows, counts, turns, steps := [], map[], map[], [];
    }

    method PersistMessage(row: Row)
      modifies this`rows
      ensures rows == Persisted(old(rows), row)
    {
      if row.conversation == "" { return; }
      rows := rows + [row];
    }

    method BumpMessageCount(conversation: string)
      modifies this`counts
      ensures counts == Bumped(old(counts), conversation)
    {
      if conversation == "" { return; }
      if conversation in counts { counts := counts[conversation := counts[conversation] + 1]; }
    }

    ghost method Note(step: Step, next: State)
      requires Contents().rows == next.rows && Contents().counts == next.counts
      requires next == Next(Run(Empty(), steps), step)
      modifies this`turns, this`steps
      ensures Valid() && steps == old(steps) + [step] && Contents() == next
    {
      RunMore(Empty(), steps, step);
      turns := next.turns;
      steps := steps + [step];
    }

    /** The user's row, then its bump. */
    method PersistUserTranscript(t: nat, conversation: string, message: string)
      requires Valid() && Ready(Contents(), t, Passed)
      requires turns[t].conversation == conversation && turns[t].message == message
      modifies this
      ensures Valid() && steps == old(steps) + [WriteUser(t), CountUser(t)]
      ensures turns == old(turns)[t := old(turns)[t].(phase := UserCounted)]
    {
      ghost var before, first := Contents(), Next(Contents(), WriteUser(t));
      hide Run, Persisted, Bumped;
      PersistMessage(Row(conversation, User, message, t));
      Note(WriteUser(t), first);
      ghost var second := Next(Contents(), CountUser(t));
      BumpMessageCount(conversation);
      Note(CountUser(t), second);
    }

    /** The answer's row, then its bump. */
    method PersistAnswer(t: nat, conversation: string, text: string)
      requires Valid() && Ready(Contents(), t, Answered)
      requires turns[t].conversation == conversation && turns[t].answer == text
      modifies this
      ensures Valid() && steps == old(steps) + [WriteAssistant(t), CountAssistant(t)]
    {
      ghost var first := Next(Contents(), WriteAssistant(t));
      hide Run, Persisted, Bumped;
      PersistMessage(Row(conversation, Assistant, text, t));
      Note(WriteAssistant(t), first);
      ghost var second := Next(Contents(), CountAssistant(t));
      BumpMessageCount(conversation);
      Note(CountAssistant(t), second);
    }

    /** Permission and gate: a refused turn stops before anything is written. */
    method Admit(t: nat, conversation: string, message: string, allowed: bool, gateOpen: bool)
      requires Valid() && t !in turns
      modifies this
      ensures Valid()
      ensures steps == old(steps) + [Begin(t, conversation, message), if allowed && gateOpen then Pass(t) else Stop(t)]
      ensures allowed && gateOpen ==> t in turns && turns[t] == Turn(conversation, message, "", Passed, false)
    {
      hide Run, Persisted, Bumped;
      Note(Begin(t, conversation, message), Next(Contents(), Begin(t, conversation, message)));
      ghost var last := if allowed && gateOpen then Pass(t) else Stop(t);
      Note(last, Next(Contents(), last));
    }

    /** The tool loop is over: the answer is recorded if it ended normally, and otherwise nothing more. */
    method Conclude(t: nat, conversation: string, loop: Loop)
      requires Valid() && Ready(Contents(), t, UserCounted) && turns[t].conversation == conversation
      modifies this
      ensures Valid()
      ensures steps == old(steps) +
        if loop.Failed? then [Stop(t)] else [Answer(t, loop.text), WriteAssistant(t), CountAssistant(t)]
    {
      hide Run, Persisted, Bumped;
      if loop.Failed? {
        Note(Stop(t), Next(Contents(), Stop(t)));
      } else {
        Note(Answer(t, loop.text), Next(Contents(), Answer(t, loop.text)));
        PersistAnswer(t, conversation, loop.text);
      }
    }

    /** A turn takes exactly the steps `TurnSteps` lists, in that order. */
    method TakeTurn(t: nat, conversation: string, message: string, allowed: bool, gateOpen: bool, loop: Loop)
      requires Valid() && t !in turns
      modifies this
      ensures Valid() && steps == old(steps) + TurnSteps(t, conversation, message, allowed, gateOpen, loop)
    {
      hide Run, Persisted, Bumped, Next;
      Admit(t, conversation, message, allowed, gateOpen);
      if allowed && gateOpen {
        PersistUserTranscript(t, conversation, message);
        Conclude(t, conversation, loop);
      }
    }
  }
}
