/** The session driver: step calls until the model asks for the final answer, each step fed back
    into the transcript, then one final-answer call, then the end marker. */
module Driver {
  import opened Replies
  import opened Formatter
  import opened Gateway

  const SystemInstruction: string := "You are an expert AI assistant that explains your reasoning step by step."
  const Acknowledgement: string :=
    "Thank you! I will now think step by step following my instructions, starting at the beginning after decomposing the problem."
  const FinalRequest: Message := Message(User, Text("Please provide the final answer based on your reasoning above."))

  /** The three messages every session starts from. */
  function Opening(prompt: string): (m: seq<Message>)
    ensures |m| == 3 && m[1] == Message(User, Text(prompt))
    ensures m[0] == Message(System, Text(SystemInstruction)) && m[2] == Message(Assistant, Text(Acknowledgement))
  {
    [Message(System, Text(SystemInstruction)), Message(User, Text(prompt)), Message(Assistant, Text(Acknowledgement))]
  }

  /** A whole session: its step exchanges and its final-answer exchange. */
  datatype Run = Run(steps: seq<Exchange>, final: Exchange)

  /** The rest of a session whose steps so far are `done` and whose next attempt is the global
      attempt `pos`: step calls up to and including the first whose reply ends the session, then
      the final-answer call. A continuing step succeeded, so it used up a scripted outcome. */
  function Drive(oracle: seq<Outcome>, pos: nat, done: seq<Exchange>): Run
    decreases |oracle| - pos
  {
    var x := Respond(oracle, pos, false);
    if EndsSession(x.reply) then Run(done + [x], Respond(oracle, pos + x.attempts, true))
    else Drive(oracle, pos + x.attempts, done + [x])
  }

  /** One turn of the step loop. */
  lemma DriveUnfold(oracle: seq<Outcome>, pos: nat, done: seq<Exchange>)
    ensures var x := Respond(oracle, pos, false);
      Drive(oracle, pos, done)
      == if EndsSession(x.reply) then Run(done + [x], Respond(oracle, pos + x.attempts, true))
         else Drive(oracle, pos + x.attempts, done + [x])
  {
  }

  /** The steps already made are kept; the session stops at the first step whose reply asks for
      the final answer; a step whose retries were exhausted asks for it; each continuing step used
      up at least one scripted outcome. */
  lemma {:induction false} DriveShape(oracle: seq<Outcome>, pos: nat, done: seq<Exchange>)
    requires forall i :: 0 <= i < |done| ==> !EndsSession(done[i].reply)
    ensures var run := Drive(oracle, pos, done);
      |done| < |run.steps| && run.steps[..|done|] == done
    ensures var run := Drive(oracle, pos, done);
      |run.steps| <= |done| + (if pos <= |oracle| then |oracle| - pos else 0) + 1
    ensures var run := Drive(oracle, pos, done);
      forall i :: 0 <= i < |run.steps| - 1 ==> !EndsSession(run.steps[i].reply)
    ensures var run := Drive(oracle, pos, done);
      EndsSession(run.steps[|run.steps| - 1].reply)
    ensures var run := Drive(oracle, pos, done);
      forall i :: |done| <= i < |run.steps| && run.steps[i].exhausted ==> EndsSession(run.steps[i].reply)
    decreases |oracle| - pos
  {
    var x := Respond(oracle, pos, false);
    if !EndsSession(x.reply) {
      var done' := done + [x];
      DriveShape(oracle, pos + x.attempts, done');
      var run := Drive(oracle, pos + x.attempts, done');
      assert run.steps[..|done|] == done'[..|done|];
    }
  }

  /** The session the driver runs against the scripted endpoint `oracle`. */
  function Session(oracle: seq<Outcome>): Run {
    Drive(oracle, 0, [])
  }

  /** A session has at least one step and at most one more than there are scripted outcomes; every
      step but the last continues, the last asks for the final answer, and a step whose retries were
      exhausted is the last one. */
  lemma SessionShape(oracle: seq<Outcome>)
    ensures 1 <= |Session(oracle).steps| <= |oracle| + 1
    ensures var steps := Session(oracle).steps;
      forall i :: 0 <= i < |steps| - 1 ==> !EndsSession(steps[i].reply)
    ensures var steps := Session(oracle).steps;
      EndsSession(steps[|steps| - 1].reply)
    ensures var steps := Session(oracle).steps;
      forall i :: 0 <= i < |steps| && steps[i].exhausted ==> i == |steps| - 1
  {
    DriveShape(oracle, 0, []);
  }

  /** The global attempt index after the gateway calls `calls`: each call's attempts follow the
      previous call's. */
  function AttemptsUsed(calls: seq<Exchange>): nat {
    if |calls| == 0 then 0 else AttemptsUsed(calls[..|calls| - 1]) + calls[|calls| - 1].attempts
  }

  /** Every call in `calls` is the step call that starts where the calls before it stopped. */
  predicate ChainedStepCalls(oracle: seq<Outcome>, calls: seq<Exchange>) {
    forall i :: 0 <= i < |calls| ==> calls[i] == Respond(oracle, AttemptsUsed(calls[..i]), false)
  }

  lemma {:induction false} DriveCalls(oracle: seq<Outcome>, pos: nat, done: seq<Exchange>)
    requires pos == AttemptsUsed(done) && ChainedStepCalls(oracle, done)
    ensures ChainedStepCalls(oracle, Drive(oracle, pos, done).steps)
    ensures var run := Drive(oracle, pos, done);
      run.final == Respond(oracle, AttemptsUsed(run.steps), true)
    decreases |oracle| - pos
  {
    var x := Respond(oracle, pos, false);
    var done' := done + [x];
    assert done'[..|done|] == done;
    assert AttemptsUsed(done') == pos + x.attempts;
    forall i | 0 <= i < |done'|
      ensures done'[i] == Respond(oracle, AttemptsUsed(done'[..i]), false)
    {
      if i < |done| {
        assert done'[..i] == done[..i];
      }
    }
    if !EndsSession(x.reply) {
      DriveCalls(oracle, pos + x.attempts, done');
    }
  }

  /** The session's calls, described without the loop: step call i starts at the attempt where step
      call i - 1 stopped, and the final-answer call starts where the last step call stopped. */
  lemma SessionCalls(oracle: seq<Outcome>)
    ensures ChainedStepCalls(oracle, Session(oracle).steps)
    ensures Session(oracle).final == Respond(oracle, AttemptsUsed(Session(oracle).steps), true)
  {
    DriveCalls(oracle, 0, []);
  }

  /** One assistant message per step: the step's reply serialised back for the model. */
  function StepMessages(steps: seq<Exchange>): seq<Message> {
    if |steps| == 0 then []
    else StepMessages(steps[..|steps| - 1]) + [Message(Assistant, Json(steps[|steps| - 1].reply))]
  }

  /** The transcript when the session ends. */
  function Transcript(prompt: string, steps: seq<Exchange>): seq<Message> {
    Opening(prompt) + StepMessages(steps) + [FinalRequest]
  }

  /** The transcript sent with each step call. */
  function StepContexts(prompt: string, steps: seq<Exchange>): seq<seq<Message>> {
    if |steps| == 0 then []
    else StepContexts(prompt, steps[..|steps| - 1]) + [Opening(prompt) + StepMessages(steps[..|steps| - 1])]
  }

  /** The transcript sent with every call of the session, the final-answer call last. */
  function Contexts(prompt: string, steps: seq<Exchange>): seq<seq<Message>> {
    StepContexts(prompt, steps) + [Transcript(prompt, steps)]
  }

  /** The step records put on the queue, numbered by the step count at the time. */
  function StepRecords(steps: seq<Exchange>): seq<Option<Record>> {
    if |steps| == 0 then []
    else StepRecords(steps[..|steps| - 1]) + [Some(StepRecordOf(|steps|, steps[|steps| - 1].reply))]
  }

  /** Everything put on the queue: the step records, the final record, then the end marker `None`. */
  function Queue(run: Run): seq<Option<Record>> {
    StepRecords(run.steps) + [Some(FinalRecordOf(run.final.reply))] + [None]
  }

  /** What one more step adds to the assistant messages. */
  lemma AppendStepMessage(steps: seq<Exchange>, x: Exchange)
    ensures StepMessages(steps + [x]) == StepMessages(steps) + [Message(Assistant, Json(x.reply))]
  {
    assert (steps + [x])[..|steps|] == steps;
  }

  /** What one more step adds to the queue. */
  lemma AppendStepRecord(steps: seq<Exchange>, x: Exchange)
    ensures StepRecords(steps + [x]) == StepRecords(steps) + [Some(StepRecordOf(|steps| + 1, x.reply))]
  {
    assert (steps + [x])[..|steps|] == steps;
  }

  /** What one more step adds to the call contexts. */
  lemma AppendStepContext(prompt: string, steps: seq<Exchange>, x: Exchange)
    ensures StepContexts(prompt, steps + [x]) == StepContexts(prompt, steps) + [Opening(prompt) + StepMessages(steps)]
  {
    assert (steps + [x])[..|steps|] == steps;
  }

  /** Step records are numbered 1, 2, ..., n without gaps or repeats, record i carrying step i's reply. */
  lemma {:induction false} StepNumbering(steps: seq<Exchange>)
    ensures |StepRecords(steps)| == |steps|
    ensures forall i :: 0 <= i < |steps| ==> StepRecords(steps)[i] == Some(StepRecordOf(i + 1, steps[i].reply))
  {
    if |steps| > 0 {
      StepNumbering(steps[..|steps| - 1]);
    }
  }

  /** One assistant message per step, in step order. */
  lemma {:induction false} StepMessagesShape(steps: seq<Exchange>)
    ensures |StepMessages(steps)| == |steps|
    ensures forall i :: 0 <= i < |steps| ==> StepMessages(steps)[i] == Message(Assistant, Json(steps[i].reply))
  {
    if |steps| > 0 {
      StepMessagesShape(steps[..|steps| - 1]);
    }
  }

  /** The final transcript: the three opening messages, then the steps' replies in order, then the
      request for the final answer. */
  lemma TranscriptShape(prompt: string, steps: seq<Exchange>)
    ensures var t := Transcript(prompt, steps);
      |t| == |steps| + 4 && t[..3] == Opening(prompt) && t[|t| - 1] == FinalRequest
    ensures var t := Transcript(prompt, steps);
      forall i :: 0 <= i < |steps| ==> t[3 + i] == Message(Assistant, Json(steps[i].reply))
  {
    StepMessagesShape(steps);
    var t := Transcript(prompt, steps);
    assert t[..3] == Opening(prompt);
  }

  /** The messages of an earlier step call are the first messages of a later one. */
  lemma {:induction false} StepMessagesPrefix(steps: seq<Exchange>, k: nat)
    requires k <= |steps|
    ensures |StepMessages(steps)| == |steps|
    ensures StepMessages(steps[..k]) == StepMessages(steps)[..k]
  {
    StepMessagesShape(steps);
    StepMessagesShape(steps[..k]);
  }

  /** The context of step call i (0-based) is the opening followed by the replies of the i steps before. */
  lemma {:induction false} StepContextsShape(prompt: string, steps: seq<Exchange>)
    ensures |StepContexts(prompt, steps)| == |steps|
    ensures forall i :: 0 <= i < |steps| ==> StepContexts(prompt, steps)[i] == Opening(prompt) + StepMessages(steps[..i])
  {
    if |steps| > 0 {
      var init := steps[..|steps| - 1];
      StepContextsShape(prompt, init);
      forall i | 0 <= i < |init|
        ensures init[..i] == steps[..i]
      {
      }
    }
  }

  /** The transcript only grows: the context of every call is a prefix of the context of every later
      call, the first step call sees just the opening, and each step call sees one more message than
      the one before. */
  lemma ContextsAppendOnly(prompt: string, steps: seq<Exchange>)
    ensures |Contexts(prompt, steps)| == |steps| + 1
    ensures |steps| > 0 ==> Contexts(prompt, steps)[0] == Opening(prompt)
    ensures forall i :: 0 <= i < |steps| ==> |Contexts(prompt, steps)[i]| == 3 + i
    ensures forall i, j :: 0 <= i <= j < |steps| + 1 ==> Contexts(prompt, steps)[i] <= Contexts(prompt, steps)[j]
    ensures Contexts(prompt, steps)[|steps|] == Transcript(prompt, steps)
  {
    var c := Contexts(prompt, steps);
    var m := StepMessages(steps);
    StepContextsShape(prompt, steps);
    StepMessagesShape(steps);
    assert m[..|steps|] == m;
    forall i | 0 <= i < |steps|
      ensures c[i] == Opening(prompt) + m[..i]
    {
      StepMessagesPrefix(steps, i);
    }
    forall i, j | 0 <= i <= j < |steps| + 1
      ensures c[i] <= c[j]
    {
      if j < |steps| {
        assert m[..i] == m[..j][..i];
      } else {
        assert c[j] == Opening(prompt) + m[..|steps|] + [FinalRequest];
        assert m[..i] == m[..|steps|][..i];
      }
    }
  }

  /** The queue holds the n step records numbered 1..n in step order, then the one final record,
      then the end marker; the end marker and a final record appear nowhere else. */
  lemma QueueShape(run: Run)
    ensures |Queue(run)| == |run.steps| + 2
    ensures forall i :: 0 <= i < |run.steps| ==> Queue(run)[i] == Some(StepRecordOf(i + 1, run.steps[i].reply))
    ensures Queue(run)[|run.steps|] == Some(FinalRecordOf(run.final.reply))
    ensures forall i :: 0 <= i < |Queue(run)| ==> (Queue(run)[i].None? <==> i == |run.steps| + 1)
    ensures forall i :: 0 <= i < |Queue(run)| ==>
      (Queue(run)[i].Some? && Queue(run)[i].value.FinalRecord? <==> i == |run.steps|)
  {
    StepNumbering(run.steps);
  }

  /** The session's step records are numbered 1..n, where n is the position of the first step reply
      that asks for the final answer. */
  lemma SessionNumbering(oracle: seq<Outcome>)
    ensures var run := Session(oracle);
      1 <= |run.steps| && |Queue(run)| == |run.steps| + 2
    ensures var run := Session(oracle);
      forall i :: 0 <= i < |run.steps| ==>
        Queue(run)[i].Some? && Queue(run)[i].value == StepRecordOf(i + 1, run.steps[i].reply)
    ensures var run := Session(oracle);
      forall i :: 0 <= i < |run.steps| ==> (EndsSession(run.steps[i].reply) <==> i == |run.steps| - 1)
  {
    SessionShape(oracle);
    QueueShape(Session(oracle));
  }

  /** When the first step call exhausts its retries, the session has that one step: its record is the
      error record for step 1, and the final-answer call follows. */
  lemma ExhaustedFirstStep(oracle: seq<Outcome>)
    requires forall i: nat :: i < MaxAttempts ==> AttemptAt(oracle, i).Fail?
    ensures |Session(oracle).steps| == 1 && Session(oracle).steps[0].exhausted
    ensures Queue(Session(oracle))[0]
         == Some(StepRecord(1, ErrorTitle, StepFailure + AttemptAt(oracle, MaxAttempts - 1).error))
    ensures Session(oracle).final == Respond(oracle, MaxAttempts, true)
  {
    RespondSpec(oracle, 0, false);
    var x := Respond(oracle, 0, false);
    assert x.exhausted;
    DriveUnfold(oracle, 0, []);
    StepNumbering(Session(oracle).steps);
  }

  /** With no scripted outcome at all, the queue is the step-1 error record, the final-answer error
      record and the end marker. */
  lemma EmptyScriptQueue()
    ensures Queue(Session([])) == [Some(StepRecord(1, ErrorTitle, StepFailure + NoScriptedReply)),
                                   Some(FinalRecord(FinalFailure + NoScriptedReply)), None]
  {
    ExhaustedFirstStep([]);
    RespondSpec([], MaxAttempts, true);
  }

  /** A session of two steps, the first continuing, the second, after one failed attempt, asking for
      the final answer; a missing content is shown as the default. */
  lemma TwoStepQueue()
    ensures var oracle := [Ok(Reply(Some("Count"), Some("Three r's"), Some("continue"))),
                           Fail("timeout"),
                           Ok(Reply(Some("Recount"), None, Some(FinalAnswerAction))),
                           Ok(Reply(None, Some("3"), None))];
      Queue(Session(oracle)) == [Some(StepRecord(1, "Count", "Three r's")), Some(StepRecord(2, "Recount", NoContent)),
                                 Some(FinalRecord("3")), None]
  {
    var oracle := [Ok(Reply(Some("Count"), Some("Three r's"), Some("continue"))),
                   Fail("timeout"),
                   Ok(Reply(Some("Recount"), None, Some(FinalAnswerAction))),
                   Ok(Reply(None, Some("3"), None))];
    var x1 := Respond(oracle, 0, false);
    assert x1 == Exchange(oracle[0].reply, 1, false);
    DriveUnfold(oracle, 0, []);
    var x2 := Respond(oracle, 1, false);
    assert x2 == Exchange(oracle[2].reply, 2, false);
    DriveUnfold(oracle, 1, [x1]);
    var x3 := Respond(oracle, 3, true);
    assert x3 == Exchange(oracle[3].reply, 1, false);
    assert Session(oracle) == Run([x1, x2], x3);
    StepNumbering([x1, x2]);
  }

  /** The step loop of the producer: from the opening transcript, one step call after another until
      a reply ends the session. `pos` is the attempt cursor after the last step call, and `sent` the
      transcript passed with each step call. */
  method StepLoop(oracle: seq<Outcome>, prompt: string)
    returns (messages: seq<Message>, queue: seq<Option<Record>>, sent: seq<seq<Message>>, pos: nat)
    ensures messages == Opening(prompt) + StepMessages(Session(oracle).steps)
    ensures queue == StepRecords(Session(oracle).steps)
    ensures sent == StepContexts(prompt, Session(oracle).steps)
    ensures Session(oracle).final == Respond(oracle, pos, true)
  {
    messages := Opening(prompt);
    queue, sent := [], [];
    var stepCount := 1;
    pos := 0;
    ghost var steps := [];
    while true
      invariant stepCount == |steps| + 1
      invariant Drive(oracle, pos, steps) == Session(oracle)
      invariant messages == Opening(prompt) + StepMessages(steps)
      invariant queue == StepRecords(steps)
      invariant sent == StepContexts(prompt, steps)
      decreases |oracle| - pos
    {
      sent := sent + [messages];
      var stepData, attempts, _ := CallGateway(oracle, pos, false);
      ghost var x := Respond(oracle, pos, false);
      AppendStepMessage(steps, x);
      AppendStepRecord(steps, x);
      AppendStepContext(prompt, steps, x);
      DriveUnfold(oracle, pos, steps);
      queue := queue + [Some(StepRecordOf(stepCount, stepData))];
      messages := messages + [Message(Assistant, Json(stepData))];
      steps := steps + [x];
      pos := pos + attempts;
      if EndsSession(stepData) {
        assert Session(oracle) == Run(steps, Respond(oracle, pos, true));
        break;
      }
      stepCount := stepCount + 1;
    }
  }

  /** The producer: the step loop, then the request for the final answer, the final-answer call, the
      final record and the end marker. `sent` is the transcript passed with each call, in call order. */
  method GenerateResponse(oracle: seq<Outcome>, prompt: string)
    returns (messages: seq<Message>, queue: seq<Option<Record>>, sent: seq<seq<Message>>)
    ensures messages == Transcript(prompt, Session(oracle).steps)
    ensures queue == Queue(Session(oracle))
    ensures sent == Contexts(prompt, Session(oracle).steps)
  {
    var pos;
    messages, queue, sent, pos := StepLoop(oracle, prompt);
    messages := messages + [FinalRequest];
    sent := sent + [messages];
    var finalData, _, _ := CallGateway(oracle, pos, true);
    queue := queue + [Some(FinalRecordOf(finalData))];
    queue := queue + [None];
  }
}
