/** The completion gateway: up to three attempts per call, a one-second wait between attempts,
    and a synthetic "Error" reply instead of an exception when every attempt fails. */
module Gateway {
  import opened Replies

  /** What one attempt at the remote call yields: a parsed reply, or the failure's description. */
  datatype Outcome = Ok(reply: Reply) | Fail(error: string)

  const MaxAttempts: nat := 3
  const ErrorTitle: string := "Error"
  const StepFailure: string := "Failed to generate step after 3 attempts. Error: "
  const FinalFailure: string := "Failed to generate final answer after 3 attempts. Error: "
  /** The failure reported by a scripted endpoint once it has no scripted outcome left. */
  const NoScriptedReply: string := "no scripted reply left"

  /** The outcome of the attempt with global index `i`: the endpoint is a finite script of
      outcomes, and every attempt beyond its end fails. */
  function AttemptAt(oracle: seq<Outcome>, i: nat): Outcome {
    if i < |oracle| then oracle[i] else Fail(NoScriptedReply)
  }

  /** The reply returned when all attempts failed. Only a step call's error reply asks for the
      final answer, so a failed step ends the session. */
  function ErrorReply(error: string, isFinal: bool): (r: Reply)
    ensures r.title == Some(ErrorTitle)
    ensures isFinal ==> r.nextAction.None?
    ensures !isFinal ==> EndsSession(r)
  {
    if isFinal then
      Reply(Some(ErrorTitle), Some(FinalFailure + error), None)
    else
      Reply(Some(ErrorTitle), Some(StepFailure + error), Some(FinalAnswerAction))
  }

  /** The error reply's content ends with the description of the failure. */
  lemma ErrorReplyNamesFailure(error: string, isFinal: bool)
    ensures ErrorReply(error, isFinal).content.Some?
    ensures var c := ErrorReply(error, isFinal).content.value;
      |error| <= |c| && c[|c| - |error|..] == error
  {
  }

  /** The result of one gateway call: the reply, how many attempts it took, and whether all failed. */
  datatype Exchange = Exchange(reply: Reply, attempts: nat, exhausted: bool)

  /** The gateway call whose first attempt is the global attempt `pos`, continued from `attempt`. */
  function RespondFrom(oracle: seq<Outcome>, pos: nat, isFinal: bool, attempt: nat): (x: Exchange)
    requires attempt < MaxAttempts
    ensures attempt < x.attempts <= MaxAttempts
    decreases MaxAttempts - attempt
  {
    match AttemptAt(oracle, pos + attempt)
    case Ok(r) => Exchange(r, attempt + 1, false)
    case Fail(e) =>
      if attempt == MaxAttempts - 1 then Exchange(ErrorReply(e, isFinal), MaxAttempts, true)
      else RespondFrom(oracle, pos, isFinal, attempt + 1)
  }

  /** From attempt `attempt` on, the call stops at the first success; the attempts before it failed;
      the call is exhausted exactly when its last attempt, the third, failed too. */
  lemma {:induction false} RespondFromSpec(oracle: seq<Outcome>, pos: nat, isFinal: bool, attempt: nat)
    requires attempt < MaxAttempts
    ensures var x := RespondFrom(oracle, pos, isFinal, attempt);
      forall i: nat :: pos + attempt <= i < pos + x.attempts - 1 ==> AttemptAt(oracle, i).Fail?
    ensures var x := RespondFrom(oracle, pos, isFinal, attempt);
      x.exhausted <==> AttemptAt(oracle, pos + x.attempts - 1).Fail?
    ensures var x := RespondFrom(oracle, pos, isFinal, attempt);
      !x.exhausted ==> AttemptAt(oracle, pos + x.attempts - 1) == Ok(x.reply)
    ensures var x := RespondFrom(oracle, pos, isFinal, attempt);
      x.exhausted ==> x.attempts == MaxAttempts && x.reply == ErrorReply(AttemptAt(oracle, pos + MaxAttempts - 1).error, isFinal)
    decreases MaxAttempts - attempt
  {
    if AttemptAt(oracle, pos + attempt).Fail? && attempt < MaxAttempts - 1 {
      RespondFromSpec(oracle, pos, isFinal, attempt + 1);
    }
  }

  /** A gateway call whose first attempt is the global attempt `pos`. A call that succeeded used up
      a scripted outcome; one that did not returns the error reply for the third failure. */
  function Respond(oracle: seq<Outcome>, pos: nat, isFinal: bool): (x: Exchange)
    ensures 1 <= x.attempts <= MaxAttempts
    ensures !x.exhausted ==> pos + x.attempts <= |oracle|
    ensures x.exhausted ==> AttemptAt(oracle, pos + MaxAttempts - 1).Fail?
    ensures x.exhausted ==> x.reply == ErrorReply(AttemptAt(oracle, pos + MaxAttempts - 1).error, isFinal)
  {
    RespondFromSpec(oracle, pos, isFinal, 0);
    RespondFrom(oracle, pos, isFinal, 0)
  }

  /** A gateway call returns the reply of the first successful attempt among at most three, and
      consults no outcome after it; it returns the error reply exactly when all three attempts fail. */
  lemma RespondSpec(oracle: seq<Outcome>, pos: nat, isFinal: bool)
    ensures var x := Respond(oracle, pos, isFinal);
      forall i: nat :: pos <= i < pos + x.attempts - 1 ==> AttemptAt(oracle, i).Fail?
    ensures var x := Respond(oracle, pos, isFinal);
      !x.exhausted ==> AttemptAt(oracle, pos + x.attempts - 1) == Ok(x.reply)
    ensures var x := Respond(oracle, pos, isFinal);
      x.exhausted <==> forall i: nat :: pos <= i < pos + MaxAttempts ==> AttemptAt(oracle, i).Fail?
    ensures var x := Respond(oracle, pos, isFinal);
      x.exhausted ==> x.attempts == MaxAttempts
  {
    RespondFromSpec(oracle, pos, isFinal, 0);
  }

  lemma {:induction false} RespondFromLocal(o1: seq<Outcome>, o2: seq<Outcome>, pos: nat, isFinal: bool, attempt: nat)
    requires attempt < MaxAttempts
    requires var n := RespondFrom(o1, pos, isFinal, attempt).attempts;
      forall i: nat :: pos + attempt <= i < pos + n ==> AttemptAt(o1, i) == AttemptAt(o2, i)
    ensures RespondFrom(o2, pos, isFinal, attempt) == RespondFrom(o1, pos, isFinal, attempt)
    decreases MaxAttempts - attempt
  {
    assert AttemptAt(o1, pos + attempt) == AttemptAt(o2, pos + attempt);
    if AttemptAt(o1, pos + attempt).Fail? && attempt < MaxAttempts - 1 {
      RespondFromLocal(o1, o2, pos, isFinal, attempt + 1);
    }
  }

  /** A gateway call consults only the outcomes of the attempts it makes: two endpoints that agree
      on those give the same exchange, whatever they do afterwards. */
  lemma RespondLocal(o1: seq<Outcome>, o2: seq<Outcome>, pos: nat, isFinal: bool)
    requires forall i: nat :: pos <= i < pos + Respond(o1, pos, isFinal).attempts ==> AttemptAt(o1, i) == AttemptAt(o2, i)
    ensures Respond(o2, pos, isFinal) == Respond(o1, pos, isFinal)
  {
    RespondFromLocal(o1, o2, pos, isFinal, 0);
  }

  /** The retry loop. `sleeps` counts the one-second waits, which happen only between attempts. */
  method CallGateway(oracle: seq<Outcome>, pos: nat, isFinal: bool)
    returns (reply: Reply, attempts: nat, sleeps: nat)
    ensures reply == Respond(oracle, pos, isFinal).reply
    ensures attempts == Respond(oracle, pos, isFinal).attempts
    ensures sleeps == attempts - 1
  {
    var attempt := 0;
    sleeps := 0;
    while true
      invariant attempt < MaxAttempts && sleeps == attempt
      invariant RespondFrom(oracle, pos, isFinal, attempt) == RespondFrom(oracle, pos, isFinal, 0)
      decreases MaxAttempts - attempt
    {
      match AttemptAt(oracle, pos + attempt)
      case Ok(r) =>
        reply, attempts := r, attempt + 1;
        return;
      case Fail(e) =>
        if attempt == MaxAttempts - 1 {
          reply, attempts := ErrorReply(e, isFinal), MaxAttempts;
          return;
        }
      sleeps := sleeps + 1;
      attempt := attempt + 1;
    }
  }
}
