/** The submit handler: the guards that end a request with one message, and the consumer that drains
    the queue, yielding the rendered records accumulated so far after each one. */
module Submit {
  import opened Replies
  import opened Formatter
  import opened Gateway
  import opened Driver

  const KeyMissing: string := "Please set the GROQ_API_KEY environment variable."
  const QueryMissing: string := "Please enter a query to get started."
  const ClientFailure: string := "Failed to initialize Groq client. Error: "

  /** What the producer publishes for a queue item: the record rendered as text, or the end marker. */
  function TextOf(item: Option<Record>): Option<string> {
    match item
    case None => None
    case Some(rec) => Some(Render(rec))
  }

  /** The queue as the consumer sees it: every record rendered, the end marker kept. */
  function Texts(q: seq<Option<Record>>): seq<Option<string>> {
    if |q| == 0 then [] else Texts(q[..|q| - 1]) + [TextOf(q[|q| - 1])]
  }

  lemma {:induction false} TextsShape(q: seq<Option<Record>>)
    ensures |Texts(q)| == |q|
    ensures forall i :: 0 <= i < |q| ==> Texts(q)[i] == TextOf(q[i])
  {
    if |q| > 0 {
      TextsShape(q[..|q| - 1]);
    }
  }

  /** The texts a session publishes, in order, its end marker last. */
  function Published(run: Run): seq<Option<string>> {
    Texts(Queue(run))
  }

  /** Index of the first end marker in `q`, or `|q|` when there is none. */
  function EndIndex(q: seq<Option<string>>): (k: nat)
    ensures k <= |q|
    ensures k < |q| ==> q[k].None?
    ensures forall i :: 0 <= i < k ==> q[i].Some?
  {
    if |q| == 0 || q[0].None? then 0 else 1 + EndIndex(q[1..])
  }

  /** The first `k` items of `q`, concatenated in queue order. */
  function Accumulated(q: seq<Option<string>>, k: nat): string
    requires k <= |q| && forall i :: 0 <= i < k ==> q[i].Some?
  {
    if k == 0 then "" else Accumulated(q, k - 1) + q[k - 1].value
  }

  /** Each output extends the previous one: what was shown is never taken back. */
  lemma {:induction false} AccumulatedGrows(q: seq<Option<string>>, j: nat, k: nat)
    requires j <= k <= |q| && forall i :: 0 <= i < k ==> q[i].Some?
    ensures Accumulated(q, j) <= Accumulated(q, k)
    decreases k
  {
    if j < k {
      AccumulatedGrows(q, j, k - 1);
    }
  }

  /** The drain loop: take items until the end marker, yielding the accumulated output after each. */
  method Drain(queue: seq<Option<string>>) returns (outputs: seq<string>)
    requires EndIndex(queue) < |queue|
    ensures |outputs| == EndIndex(queue)
    ensures forall k :: 0 <= k < |outputs| ==> outputs[k] == Accumulated(queue, k + 1)
  {
    var output := "";
    var next := 0;
    outputs := [];
    while true
      invariant next <= EndIndex(queue) && |outputs| == next
      invariant output == Accumulated(queue, next)
      invariant forall k :: 0 <= k < next ==> outputs[k] == Accumulated(queue, k + 1)
      decreases EndIndex(queue) - next
    {
      var step := queue[next];
      if step.None? {
        break;
      }
      next := next + 1;
      output := output + step.value;
      outputs := outputs + [output];
    }
  }

  /** The submit handler. An absent or empty key (`apiKey`) or an empty query yields one message
      and starts nothing; so does a client that fails to initialise (`clientError`). Otherwise the
      session runs against the endpoint `oracle` and the handler yields its accumulated output. */
  method OnSubmit(apiKey: Option<string>, query: string, clientError: Option<string>, oracle: seq<Outcome>)
    returns (outputs: seq<string>, started: bool)
    ensures started <==> apiKey.Some? && |apiKey.value| > 0 && |query| > 0 && clientError.None?
    ensures (apiKey.None? || |apiKey.value| == 0) ==> outputs == [KeyMissing]
    ensures apiKey.Some? && |apiKey.value| > 0 && |query| == 0 ==> outputs == [QueryMissing]
    ensures apiKey.Some? && |apiKey.value| > 0 && |query| > 0 && clientError.Some?
      ==> outputs == [ClientFailure + clientError.value]
    ensures started ==> |outputs| == EndIndex(Published(Session(oracle))) == |Session(oracle).steps| + 1
    ensures started ==> forall k :: 0 <= k < |outputs| ==> outputs[k] == Accumulated(Published(Session(oracle)), k + 1)
  {
    started := false;
    if apiKey.None? || |apiKey.value| == 0 {
      return [KeyMissing], started;
    }
    if |query| == 0 {
      return [QueryMissing], started;
    }
    if clientError.Some? {
      return [ClientFailure + clientError.value], started;
    }
    started := true;
    var _, queue, _ := GenerateResponse(oracle, query);
    QueueEnd(Session(oracle));
    outputs := Drain(Texts(queue));
    assert Texts(queue) == Published(Session(oracle));
  }

  /** The end marker of a session's published queue comes right after its final record. */
  lemma QueueEnd(run: Run)
    ensures EndIndex(Published(run)) == |run.steps| + 1 < |Published(run)|
  {
    QueueShape(run);
    TextsShape(Queue(run));
  }

  /** The outputs of a session: the i-th shows the rendered records 1..i + 1 in order, and the last
      adds the final record to the last step's output. */
  lemma SessionOutputs(run: Run)
    ensures var t := Published(run); var n := |run.steps|;
      |t| == n + 2 && t[n] == Some(Render(FinalRecordOf(run.final.reply))) && t[n + 1].None?
    ensures var t := Published(run);
      forall i :: 0 <= i < |run.steps| ==> t[i] == Some(Render(StepRecordOf(i + 1, run.steps[i].reply)))
  {
    QueueShape(run);
    TextsShape(Queue(run));
  }
}
