/** The worker of the remote app-server client: caller commands and server messages
    multiplexed over one JSON-RPC 2.0 connection, with a map of requests in flight.

    A run is the sequence of things the worker's select loop takes, in whatever order
    they happen. Whether a write succeeds is part of the input that causes it. A caller
    waiting for a reply is named by the position of its command in the run. */
module RemoteWorker {
  import opened Common

  /** What the consumer of the client reads. */
  datatype AppServerEvent = ServerNotification(notification: int) | ServerRequest(request: int) | Disconnected(kind: ErrorKind)

  datatype ErrorKind = BrokenPipe | InvalidData | ConnectionAborted | UnexpectedEof

  /** A decoded server message. A notification or request carries the event it decodes to, if the
      client knows its method. */
  datatype RpcMessage =
    | Response(id: RequestId, result: int)
    | Error(id: RequestId, error: int)
    | Notification(decoded: Option<int>)
    | Request(id: RequestId, known: Option<int>)

  datatype Frame =
    | Text(message: RpcMessage)
    | InvalidText
    | Close
    | Other
    | TransportFailed
    | EndOfStream

  datatype Command =
    | SendRequest(id: RequestId)
    | Notify
    | ResolveServerRequest(id: RequestId)
    | RejectServerRequest(id: RequestId)
    | Shutdown

  datatype Input =
    | Take(command: Command, writeOk: bool)
    | Receive(frame: Frame, writeOk: bool)
    | CommandsClosed
    | ConsumerDropped

  /** What the worker writes to the connection. */
  datatype Out =
    | OutRequest(id: RequestId)
    | OutNotification
    | OutResponse(id: RequestId)
    | OutError(id: RequestId)
    | OutUnsupported(id: RequestId, code: int)

  /** Section 5.1 of the JSON-RPC 2.0 specification: method not found. */
  const METHOD_NOT_FOUND: int := -32601

  /** What a waiting caller gets. */
  datatype Reply =
    | Answered(result: int)
    | Refused(error: int)
    | DuplicateId
    | WriteFailed
    | Exited(kind: ErrorKind)
    | Wrote(ok: bool)

  datatype Worker = Worker(
    running: bool,
    pending: map<RequestId, nat>,
    exitError: Option<ErrorKind>,
    consumerOpen: bool,
    events: seq<AppServerEvent>,
    taken: nat,
    wire: seq<Out>,
    replies: seq<(nat, Reply)>)

  const FRESH := Worker(true, map[], None, true, [], 0, [], [])

  // ---- One turn of the select loop ------------------------------------------------

  /** Leave the loop, telling the consumer if it still listens. */
  function Disconnect(w: Worker, kind: ErrorKind): Worker {
    w.(running := false, exitError := Some(kind),
       events := if w.consumerOpen then w.events + [Disconnected(kind)] else w.events)
  }

  function Deliver(w: Worker, e: AppServerEvent): Worker {
    if w.consumerOpen then w.(events := w.events + [e]) else w.(running := false)
  }

  function ReplyTo(w: Worker, waiter: nat, reply: Reply): Worker {
    w.(replies := w.replies + [(waiter, reply)])
  }

  function Settle(w: Worker, id: RequestId, reply: Reply): Worker {
    if id in w.pending then ReplyTo(w.(pending := w.pending - {id}), w.pending[id], reply) else w
  }

  function OnCommand(w: Worker, n: nat, c: Command, ok: bool): Worker {
    match c
    case SendRequest(id) =>
      if id in w.pending then ReplyTo(w, n, DuplicateId)
      else if ok then w.(pending := w.pending[id := n])
      else Disconnect(ReplyTo(w, n, WriteFailed), BrokenPipe)
    case Notify => ReplyTo(w, n, Wrote(ok))
    case ResolveServerRequest(_) => ReplyTo(w, n, Wrote(ok))
    case RejectServerRequest(_) => ReplyTo(w, n, Wrote(ok))
    case Shutdown => ReplyTo(w, n, Wrote(ok)).(running := false)
  }

  function OnMessage(w: Worker, m: RpcMessage, ok: bool): Worker {
    match m
    case Response(id, result) => Settle(w, id, Answered(result))
    case Error(id, error) => Settle(w, id, Refused(error))
    case Notification(decoded) => if decoded.Some? then Deliver(w, ServerNotification(decoded.value)) else w
    case Request(id, known) =>
      if known.Some? then Deliver(w, ServerRequest(known.value))
      else if ok then w
      else Disconnect(w, BrokenPipe)
  }

  function OnFrame(w: Worker, f: Frame, ok: bool): Worker {
    match f
    case Text(m) => OnMessage(w, m, ok)
    case InvalidText => Disconnect(w, InvalidData)
    case Close => Disconnect(w, ConnectionAborted)
    case Other => w
    case TransportFailed => Disconnect(w, InvalidData)
    case EndOfStream => Disconnect(w, UnexpectedEof)
  }

  /** What an input makes the worker write, if the write succeeds. */
  function Writes(w: Worker, input: Input): seq<Out> {
    match input
    case Take(SendRequest(id), _) => if id in w.pending then [] else [OutRequest(id)]
    case Take(Notify, _) => [OutNotification]
    case Take(ResolveServerRequest(id), _) => [OutResponse(id)]
    case Take(RejectServerRequest(id), _) => [OutError(id)]
    case Receive(Text(Request(id, known)), _) => if known.None? then [OutUnsupported(id, METHOD_NOT_FOUND)] else []
    case _ => []
  }

  predicate WriteOk(input: Input) {
    (input.Take? || input.Receive?) && input.writeOk
  }

  /** The loop takes one input, the `n`-th. */
  function Act(w: Worker, n: nat, input: Input): Worker {
    match input
    case Take(c, ok) => OnCommand(w, n, c, ok)
    case Receive(f, ok) => OnFrame(w, f, ok)
    case CommandsClosed => w.(running := false)
    case ConsumerDropped => w.(consumerOpen := false)
  }

  function Next(w: Worker, input: Input): Worker {
    Act(w, w.taken, input).(taken := w.taken + 1, wire := w.wire + if WriteOk(input) then Writes(w, input) else [])
  }

  function Run(inputs: seq<Input>): Worker {
    if inputs == [] then FRESH else Next(Run(inputs[..|inputs| - 1]), inputs[|inputs| - 1])
  }

  /** The loop was still running whenever it took one of these inputs. */
  predicate Live(inputs: seq<Input>) {
    inputs == [] || (Live(inputs[..|inputs| - 1]) && Run(inputs[..|inputs| - 1]).running)
  }

  /** After the loop: everyone still waiting is told why it ended, in the order the hash map
      yields them. */
  function ExitReply(w: Worker): Reply {
    Exited(w.exitError.GetOr(BrokenPipe))
  }

  function ExitReplies(w: Worker, order: seq<RequestId>): seq<(nat, Reply)>
    requires forall i :: 0 <= i < |order| ==> order[i] in w.pending
  {
    if order == [] then [] else
      ExitReplies(w, order[..|order| - 1]) + [(w.pending[order[|order| - 1]], ExitReply(w))]
  }

  lemma {:induction false} TakenIsLength(inputs: seq<Input>)
    ensures Run(inputs).taken == |inputs|
  {
    if inputs != [] {
      TakenIsLength(inputs[..|inputs| - 1]);
    }
  }

  // ---- Every waiter is pending or replied to exactly once -------------------------

  function RepliesTo(replies: seq<(nat, Reply)>, waiter: nat): nat {
    if replies == [] then 0 else
      RepliesTo(replies[..|replies| - 1], waiter) + if replies[|replies| - 1].0 == waiter then 1 else 0
  }

  lemma RepliesToSnoc(replies: seq<(nat, Reply)>, r: (nat, Reply), waiter: nat)
    ensures RepliesTo(replies + [r], waiter) == RepliesTo(replies, waiter) + if r.0 == waiter then 1 else 0
  {
    assert (replies + [r])[..|replies|] == replies;
  }

  predicate IsRequest(input: Input, id: RequestId) {
    input.Take? && input.command == SendRequest(id)
  }

  /** The caller of command `k` is in the map of requests in flight. */
  predicate Waits(w: Worker, inputs: seq<Input>, k: nat) {
    && k < |inputs| && inputs[k].Take? && inputs[k].command.SendRequest?
    && inputs[k].command.id in w.pending && w.pending[inputs[k].command.id] == k
  }

  /** Whoever waits under an id sent a request with that id. */
  ghost predicate PendingNamed(w: Worker, inputs: seq<Input>) {
    forall id :: id in w.pending ==> w.pending[id] < |inputs| && IsRequest(inputs[w.pending[id]], id)
  }

  /** The id an input answers. */
  function AnswersId(input: Input): Option<RequestId> {
    match input
    case Receive(Text(Response(id, _)), _) => Some(id)
    case Receive(Text(Error(id, _)), _) => Some(id)
    case _ => None
  }

  /** All that taking an input can do to the waiters. */
  ghost predicate Shape(w: Worker, input: Input, w': Worker) {
    if input.Take? then
      if input.command.SendRequest? && input.command.id !in w.pending && input.writeOk then
        w'.pending == w.pending[input.command.id := w.taken] && w'.replies == w.replies
      else
        w'.pending == w.pending && exists r :: w'.replies == w.replies + [(w.taken, r)]
    else if AnswersId(input).Some? && AnswersId(input).value in w.pending then
      var id := AnswersId(input).value;
      w'.pending == w.pending - {id} && w'.replies == w.replies + [(w.pending[id], AnswerIn(input, id).value)]
    else
      w'.pending == w.pending && w'.replies == w.replies
  }

  lemma NextShape(w: Worker, input: Input)
    ensures Shape(w, input, Next(w, input))
  {
    if input.Take? && input.command.SendRequest? && input.command.id in w.pending {
      assert Next(w, input).replies == w.replies + [(w.taken, DuplicateId)];
    } else if input.Take? && input.command.SendRequest? && !input.writeOk {
      assert Next(w, input).replies == w.replies + [(w.taken, WriteFailed)];
    } else if input.Take? && !input.command.SendRequest? {
      assert Next(w, input).replies == w.replies + [(w.taken, Wrote(input.writeOk))];
    }
  }

  lemma ShapeNamed(w: Worker, inputs: seq<Input>, input: Input, w': Worker)
    requires w.taken == |inputs| && PendingNamed(w, inputs) && Shape(w, input, w')
    ensures PendingNamed(w', inputs + [input])
  {
    forall id | id in w'.pending
      ensures w'.pending[id] < |inputs + [input]| && IsRequest((inputs + [input])[w'.pending[id]], id)
    {
      if id in w.pending && w'.pending[id] == w.pending[id] {
        assert w.pending[id] < |inputs| && IsRequest(inputs[w.pending[id]], id);
      }
    }
  }

  lemma {:induction false} RunNamed(inputs: seq<Input>)
    ensures PendingNamed(Run(inputs), inputs)
  {
    if inputs != [] {
      var init, last := inputs[..|inputs| - 1], inputs[|inputs| - 1];
      RunNamed(init);
      TakenIsLength(init);
      NextShape(Run(init), last);
      ShapeNamed(Run(init), init, last, Run(inputs));
      assert inputs == init + [last];
    }
  }

  function Owed(w: Worker, inputs: seq<Input>, k: nat): nat {
    RepliesTo(w.replies, k) + if Waits(w, inputs, k) then 1 else 0
  }

  /** A command brings in one reply to give; nothing else does. */
  lemma ShapeOwes(w: Worker, inputs: seq<Input>, input: Input, w': Worker, k: nat)
    requires w.taken == |inputs| && PendingNamed(w, inputs) && Shape(w, input, w')
    ensures Owed(w', inputs + [input], k) == Owed(w, inputs, k) + if k == |inputs| && input.Take? then 1 else 0
  {
    if w'.replies != w.replies {
      RepliesToSnoc(w.replies, w'.replies[|w.replies|], k);
    }
  }

  /** In every run prefix the caller of each command taken by the worker is either waiting or has
      been replied to, exactly once; nobody else is ever replied to. */
  lemma {:induction false} RepliedExactlyOnce(inputs: seq<Input>, k: nat)
    ensures Owed(Run(inputs), inputs, k) == if k < |inputs| && inputs[k].Take? then 1 else 0
  {
    if inputs != [] {
      var init, last := inputs[..|inputs| - 1], inputs[|inputs| - 1];
      RepliedExactlyOnce(init, k);
      RunNamed(init);
      TakenIsLength(init);
      assert inputs == init + [last];
      NextShape(Run(init), last);
      ShapeOwes(Run(init), init, last, Run(inputs), k);
    }
  }

  /** A request whose id is already in flight is refused and displaces nobody. */
  lemma DuplicateNeverDisplaces(w: Worker, id: RequestId, ok: bool)
    requires id in w.pending
    ensures
      var w' := Next(w, Take(SendRequest(id), ok));
      && w'.pending == w.pending && w'.running == w.running && w'.events == w.events
      && w'.wire == w.wire && w'.replies == w.replies + [(w.taken, DuplicateId)]
  {
  }

  // ---- Whose answer a waiter gets -------------------------------------------------

  /** The reply an input carries for the request with the given id. */
  function AnswerIn(input: Input, id: RequestId): Option<Reply> {
    match input
    case Receive(Text(Response(rid, result)), _) => if rid == id then Some(Answered(result)) else None
    case Receive(Text(Error(rid, error)), _) => if rid == id then Some(Refused(error)) else None
    case _ => None
  }

  /** Command `k` was a request that went out: its id was free and the write succeeded. */
  predicate Sent(inputs: seq<Input>, k: nat, id: RequestId) {
    && k < |inputs| && IsRequest(inputs[k], id) && inputs[k].writeOk && id !in Run(inputs[..k]).pending
  }

  /** No input after `k` and before `n` answers the id. */
  predicate Unanswered(inputs: seq<Input>, k: nat, n: nat, id: RequestId) {
    n <= |inputs| && forall j :: k < j < n ==> AnswerIn(inputs[j], id).None?
  }

  lemma ShapeKeeps(w: Worker, input: Input, w': Worker, id: RequestId)
    requires Shape(w, input, w') && id in w.pending && AnswerIn(input, id).None?
    ensures id in w'.pending && w'.pending[id] == w.pending[id]
  {
  }

  lemma NextKeeps(w: Worker, input: Input, id: RequestId)
    requires id in w.pending && AnswerIn(input, id).None?
    ensures id in Next(w, input).pending && Next(w, input).pending[id] == w.pending[id]
  {
    NextShape(w, input);
    ShapeKeeps(w, input, Next(w, input), id);
  }

  lemma NextSends(w: Worker, id: RequestId)
    requires id !in w.pending
    ensures Next(w, Take(SendRequest(id), true)).pending == w.pending[id := w.taken]
  {
  }

  lemma RunSnoc(inputs: seq<Input>, n: nat)
    requires n < |inputs|
    ensures Run(inputs[..n + 1]) == Next(Run(inputs[..n]), inputs[n])
  {
    assert inputs[..n + 1][..n] == inputs[..n];
  }

  /** The pending map of the run's prefixes. */
  function PendingAt(inputs: seq<Input>, n: nat): map<RequestId, nat>
    requires n <= |inputs|
  {
    Run(inputs[..n]).pending
  }

  lemma SentIsPending(inputs: seq<Input>, k: nat, id: RequestId)
    requires Sent(inputs, k, id)
    ensures id in PendingAt(inputs, k + 1) && PendingAt(inputs, k + 1)[id] == k
  {
    RunSnoc(inputs, k);
    TakenIsLength(inputs[..k]);
    NextSends(Run(inputs[..k]), id);
  }

  lemma PendingKept(inputs: seq<Input>, n: nat, id: RequestId)
    requires n < |inputs| && id in PendingAt(inputs, n) && AnswerIn(inputs[n], id).None?
    ensures id in PendingAt(inputs, n + 1) && PendingAt(inputs, n + 1)[id] == PendingAt(inputs, n)[id]
  {
    RunSnoc(inputs, n);
    NextKeeps(Run(inputs[..n]), inputs[n], id);
  }

  lemma {:induction false} StaysPending(inputs: seq<Input>, k: nat, n: nat, id: RequestId)
    requires Sent(inputs, k, id) && k < n && Unanswered(inputs, k, n, id)
    ensures id in PendingAt(inputs, n) && PendingAt(inputs, n)[id] == k
    decreases n
  {
    if n == k + 1 {
      SentIsPending(inputs, k, id);
    } else {
      StaysPending(inputs, k, n - 1, id);
      PendingKept(inputs, n - 1, id);
    }
  }

  lemma NextAnswers(w: Worker, input: Input, id: RequestId)
    requires id in w.pending && AnswerIn(input, id).Some?
    ensures Next(w, input).replies == w.replies + [(w.pending[id], AnswerIn(input, id).value)]
    ensures id !in Next(w, input).pending
  {
  }

  /** The first answer for a request in flight goes to its waiter, and the waiter is done. */
  lemma AnswerReachesWaiter(inputs: seq<Input>, k: nat, j: nat, id: RequestId)
    requires Sent(inputs, k, id) && k < j < |inputs| && Unanswered(inputs, k, j, id)
    requires AnswerIn(inputs[j], id).Some?
    ensures
      var before, after := Run(inputs[..j]), Run(inputs[..j + 1]);
      && after.replies == before.replies + [(k, AnswerIn(inputs[j], id).value)]
      && id !in after.pending
  {
    StaysPending(inputs, k, j, id);
    RunSnoc(inputs, j);
    NextAnswers(Run(inputs[..j]), inputs[j], id);
  }

  /** At most one request per id is outstanding: between two requests sent with the same id lies
      an answer to the first. */
  lemma OneOutstandingPerId(inputs: seq<Input>, i: nat, k: nat, id: RequestId)
    requires Sent(inputs, i, id) && Sent(inputs, k, id) && i < k
    ensures exists j :: i < j < k && AnswerIn(inputs[j], id).Some?
  {
    if Unanswered(inputs, i, k, id) {
      StaysPending(inputs, i, k, id);
      assert false;
    }
  }

  // ---- After the loop nobody is left waiting --------------------------------------

  /** Closed form of all replies given by the time the worker ends. */
  function Finished(w: Worker, order: seq<RequestId>): seq<(nat, Reply)>
    requires forall i :: 0 <= i < |order| ==> order[i] in w.pending
  {
    w.replies + ExitReplies(w, order)
  }

  lemma {:induction false} RepliesToConcat(a: seq<(nat, Reply)>, b: seq<(nat, Reply)>, k: nat)
    ensures RepliesTo(a + b, k) == RepliesTo(a, k) + RepliesTo(b, k)
  {
    if b == [] {
      assert a + b == a;
    } else {
      assert (a + b)[..|a + b| - 1] == a + b[..|b| - 1];
      RepliesToConcat(a, b[..|b| - 1], k);
    }
  }

  lemma {:induction false} ExitRepliesOnce(w: Worker, inputs: seq<Input>, order: seq<RequestId>, k: nat)
    requires PendingNamed(w, inputs)
    requires forall i :: 0 <= i < |order| ==> order[i] in w.pending
    requires forall i, j :: 0 <= i < j < |order| ==> order[i] != order[j]
    ensures RepliesTo(ExitReplies(w, order), k) == if Waits(w, inputs, k) && inputs[k].command.id in order then 1 else 0
  {
    if order != [] {
      var init, last := order[..|order| - 1], order[|order| - 1];
      assert order == init + [last];
      ExitRepliesOnce(w, inputs, init, k);
      RepliesToSnoc(ExitReplies(w, init), (w.pending[last], ExitReply(w)), k);
    }
  }

  /** Whatever ended the loop, once the worker is done every caller whose command it took has been
      replied to exactly once. */
  lemma NobodyLeftWaiting(inputs: seq<Input>, order: seq<RequestId>, k: nat)
    requires Enumerates(order, Run(inputs).pending.Keys)
    ensures forall i :: 0 <= i < |order| ==> order[i] in Run(inputs).pending
    ensures RepliesTo(Finished(Run(inputs), order), k) == if k < |inputs| && inputs[k].Take? then 1 else 0
  {
    var w := Run(inputs);
    forall i | 0 <= i < |order| ensures order[i] in w.pending {
      assert order[i] in order;
    }
    RepliedExactlyOnce(inputs, k);
    RunNamed(inputs);
    ExitRepliesOnce(w, inputs, order, k);
    RepliesToConcat(w.replies, ExitReplies(w, order), k);
  }

  lemma {:induction false} RepliesKept(inputs: seq<Input>, j: nat, r: (nat, Reply))
    requires j <= |inputs| && r in Run(inputs[..j]).replies
    ensures r in Run(inputs).replies
    decreases |inputs|
  {
    if j == |inputs| {
      assert inputs[..j] == inputs;
    } else {
      var init := inputs[..|inputs| - 1];
      assert init[..j] == inputs[..j];
      RepliesKept(init, j, r);
      NextShape(Run(init), inputs[|inputs| - 1]);
    }
  }

  lemma {:induction false} ExitReplyGiven(w: Worker, order: seq<RequestId>, id: RequestId)
    requires forall i :: 0 <= i < |order| ==> order[i] in w.pending
    requires id in order
    ensures (w.pending[id], ExitReply(w)) in ExitReplies(w, order)
  {
    var init, last := order[..|order| - 1], order[|order| - 1];
    if last != id {
      assert id in init;
      ExitReplyGiven(w, init, id);
    }
  }

  /** The caller of a request that went out gets the first answer received for its id afterwards;
      being replied to only once, it gets nothing else. */
  lemma WaiterGetsFirstAnswer(inputs: seq<Input>, order: seq<RequestId>, k: nat, j: nat, id: RequestId)
    requires Enumerates(order, Run(inputs).pending.Keys)
    requires forall i :: 0 <= i < |order| ==> order[i] in Run(inputs).pending
    requires Sent(inputs, k, id) && k < j < |inputs| && Unanswered(inputs, k, j, id)
    requires AnswerIn(inputs[j], id).Some?
    ensures (k, AnswerIn(inputs[j], id).value) in Finished(Run(inputs), order)
    ensures RepliesTo(Finished(Run(inputs), order), k) == 1
  {
    AnswerReachesWaiter(inputs, k, j, id);
    RepliesKept(inputs, j + 1, (k, AnswerIn(inputs[j], id).value));
    NobodyLeftWaiting(inputs, order, k);
  }

  /** Without an answer before the loop ends, it gets the reason the loop ended, and only that. */
  lemma WaiterGetsExitReason(inputs: seq<Input>, order: seq<RequestId>, k: nat, id: RequestId)
    requires Enumerates(order, Run(inputs).pending.Keys)
    requires forall i :: 0 <= i < |order| ==> order[i] in Run(inputs).pending
    requires Sent(inputs, k, id) && Unanswered(inputs, k, |inputs|, id)
    ensures (k, Exited(Run(inputs).exitError.GetOr(BrokenPipe))) in Finished(Run(inputs), order)
    ensures RepliesTo(Finished(Run(inputs), order), k) == 1
  {
    StaysPending(inputs, k, |inputs|, id);
    assert inputs[..|inputs|] == inputs;
    ExitReplyGiven(Run(inputs), order, id);
    NobodyLeftWaiting(inputs, order, k);
  }

  // ---- What the consumer reads ----------------------------------------------------

  /** The event an input stands for: a decodable notification or a known server request. */
  function EventIn(input: Input): seq<AppServerEvent> {
    match input
    case Receive(Text(Notification(decoded)), _) => if decoded.Some? then [ServerNotification(decoded.value)] else []
    case Receive(Text(Request(_, known)), _) => if known.Some? then [ServerRequest(known.value)] else []
    case _ => []
  }

  function Projection(inputs: seq<Input>): seq<AppServerEvent> {
    if inputs == [] then [] else Projection(inputs[..|inputs| - 1]) + EventIn(inputs[|inputs| - 1])
  }

  /** The notice that the connection is gone, once there is a reason. */
  function Notice(w: Worker): seq<AppServerEvent> {
    if w.exitError.Some? then [Disconnected(w.exitError.value)] else []
  }

  /** As long as the consumer listens it has been handed `projected` and then the notice. */
  predicate HandedOver(w: Worker, projected: seq<AppServerEvent>) {
    w.consumerOpen ==> w.events == projected + Notice(w) && (w.running ==> w.exitError.None?)
  }

  lemma NextProjects(w: Worker, input: Input, projected: seq<AppServerEvent>)
    requires w.running && HandedOver(w, projected)
    ensures HandedOver(Next(w, input), projected + EventIn(input))
  {
  }

  lemma {:induction false} RunProjects(inputs: seq<Input>)
    requires Live(inputs)
    ensures HandedOver(Run(inputs), Projection(inputs))
  {
    if inputs != [] {
      RunProjects(inputs[..|inputs| - 1]);
      NextProjects(Run(inputs[..|inputs| - 1]), inputs[|inputs| - 1], Projection(inputs[..|inputs| - 1]));
    }
  }

  /** While the consumer listens, the events queued are exactly the projection of what was
      received, in order, and after it the disconnect notice if an error ended the loop. */
  lemma EventsAreProjection(inputs: seq<Input>)
    requires Live(inputs) && Run(inputs).consumerOpen
    ensures Run(inputs).events == Projection(inputs) + Notice(Run(inputs))
    ensures Run(inputs).running ==> Notice(Run(inputs)) == []
  {
    RunProjects(inputs);
  }

  // ---- Unknown server requests ----------------------------------------------------

  /** The refusal an unknown server request gets, if it can be written. */
  function RefusalIn(input: Input): seq<Out> {
    match input
    case Receive(Text(Request(id, known)), ok) => if known.None? && ok then [OutUnsupported(id, METHOD_NOT_FOUND)] else []
    case _ => []
  }

  function Refusals(inputs: seq<Input>): seq<Out> {
    if inputs == [] then [] else Refusals(inputs[..|inputs| - 1]) + RefusalIn(inputs[|inputs| - 1])
  }

  /** The refusals among all that was written, in order. */
  function Unsupported(wire: seq<Out>): seq<Out> {
    if wire == [] then [] else
      Unsupported(wire[..|wire| - 1]) + if wire[|wire| - 1].OutUnsupported? then [wire[|wire| - 1]] else []
  }

  predicate Unknown(input: Input) {
    input.Receive? && input.frame.Text? && input.frame.message.Request? && input.frame.message.known.None?
  }

  lemma WritesRefusal(w: Worker, input: Input)
    ensures Unsupported(Next(w, input).wire) == Unsupported(w.wire) + RefusalIn(input)
  {
    if WriteOk(input) && Writes(w, input) != [] {
      var out := Writes(w, input)[0];
      assert Writes(w, input) == [out];
      assert (w.wire + [out])[..|w.wire|] == w.wire;
    } else {
      assert Next(w, input).wire == w.wire;
    }
  }

  /** In every run the refusals on the wire are, in order, one method-not-found error with its own
      id for each unknown server request whose refusal could be written, and nothing else. */
  lemma {:induction false} UnknownRequestsRefused(inputs: seq<Input>)
    ensures Unsupported(Run(inputs).wire) == Refusals(inputs)
  {
    if inputs != [] {
      UnknownRequestsRefused(inputs[..|inputs| - 1]);
      WritesRefusal(Run(inputs[..|inputs| - 1]), inputs[|inputs| - 1]);
    }
  }

  /** A refusal that cannot be written ends the loop, so in a run it can only come last. */
  lemma {:induction false} UnwrittenRefusalIsLast(inputs: seq<Input>, k: nat)
    requires Live(inputs) && k < |inputs| && Unknown(inputs[k]) && !inputs[k].writeOk
    ensures k == |inputs| - 1 && !Run(inputs).running
    decreases |inputs|
  {
    if k < |inputs| - 1 {
      UnwrittenRefusalIsLast(inputs[..|inputs| - 1], k);
    }
  }

  // ---- What goes over the wire ----------------------------------------------------

  /** Input `k` is a request that goes out. */
  predicate SendsRequest(inputs: seq<Input>, k: nat) {
    k < |inputs| && inputs[k].Take? && inputs[k].command.SendRequest? && Sent(inputs, k, inputs[k].command.id)
  }

  /** What input `k` puts on the wire: the request if it is sent, the notification, response or error
      the caller asked for, or the refusal of an unknown request. */
  function PutOut(inputs: seq<Input>, k: nat): seq<Out>
    requires k < |inputs|
  {
    if SendsRequest(inputs, k) then [OutRequest(inputs[k].command.id)] else
      match inputs[k]
      case Take(Notify, true) => [OutNotification]
      case Take(ResolveServerRequest(id), true) => [OutResponse(id)]
      case Take(RejectServerRequest(id), true) => [OutError(id)]
      case _ => RefusalIn(inputs[k])
  }

  function WireLog(inputs: seq<Input>, n: nat): seq<Out>
    requires n <= |inputs|
  {
    if n == 0 then [] else WireLog(inputs, n - 1) + PutOut(inputs, n - 1)
  }

  lemma NextPutsOut(inputs: seq<Input>, n: nat)
    requires n < |inputs|
    ensures Next(Run(inputs[..n]), inputs[n]).wire == Run(inputs[..n]).wire + PutOut(inputs, n)
  {
  }

  /** In every run the wire holds, in order and without anything else, what each input asks for. */
  lemma {:induction false} WireIsLog(inputs: seq<Input>, n: nat)
    requires n <= |inputs|
    ensures Run(inputs[..n]).wire == WireLog(inputs, n)
  {
    if n != 0 {
      WireIsLog(inputs, n - 1);
      RunSnoc(inputs, n - 1);
      NextPutsOut(inputs, n - 1);
    }
  }

  lemma PutsOutAtMostOne(inputs: seq<Input>, k: nat)
    requires k < |inputs|
    ensures |PutOut(inputs, k)| <= 1
    ensures forall id :: OutRequest(id) in PutOut(inputs, k) <==> Sent(inputs, k, id)
  {
  }

  /** The input behind a message on the wire. */
  lemma {:induction false} WrittenBy(inputs: seq<Input>, n: nat, p: nat) returns (k: nat)
    requires n <= |inputs| && p < |WireLog(inputs, n)|
    ensures k < n && |WireLog(inputs, k)| == p && PutOut(inputs, k) == [WireLog(inputs, n)[p]]
  {
    PutsOutAtMostOne(inputs, n - 1);
    if p < |WireLog(inputs, n - 1)| {
      k := WrittenBy(inputs, n - 1, p);
    } else {
      k := n - 1;
    }
  }

  lemma {:induction false} WireGrows(inputs: seq<Input>, i: nat, j: nat)
    requires i <= j <= |inputs|
    ensures |WireLog(inputs, i)| <= |WireLog(inputs, j)|
  {
    if i < j {
      WireGrows(inputs, i, j - 1);
    }
  }

  /** At most one request per id is outstanding, told from the wire: between the inputs that wrote two
      requests with one id an answer to that id was received. */
  lemma OneOutstandingOnWire(inputs: seq<Input>, p: nat, q: nat, id: RequestId) returns (i: nat, j: nat, k: nat)
    requires p < q < |Run(inputs).wire| && Run(inputs).wire[p] == Run(inputs).wire[q] == OutRequest(id)
    ensures i < j < k < |inputs| && AnswerIn(inputs[j], id).Some?
    ensures |Run(inputs[..i]).wire| == p && |Run(inputs[..k]).wire| == q && Sent(inputs, i, id) && Sent(inputs, k, id)
  {
    assert inputs[..|inputs|] == inputs;
    WireIsLog(inputs, |inputs|);
    i := WrittenBy(inputs, |inputs|, p);
    k := WrittenBy(inputs, |inputs|, q);
    PutsOutAtMostOne(inputs, i);
    PutsOutAtMostOne(inputs, k);
    WireIsLog(inputs, i);
    WireIsLog(inputs, k);
    if k <= i {
      WireGrows(inputs, k, i);
    }
    OneOutstandingPerId(inputs, i, k, id);
    j :| i < j < k && AnswerIn(inputs[j], id).Some?;
  }

  // ---- What every caller is told --------------------------------------------------

  /** Someone waits under an id exactly while a request with it was sent and is unanswered. */
  lemma {:induction false} PendingIff(inputs: seq<Input>, n: nat, id: RequestId)
    requires n <= |inputs|
    ensures id in PendingAt(inputs, n) <==> exists k: nat :: k < n && Sent(inputs, k, id) && Unanswered(inputs, k, n, id)
  {
    if id in PendingAt(inputs, n) {
      var k := WaiterSent(inputs, n, id);
      assert Sent(inputs, k, id) && Unanswered(inputs, k, n, id);
    }
    if k: nat :| k < n && Sent(inputs, k, id) && Unanswered(inputs, k, n, id) {
      StaysPending(inputs, k, n, id);
    }
  }

  lemma NextPending(w: Worker, input: Input, id: RequestId)
    requires id in Next(w, input).pending
    ensures AnswerIn(input, id).None?
    ensures id in w.pending || (IsRequest(input, id) && input.writeOk)
  {
  }

  lemma PendingBefore(inputs: seq<Input>, n: nat, id: RequestId)
    requires 0 < n <= |inputs| && id in PendingAt(inputs, n)
    ensures AnswerIn(inputs[n - 1], id).None? && (id in PendingAt(inputs, n - 1) || Sent(inputs, n - 1, id))
  {
    RunSnoc(inputs, n - 1);
    NextPending(Run(inputs[..n - 1]), inputs[n - 1], id);
  }

  lemma NonePendingAtFirst(inputs: seq<Input>, id: RequestId)
    ensures id !in PendingAt(inputs, 0)
  {
  }

  lemma {:induction false} WaiterSent(inputs: seq<Input>, n: nat, id: RequestId) returns (k: nat)
    requires n <= |inputs| && id in PendingAt(inputs, n)
    ensures k < n && Sent(inputs, k, id) && Unanswered(inputs, k, n, id)
  {
    NonePendingAtFirst(inputs, id);
    PendingBefore(inputs, n, id);
    if id in PendingAt(inputs, n - 1) {
      k := WaiterSent(inputs, n - 1, id);
    } else {
      k := n - 1;
    }
  }

  /** The reply a command gets at once, if it does: a request with an id in flight or one that cannot
      be written is refused, and every other command is told whether its write succeeded. */
  function ToldAtOnce(inputs: seq<Input>, k: nat): Option<Reply>
    requires k < |inputs| && inputs[k].Take?
  {
    if !inputs[k].command.SendRequest? then Some(Wrote(inputs[k].writeOk))
    else if inputs[k].command.id in PendingAt(inputs, k) then Some(DuplicateId)
    else if !inputs[k].writeOk then Some(WriteFailed)
    else None
  }

  lemma NextTells(inputs: seq<Input>, k: nat)
    requires k < |inputs| && inputs[k].Take?
    ensures
      var told := ToldAtOnce(inputs, k);
      Next(Run(inputs[..k]), inputs[k]).replies ==
      Run(inputs[..k]).replies + if told.Some? then [(Run(inputs[..k]).taken, told.value)] else []
  {
  }

  /** Every caller that is not left waiting is told at once, and in the end was told nothing else. */
  lemma CallerIsTold(inputs: seq<Input>, order: seq<RequestId>, k: nat)
    requires Enumerates(order, Run(inputs).pending.Keys)
    requires forall i :: 0 <= i < |order| ==> order[i] in Run(inputs).pending
    requires k < |inputs| && inputs[k].Take? && ToldAtOnce(inputs, k).Some?
    ensures (k, ToldAtOnce(inputs, k).value) in Finished(Run(inputs), order)
    ensures RepliesTo(Finished(Run(inputs), order), k) == 1
  {
    NextTells(inputs, k);
    RunSnoc(inputs, k);
    TakenIsLength(inputs[..k]);
    RepliesKept(inputs, k + 1, (k, ToldAtOnce(inputs, k).value));
    NobodyLeftWaiting(inputs, order, k);
  }

  // ---- What ends the loop ---------------------------------------------------------

  lemma {:induction false} ConsumerOpenIff(inputs: seq<Input>)
    ensures Run(inputs).consumerOpen <==> ConsumerDropped !in inputs
  {
    if inputs != [] {
      var init, last := inputs[..|inputs| - 1], inputs[|inputs| - 1];
      ConsumerOpenIff(init);
      assert inputs == init + [last];
      ConsumerNext(Run(init), last);
    }
  }

  lemma ConsumerNext(w: Worker, input: Input)
    ensures Next(w, input).consumerOpen == (w.consumerOpen && input != ConsumerDropped)
  {
  }

  /** Input `k` cannot write what it must: a request that is free to go, or a refusal. */
  predicate FailsToWrite(inputs: seq<Input>, k: nat) {
    && k < |inputs|
    && ((inputs[k].Take? && inputs[k].command.SendRequest? && !inputs[k].writeOk && inputs[k].command.id !in PendingAt(inputs, k))
        || (Unknown(inputs[k]) && !inputs[k].writeOk))
  }

  /** Input `k` asks the worker to stop, or brings an event that nobody is left to take. */
  predicate StopsQuietly(inputs: seq<Input>, k: nat) {
    && k < |inputs|
    && (inputs[k].CommandsClosed? || (inputs[k].Take? && inputs[k].command.Shutdown?)
        || (EventIn(inputs[k]) != [] && ConsumerDropped in inputs[..k]))
  }

  /** The loop ends at `k` with this error, if any. */
  ghost predicate EndsAt(inputs: seq<Input>, k: nat, error: Option<ErrorKind>) {
    && k < |inputs|
    && match error
       case None => StopsQuietly(inputs, k)
       case Some(BrokenPipe) => FailsToWrite(inputs, k)
       case Some(InvalidData) => inputs[k].Receive? && (inputs[k].frame.InvalidText? || inputs[k].frame.TransportFailed?)
       case Some(ConnectionAborted) => inputs[k].Receive? && inputs[k].frame.Close?
       case Some(UnexpectedEof) => inputs[k].Receive? && inputs[k].frame.EndOfStream?
  }

  predicate BadFrame(input: Input) {
    input.Receive? && (input.frame.InvalidText? || input.frame.TransportFailed? || input.frame.Close? || input.frame.EndOfStream?)
  }

  predicate Ends(inputs: seq<Input>, k: nat) {
    k < |inputs| && (StopsQuietly(inputs, k) || FailsToWrite(inputs, k) || BadFrame(inputs[k]))
  }

  ghost predicate EndsRightly(inputs: seq<Input>, k: nat, w': Worker) {
    if w'.running then w'.exitError.None? && !Ends(inputs, k) else Ends(inputs, k) && EndsAt(inputs, k, w'.exitError)
  }

  ghost predicate RunsAt(inputs: seq<Input>, k: nat, w: Worker) {
    && k < |inputs| && w == Run(inputs[..k]) && w.running && w.exitError.None?
    && (w.consumerOpen <==> ConsumerDropped !in inputs[..k])
  }

  lemma CommandEnds(inputs: seq<Input>, k: nat, w: Worker)
    requires RunsAt(inputs, k, w) && !inputs[k].Receive?
    ensures EndsRightly(inputs, k, Next(w, inputs[k]))
  {
  }

  lemma TextEnds(inputs: seq<Input>, k: nat, w: Worker)
    requires RunsAt(inputs, k, w) && inputs[k].Receive? && inputs[k].frame.Text?
    ensures EndsRightly(inputs, k, Next(w, inputs[k]))
  {
  }

  lemma FrameEnds(inputs: seq<Input>, k: nat, w: Worker)
    requires RunsAt(inputs, k, w) && inputs[k].Receive? && !inputs[k].frame.Text?
    ensures EndsRightly(inputs, k, Next(w, inputs[k]))
  {
  }

  lemma NextEnds(inputs: seq<Input>, k: nat, w: Worker)
    requires RunsAt(inputs, k, w)
    ensures EndsRightly(inputs, k, Next(w, inputs[k]))
  {
    if !inputs[k].Receive? {
      CommandEnds(inputs, k, w);
    } else if inputs[k].frame.Text? {
      TextEnds(inputs, k, w);
    } else {
      FrameEnds(inputs, k, w);
    }
  }

  lemma {:induction false} RunningHasNoError(inputs: seq<Input>)
    requires Live(inputs) && Run(inputs).running
    ensures Run(inputs).exitError.None?
  {
    if inputs != [] {
      var k := |inputs| - 1;
      RunningHasNoError(inputs[..k]);
      ConsumerOpenIff(inputs[..k]);
      NextEnds(inputs, k, Run(inputs[..k]));
    }
  }

  /** The loop goes on exactly until an input that ends it, and the error it ends with is that of the
      input: a failed write, unreadable or failed transport, a close, the end of the stream, or none. */
  lemma LoopEndsIff(inputs: seq<Input>)
    requires Live(inputs) && inputs != []
    ensures Run(inputs).running <==> !Ends(inputs, |inputs| - 1)
    ensures !Run(inputs).running ==> EndsAt(inputs, |inputs| - 1, Run(inputs).exitError)
  {
    var k := |inputs| - 1;
    RunningHasNoError(inputs[..k]);
    ConsumerOpenIff(inputs[..k]);
    NextEnds(inputs, k, Run(inputs[..k]));
  }
}
