/** The remote app-server client as the program runs it: the initialize handshake, the
    worker loop with its maps and queues updated in place, and the consumer's reads. */
module RemoteClient {
  import opened Common
  import opened RemoteWorker

  // ---- The worker task ------------------------------------------------------------

  class WorkerTask {
    var pendingRequests: map<RequestId, nat>
    var workerExitError: Option<ErrorKind>
    var consumerOpen: bool
    var events: seq<AppServerEvent>
    var wire: seq<Out>
    var replies: seq<(nat, Reply)>

    /** How many inputs the loop has taken; names the caller of the next command. */
    var taken: nat

    ghost function View(running: bool): Worker
      reads this
    {
      Worker(running, pendingRequests, workerExitError, consumerOpen, events, taken, wire, replies)
    }

    constructor ()
      ensures View(true) == FRESH
    {
      pendingRequests, workerExitError, consumerOpen, events, wire, replies, taken := map[], None, true, [], [], [], 0;
    }

    /** Queue an event for the consumer; fails once the consumer is gone. */
    method DeliverEvent(event: AppServerEvent) returns (delivered: bool)
      modifies `events
      ensures delivered == consumerOpen
      ensures events == if consumerOpen then old(events) + [event] else old(events)
    {
      if consumerOpen {
        events := events + [event];
      }
      delivered := consumerOpen;
    }

    /** Tell the consumer that the connection is gone and note why. */
    method FailWith(kind: ErrorKind)
      modifies `events, `workerExitError
      ensures View(false) == Disconnect(old(View(true)), kind)
    {
      var _ := DeliverEvent(Disconnected(kind));
      workerExitError := Some(kind);
    }

    method HandleCommand(command: Command, writeOk: bool) returns (running: bool)
      modifies this
      ensures View(running) == Next(old(View(true)), Take(command, writeOk))
    {
      var waiter := taken;
      taken := taken + 1;
      running := true;
      match command {
        case SendRequest(id) =>
          if id in pendingRequests {
            replies := replies + [(waiter, DuplicateId)];
            return;
          }
          pendingRequests := pendingRequests[id := waiter];
          if writeOk {
            wire := wire + [OutRequest(id)];
          } else {
            ghost var before := old(pendingRequests);
            pendingRequests := pendingRequests - {id};
            assert pendingRequests == before;
            replies := replies + [(waiter, WriteFailed)];
            FailWith(BrokenPipe);
            running := false;
          }
        case Notify => Write(OutNotification, writeOk, waiter);
        case ResolveServerRequest(id) => Write(OutResponse(id), writeOk, waiter);
        case RejectServerRequest(id) => Write(OutError(id), writeOk, waiter);
        case Shutdown =>
          replies := replies + [(waiter, Wrote(writeOk))];
          running := false;
      }
    }

    /** Write one message and tell the caller whether that worked. */
    method Write(message: Out, writeOk: bool, waiter: nat)
      modifies `wire, `replies
      ensures wire == old(wire) + if writeOk then [message] else []
      ensures replies == old(replies) + [(waiter, Wrote(writeOk))]
    {
      if writeOk {
        wire := wire + [message];
      }
      replies := replies + [(waiter, Wrote(writeOk))];
    }

    /** Hand a server's answer to whoever waits for it. */
    method CompleteRequest(id: RequestId, reply: Reply)
      modifies `pendingRequests, `replies
      ensures View(true) == Settle(old(View(true)), id, reply)
    {
      if id in pendingRequests {
        replies := replies + [(pendingRequests[id], reply)];
        pendingRequests := pendingRequests - {id};
      }
    }

    method HandleMessage(message: RpcMessage, writeOk: bool) returns (running: bool)
      modifies this
      ensures View(running) == Next(old(View(true)), Receive(Text(message), writeOk))
    {
      taken := taken + 1;
      running := true;
      match message {
        case Response(id, result) => CompleteRequest(id, Answered(result));
        case Error(id, error) => CompleteRequest(id, Refused(error));
        case Notification(decoded) =>
          if decoded.Some? {
            running := DeliverEvent(ServerNotification(decoded.value));
          }
        case Request(id, known) =>
          if known.Some? {
            running := DeliverEvent(ServerRequest(known.value));
          } else if writeOk {
            wire := wire + [OutUnsupported(id, METHOD_NOT_FOUND)];
          } else {
            FailWith(BrokenPipe);
            running := false;
          }
      }
    }

    method HandleFrame(frame: Frame, writeOk: bool) returns (running: bool)
      modifies this
      ensures View(running) == Next(old(View(true)), Receive(frame, writeOk))
    {
      if frame.Text? {
        running := HandleMessage(frame.message, writeOk);
        return;
      }
      taken := taken + 1;
      running := frame.Other?;
      match frame {
        case InvalidText => FailWith(InvalidData);
        case Close => FailWith(ConnectionAborted);
        case TransportFailed => FailWith(InvalidData);
        case EndOfStream => FailWith(UnexpectedEof);
        case Other =>
      }
    }

    /** One turn of the select loop. */
    method TakeInput(input: Input) returns (running: bool)
      modifies this
      ensures View(running) == Next(old(View(true)), input)
    {
      match input
      case Take(command, ok) => running := HandleCommand(command, ok);
      case Receive(frame, ok) => running := HandleFrame(frame, ok);
      case CommandsClosed =>
        taken := taken + 1;
        running := false;
      case ConsumerDropped =>
        taken := taken + 1;
        consumerOpen, running := false, true;
    }

    /** The select loop, up to the input that ends it. */
    method Loop(inputs: seq<Input>) returns (running: bool)
      requires View(true) == FRESH
      modifies this
      ensures taken <= |inputs| && Live(inputs[..taken])
      ensures View(running) == Run(inputs[..taken])
      ensures running ==> taken == |inputs|
    {
      running := true;
      while taken < |inputs| && running
        invariant taken <= |inputs| && Live(inputs[..taken])
        invariant View(running) == Run(inputs[..taken])
        decreases |inputs| - taken
      {
        assert inputs[..taken + 1][..taken] == inputs[..taken];
        running := TakeInput(inputs[taken]);
      }
    }

    /** After the loop: reply to everyone left, in whatever order the map yields. */
    method FailPending() returns (ghost order: seq<RequestId>)
      modifies `pendingRequests, `replies
      ensures pendingRequests == map[]
      ensures Enumerates(order, old(pendingRequests).Keys)
      ensures forall i :: 0 <= i < |order| ==> order[i] in old(pendingRequests)
      ensures replies == Finished(old(View(false)), order)
    {
      var kind := workerExitError.GetOr(BrokenPipe);
      ghost var w := View(false);
      order := [];
      while exists id :: id in pendingRequests
        invariant LeftOver(w, order, pendingRequests) && replies == Finished(w, order)
        decreases |pendingRequests|
      {
        var id :| id in pendingRequests;
        FailNext(w, order, pendingRequests, id);
        replies := replies + [(pendingRequests[id], Exited(kind))];
        order := order + [id];
        pendingRequests := pendingRequests - {id};
      }
      forall id | id in w.pending ensures id in order {
        assert id !in pendingRequests;
      }
      assert pendingRequests == map[];
    }

    /** The whole task: take inputs until something ends the loop, then fail whoever still waits.
        Every caller whose command was taken has been replied to exactly once. */
    method Work(inputs: seq<Input>) returns (ghost order: seq<RequestId>)
      requires View(true) == FRESH
      modifies this
      ensures taken <= |inputs| && Live(inputs[..taken]) && pendingRequests == map[]
      ensures Enumerates(order, Run(inputs[..taken]).pending.Keys)
      ensures forall i :: 0 <= i < |order| ==> order[i] in Run(inputs[..taken]).pending
      ensures replies == Finished(Run(inputs[..taken]), order)
      ensures forall k: nat :: RepliesTo(replies, k) == if k < taken && inputs[k].Take? then 1 else 0
      ensures events == Run(inputs[..taken]).events && wire == Run(inputs[..taken]).wire
    {
      var running := Loop(inputs);
      ghost var done := inputs[..taken];
      order := FailPending();
      ghost var w := Run(done);
      FinishedIgnoresRunning(w, w.(running := false), order);
      forall k: nat ensures RepliesTo(replies, k) == if k < taken && inputs[k].Take? then 1 else 0 {
        NobodyLeftWaiting(done, order, k);
      }
    }
  }

  /** `order` lists, once each, the waiters no longer in the map `left`. */
  ghost predicate LeftOver(w: Worker, order: seq<RequestId>, left: map<RequestId, nat>) {
    && (forall id :: id in left ==> id in w.pending && left[id] == w.pending[id])
    && (forall id :: id in w.pending ==> (id in order <==> id !in left))
    && (forall i :: 0 <= i < |order| ==> order[i] in w.pending)
    && (forall i, j :: 0 <= i < j < |order| ==> order[i] != order[j])
  }

  lemma FailNext(w: Worker, order: seq<RequestId>, left: map<RequestId, nat>, id: RequestId)
    requires LeftOver(w, order, left) && id in left
    ensures LeftOver(w, order + [id], left - {id})
    ensures Finished(w, order + [id]) == Finished(w, order) + [(left[id], ExitReply(w))]
  {
    assert (order + [id])[..|order|] == order;
    assert id !in order;
    forall k | k in w.pending ensures k in order + [id] <==> k !in left - {id} {
    }
  }

  lemma {:induction false} FinishedIgnoresRunning(a: Worker, b: Worker, order: seq<RequestId>)
    requires b == a.(running := false)
    requires forall i :: 0 <= i < |order| ==> order[i] in a.pending
    ensures ExitReplies(a, order) == ExitReplies(b, order)
  {
    if order != [] {
      FinishedIgnoresRunning(a, b, order[..|order| - 1]);
    }
  }

  // ---- The initialize handshake ---------------------------------------------------

  datatype Handshake = Connected(events: seq<AppServerEvent>, consumed: nat) | Failed(why: Failure)

  /** Why a handshake can fail. */
  datatype Failure = WriteError | OtherError | Aborted | EndOfInput | TimedOut

  /** What a received frame means while the handshake waits for the answer to `id`. */
  datatype Verdict = GoOn | Accepted | Rejected(why: Failure)

  function VerdictOf(input: Input, id: RequestId): Verdict {
    match input
    case Receive(Text(Response(rid, _)), _) => if rid == id then Accepted else GoOn
    case Receive(Text(Error(rid, _)), _) => if rid == id then Rejected(OtherError) else GoOn
    case Receive(Text(Notification(_)), _) => GoOn
    case Receive(Text(Request(_, known)), ok) => if known.Some? || ok then GoOn else Rejected(WriteError)
    case Receive(Other, _) => GoOn
    case Receive(Close, _) => Rejected(Aborted)
    case Receive(EndOfStream, _) => Rejected(EndOfInput)
    case _ => Rejected(OtherError)
  }

  /** What is read from the connection. */
  type Incoming = i: Input | i.Receive? witness Receive(Close, true)

  predicate IsAnswer(input: Incoming, id: RequestId) {
    input.frame.Text? && input.frame.message.Response? && input.frame.message.id == id
  }

  predicate IsRejection(input: Incoming, id: RequestId) {
    input.frame.Text? && input.frame.message.Error? && input.frame.message.id == id
  }

  /** Frames the handshake does not survive, its answer apart. */
  predicate Breaks(input: Incoming) {
    || input.frame.InvalidText? || input.frame.Close? || input.frame.TransportFailed? || input.frame.EndOfStream?
    || (Unknown(input) && !input.writeOk)
  }

  predicate Decisive(input: Incoming, id: RequestId) {
    IsAnswer(input, id) || IsRejection(input, id) || Breaks(input)
  }

  /** The handshake's answer is the frame at `k`: nothing before it was decisive. */
  predicate AcceptedAt(frames: seq<Incoming>, id: RequestId, k: nat) {
    && k < |frames| && IsAnswer(frames[k], id)
    && forall j :: 0 <= j < k ==> !Decisive(frames[j], id)
  }

  /** The frame at `k` is the first decisive one, or there is none and the frames run out there. */
  predicate DecidedAt(frames: seq<Incoming>, id: RequestId, k: nat) {
    && k <= |frames| && (k < |frames| ==> Decisive(frames[k], id))
    && forall j :: 0 <= j < k ==> !Decisive(frames[j], id)
  }

  /** The error of a handshake decided at `k` that does not connect: out of time, by the frame, or
      accepted and then unable to confirm. */
  predicate FailsAs(frames: seq<Incoming>, id: RequestId, k: nat, why: Failure) {
    if k >= |frames| then why.TimedOut? else
      var frame := frames[k].frame;
      && (frame.Close? ==> why.Aborted?)
      && (frame.EndOfStream? ==> why.EndOfInput?)
      && (frame.InvalidText? || frame.TransportFailed? || IsRejection(frames[k], id) ==> why.OtherError?)
      && (Unknown(frames[k]) || IsAnswer(frames[k], id) ==> why.WriteError?)
  }

  lemma VerdictIs(input: Incoming, id: RequestId)
    ensures VerdictOf(input, id).GoOn? <==> !Decisive(input, id)
    ensures VerdictOf(input, id).Accepted? <==> IsAnswer(input, id)
    ensures VerdictOf(input, id).Rejected? ==> FailsAs([input], id, 0, VerdictOf(input, id).why)
  {
  }

  /** What the handshake has collected from the first `k` frames. */
  ghost predicate Collected(frames: seq<Incoming>, id: RequestId, k: nat, events: seq<AppServerEvent>, wire: seq<Out>) {
    && k <= |frames| && (forall j :: 0 <= j < k ==> !Decisive(frames[j], id))
    && events == Projection(frames[..k])
    && wire == [OutRequest(id)] + Refusals(frames[..k])
  }

  lemma CollectedNext(frames: seq<Incoming>, id: RequestId, k: nat, events: seq<AppServerEvent>, wire: seq<Out>)
    requires k < |frames| && Collected(frames, id, k, events, wire) && !Decisive(frames[k], id)
    ensures Collected(frames, id, k + 1, events + EventIn(frames[k]), wire + RefusalIn(frames[k]))
  {
    assert frames[..k + 1][..k] == frames[..k];
    assert [OutRequest(id)] + Refusals(frames[..k]) + RefusalIn(frames[k]) == [OutRequest(id)] + (Refusals(frames[..k]) + RefusalIn(frames[k]));
  }

  /** Pass on or refuse what a frame brings before the answer is there. */
  method PassOn(input: Input, before: seq<AppServerEvent>, written: seq<Out>) returns (events: seq<AppServerEvent>, wire: seq<Out>)
    ensures events == before + EventIn(input) && wire == written + RefusalIn(input)
  {
    events, wire := before, written;
    match input {
      case Receive(Text(Notification(decoded)), _) =>
        if decoded.Some? {
          events := events + [ServerNotification(decoded.value)];
        }
      case Receive(Text(Request(rid, known)), writeOk) =>
        if known.Some? {
          events := events + [ServerRequest(known.value)];
        } else if writeOk {
          wire := wire + [OutUnsupported(rid, METHOD_NOT_FOUND)];
        }
      case _ =>
    }
  }

  lemma AnswerAddsNoEvent(frames: seq<Incoming>, id: RequestId, k: nat)
    requires AcceptedAt(frames, id, k)
    ensures Projection(frames[..k + 1]) == Projection(frames[..k])
  {
    assert frames[..k + 1][..k] == frames[..k];
    assert EventIn(frames[k]) == [];
  }

  /** Send the initialize request and read frames until its answer; frames that run out stand for
      the timeout. Connected exactly when the first decisive frame accepts and both own writes
      succeed; then the events of all frames before it are kept in order, and every unknown
      request among them has been refused once, between the two own writes. Otherwise nothing is
      written after the decisive frame, which also decides the error. */
  method InitializeRemoteConnection(id: RequestId, requestOk: bool, frames: seq<Incoming>, initializedOk: bool)
    returns (result: Handshake, wire: seq<Out>)
    ensures result.Connected? <==> requestOk && initializedOk && exists k: nat :: AcceptedAt(frames, id, k)
    ensures result.Connected? ==>
              && 0 < result.consumed && AcceptedAt(frames, id, result.consumed - 1)
              && result.events == Projection(frames[..result.consumed])
              && wire == [OutRequest(id)] + Refusals(frames[..result.consumed - 1]) + [OutNotification]
    ensures !requestOk ==> result == Failed(WriteError) && wire == []
    ensures requestOk && result.Failed? ==>
              exists k: nat :: DecidedAt(frames, id, k)
                            && FailsAs(frames, id, k, result.why) && wire == [OutRequest(id)] + Refusals(frames[..k])
  {
    if !requestOk {
      return Failed(WriteError), [];
    }
    wire := [OutRequest(id)];
    var pendingEvents := [];
    var k := 0;
    while k < |frames| && VerdictOf(frames[k], id).GoOn?
      invariant Collected(frames, id, k, pendingEvents, wire)
    {
      VerdictIs(frames[k], id);
      CollectedNext(frames, id, k, pendingEvents, wire);
      pendingEvents, wire := PassOn(frames[k], pendingEvents, wire);
      k := k + 1;
    }
    if k == |frames| {
      assert DecidedAt(frames, id, k);
      return Failed(TimedOut), wire;
    }
    VerdictIs(frames[k], id);
    assert DecidedAt(frames, id, k);
    var verdict := VerdictOf(frames[k], id);
    if verdict.Rejected? {
      return Failed(verdict.why), wire;
    }
    assert AcceptedAt(frames, id, k);
    if !initializedOk {
      return Failed(WriteError), wire;
    }
    wire := wire + [OutNotification];
    AnswerAddsNoEvent(frames, id, k);
    result := Connected(pendingEvents, k + 1);
  }

  // ---- What the consumer reads ----------------------------------------------------

  /** What asking for the next event comes to: an answer, or waiting for one. The answer is empty
      once the worker has ended and everything is read. */
  datatype Poll = Ready(event: Option<AppServerEvent>) | Waiting

  class Client {
    var pendingEvents: seq<AppServerEvent>
    var received: seq<AppServerEvent>

    /** The worker has ended and dropped its side of the event channel. */
    var closed: bool

    /** All events read so far. */
    ghost var read: seq<AppServerEvent>

    /** The stream of events, read or still to be read. */
    ghost function Stream(): seq<AppServerEvent>
      reads this
    {
      read + pendingEvents + received
    }

    constructor (handshakeEvents: seq<AppServerEvent>)
      ensures Stream() == handshakeEvents && read == [] && !closed
    {
      pendingEvents, received, closed, read := handshakeEvents, [], false, [];
    }

    /** The worker's side of the event channel. */
    method Enqueue(event: AppServerEvent)
      requires !closed
      modifies `received
      ensures Stream() == old(Stream()) + [event]
    {
      received := received + [event];
    }

    /** The worker ends. */
    method Close()
      modifies `closed
      ensures closed
    {
      closed := true;
    }

    /** The next event of the stream: the first one not read yet, the end of the stream once the
        worker has ended, and otherwise waiting. */
    method NextEvent() returns (poll: Poll)
      modifies `pendingEvents, `received, `read
      ensures Stream() == old(Stream())
      ensures poll.Ready? && poll.event.Some? <==> old(read) != Stream()
      ensures poll == Ready(None) <==> old(read) == Stream() && closed
      ensures read == if poll.Ready? && poll.event.Some? then old(read) + [poll.event.value] else old(read)
    {
      if pendingEvents != [] {
        poll := Ready(Some(pendingEvents[0]));
        read := read + [pendingEvents[0]];
        pendingEvents := pendingEvents[1..];
      } else if received != [] {
        poll := Ready(Some(received[0]));
        read := read + [received[0]];
        received := received[1..];
      } else if closed {
        poll := Ready(None);
      } else {
        poll := Waiting;
      }
    }
  }

  // ---- Handshake, worker and consumer together ------------------------------------

  /** One thing that happens in a session: the worker takes an input, or the consumer asks for the
      next event. */
  datatype Happening = Worked(input: Input) | Polled

  function InputsOf(session: seq<Happening>): seq<Input> {
    if session == [] then [] else
      InputsOf(session[..|session| - 1]) + if session[|session| - 1].Worked? then [session[|session| - 1].input] else []
  }

  /** Everything the consumer can ever read: what was received during the handshake and after, in
      order, and the disconnect notice if an error ended the worker. */
  function Readable(handshake: seq<Input>, inputs: seq<Input>): seq<AppServerEvent> {
    Projection(handshake + inputs) + Notice(Run(inputs))
  }

  lemma {:induction false} ProjectionConcat(a: seq<Input>, b: seq<Input>)
    ensures Projection(a + b) == Projection(a) + Projection(b)
  {
    if b == [] {
      assert a + b == a;
    } else {
      var init, last := b[..|b| - 1], b[|b| - 1];
      assert (a + b)[..|a + b| - 1] == a + init && (a + b)[|a + b| - 1] == last;
      ProjectionConcat(a, init);
      assert Projection(a) + (Projection(init) + EventIn(last)) == Projection(a) + Projection(init) + EventIn(last);
    }
  }

  /** Across handshake and worker, while the consumer listens, the events handed over are exactly
      the readable ones. */
  lemma StreamIsProjection(handshake: seq<Input>, inputs: seq<Input>)
    requires Live(inputs) && Run(inputs).consumerOpen
    ensures Projection(handshake) + Run(inputs).events == Readable(handshake, inputs)
  {
    EventsAreProjection(inputs);
    ProjectionConcat(handshake, inputs);
  }

  /** The events among the answers the consumer got, in order. */
  function ReadOf(polls: seq<Poll>): seq<AppServerEvent> {
    if polls == [] then [] else
      var last := polls[|polls| - 1];
      ReadOf(polls[..|polls| - 1]) + if last.Ready? && last.event.Some? then [last.event.value] else []
  }

  lemma ReadOfSnoc(polls: seq<Poll>, poll: Poll)
    ensures ReadOf(polls + [poll]) == ReadOf(polls) + if poll.Ready? && poll.event.Some? then [poll.event.value] else []
  {
    assert (polls + [poll])[..|polls|] == polls;
  }

  /** Whatever the worker has queued since, the consumer's channel gets. */
  method HandOver(task: WorkerTask, client: Client, from: nat, ghost handshake: seq<AppServerEvent>)
    requires from <= |task.events| && !client.closed
    requires client.Stream() == handshake + task.events[..from]
    modifies client`received
    ensures client.Stream() == handshake + task.events
  {
    var i := from;
    while i < |task.events|
      invariant i <= |task.events|
      invariant client.Stream() == handshake + task.events[..i]
    {
      client.Enqueue(task.events[i]);
      assert task.events[..i + 1] == task.events[..i] + [task.events[i]];
      i := i + 1;
    }
    assert task.events[..i] == task.events;
  }

  /** `w` is what the worker becomes by taking one more input; its events only grow. */
  ghost predicate TakesTo(before: Worker, input: Input, w: Worker) {
    && w == Next(before, input)
    && |before.events| <= |w.events| && w.events[..|before.events|] == before.events
  }

  lemma EventsGrow(w: Worker, input: Input)
    ensures TakesTo(w, input, Next(w, input))
  {
  }

  lemma TakesOneMore(inputs: seq<Input>, input: Input)
    requires Live(inputs) && Run(inputs).running
    ensures Live(inputs + [input]) && TakesTo(Run(inputs), input, Run(inputs + [input]))
  {
    var more := inputs + [input];
    assert more[..|inputs|] == inputs;
    assert Run(more) == Next(Run(inputs), input);
    EventsGrow(Run(inputs), input);
  }

  /** The worker takes one input; if that ends the loop, it fails whoever waits and ends. */
  method WorkOn(task: WorkerTask, client: Client, input: Input, ghost handshake: seq<AppServerEvent>, ghost w: Worker)
    requires !client.closed && TakesTo(task.View(true), input, w)
    requires client.Stream() == handshake + task.events
    modifies task, client`received, client`closed
    ensures task.events == w.events && task.consumerOpen == w.consumerOpen
    ensures client.closed == !w.running && (w.running ==> task.View(true) == w)
    ensures client.Stream() == handshake + task.events
  {
    var from := |task.events|;
    var running := task.TakeInput(input);
    HandOver(task, client, from, handshake);
    if !running {
      ghost var _ := task.FailPending();
      client.Close();
    }
  }

  /** The state of a session after the worker took `inputs` and the consumer got `polls`. */
  ghost predicate InSession(handshake: seq<AppServerEvent>, inputs: seq<Input>, polls: seq<Poll>, task: WorkerTask, client: Client)
    reads task, client
  {
    && Live(inputs) && client.closed == !Run(inputs).running
    && task.events == Run(inputs).events && task.consumerOpen == Run(inputs).consumerOpen
    && (!client.closed ==> task.View(true) == Run(inputs))
    && client.Stream() == handshake + task.events
    && client.read == ReadOf(polls)
    && (Ready(None) in polls ==> client.closed && client.read == client.Stream())
  }

  /** The consumer asks for the next event. */
  method Consume(task: WorkerTask, client: Client, polls: seq<Poll>, ghost handshake: seq<AppServerEvent>, ghost inputs: seq<Input>)
    returns (more: seq<Poll>)
    requires InSession(handshake, inputs, polls, task, client)
    modifies client`pendingEvents, client`received, client`read
    ensures InSession(handshake, inputs, more, task, client)
  {
    var poll := client.NextEvent();
    ReadOfSnoc(polls, poll);
    more := polls + [poll];
  }

  /** The worker takes the next input. */
  method Produce(task: WorkerTask, client: Client, input: Input, inputs: seq<Input>, ghost handshake: seq<AppServerEvent>, ghost polls: seq<Poll>)
    returns (more: seq<Input>)
    requires InSession(handshake, inputs, polls, task, client) && !client.closed
    modifies task, client`received, client`closed
    ensures InSession(handshake, more, polls, task, client) && more == inputs + [input]
  {
    TakesOneMore(inputs, input);
    more := inputs + [input];
    WorkOn(task, client, input, handshake, Run(more));
  }

  /** Whatever happens in a session after the handshake, in any order. */
  method Serve(task: WorkerTask, client: Client, session: seq<Happening>, ghost handshake: seq<AppServerEvent>)
    returns (taken: seq<Input>, polls: seq<Poll>)
    requires InSession(handshake, [], [], task, client)
    modifies task, client
    ensures InSession(handshake, taken, polls, task, client)
    ensures taken <= InputsOf(session) && (!client.closed ==> taken == InputsOf(session))
  {
    taken, polls := [], [];
    for i := 0 to |session|
      invariant InSession(handshake, taken, polls, task, client)
      invariant taken <= InputsOf(session[..i]) && (!client.closed ==> taken == InputsOf(session[..i]))
    {
      assert session[..i + 1][..i] == session[..i];
      if session[i].Worked? && !client.closed {
        taken := Produce(task, client, session[i].input, taken, handshake, polls);
      } else if session[i].Polled? && task.consumerOpen {
        polls := Consume(task, client, polls, handshake, taken);
      }
    }
    assert session[..|session|] == session;
  }

  /** What the consumer got is an initial part of what it can ever read, in order and without gaps;
      being told the end means that the worker has ended and that everything was read. */
  ghost predicate ReadInOrder(handshake: seq<Input>, taken: seq<Input>, polls: seq<Poll>) {
    Run(taken).consumerOpen ==>
      && ReadOf(polls) <= Readable(handshake, taken)
      && (Ready(None) in polls ==> !Run(taken).running && ReadOf(polls) == Readable(handshake, taken))
  }

  /** A whole session: the handshake, and then whatever happens. */
  method Session(id: RequestId, requestOk: bool, frames: seq<Incoming>, initializedOk: bool, session: seq<Happening>)
    returns (handshake: Handshake, taken: seq<Input>, polls: seq<Poll>)
    ensures handshake.Connected? <==> requestOk && initializedOk && exists k: nat :: AcceptedAt(frames, id, k)
    ensures handshake.Failed? ==> taken == [] && polls == []
    ensures requestOk && handshake.Failed? ==> exists k: nat :: DecidedAt(frames, id, k) && FailsAs(frames, id, k, handshake.why)
    ensures handshake.Connected? ==>
              && 0 < handshake.consumed && AcceptedAt(frames, id, handshake.consumed - 1)
              && taken <= InputsOf(session) && Live(taken) && (Run(taken).running ==> taken == InputsOf(session))
              && ReadInOrder(frames[..handshake.consumed], taken, polls)
  {
    var written;
    handshake, written := InitializeRemoteConnection(id, requestOk, frames, initializedOk);
    if handshake.Failed? {
      return handshake, [], [];
    }
    var task := new WorkerTask();
    var client := new Client(handshake.events);
    taken, polls := Serve(task, client, session, handshake.events);
    if task.consumerOpen {
      StreamIsProjection(frames[..handshake.consumed], taken);
      assert client.read <= client.Stream();
    }
  }
}
