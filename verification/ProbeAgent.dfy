/** The node agent's side of the probe: greets, accepts one request and echoes its body. */
module ProbeAgent {
  import opened Domain
  import opened Enrollment
  import opened ProbeFrames

  /** `Serving` holds the accepted request, the bytes echoed so far and the next sequence number. */
  datatype Agent =
    | Greeting
    | Serving(request: Option<RelayFrame>, total: nat, expected: nat)
    | Finished
    | Broken

  function AgentHello(installation: string): NodeFrame {
    NodeFrame(VERSION, installation, CONNECTION_ID, "", "", NodeHello(CAPABILITIES, LIMITS))
  }

  predicate ValidRelayHello(f: RelayFrame, installation: string) {
    && f.payload.RelayHello?
    && f.version == VERSION && f.installation == installation
    && f.connection == CONNECTION_ID && f.request == "" && f.trace == ""
    && f.payload.capabilities == CAPABILITIES && f.payload.limits == LIMITS
  }

  predicate SameRequest(f: RelayFrame, request: RelayFrame) {
    f.connection == request.connection && f.request == request.request && f.trace == request.trace
  }

  predicate ValidRelayFrame(f: RelayFrame, installation: string, request: Option<RelayFrame>) {
    && f.version == VERSION && f.installation == installation
    && f.connection == CONNECTION_ID && ValidUuid7(f.request) && ValidUuid7(f.trace)
    && (request.Some? ==> SameRequest(f, request.value))
  }

  /** The deadline, in milliseconds, lies after `now` and at most two minutes ahead. */
  predicate InWindow(deadline: int, now: Instant) {
    deadline > 0 && deadline * MILLISECOND > now && deadline * MILLISECOND <= now + MAX_WINDOW
  }

  function Reply(request: RelayFrame, payload: NodePayload): NodeFrame {
    NodeFrame(request.version, request.installation, request.connection, request.request, request.trace, payload)
  }

  predicate AcceptsStart(f: RelayFrame, now: Instant) {
    && f.payload.RequestStart?
    && f.payload.method_ == METHOD && f.payload.path == PATH && f.payload.headers == map[]
    && InWindow(f.payload.deadline, now)
  }

  predicate AcceptsChunk(agent: Agent, f: RelayFrame) {
    && agent.Serving? && agent.request.Some? && f.payload.RequestChunk?
    && f.payload.sequence == agent.expected
    && |f.payload.data| <= MAX_CHUNK
    && agent.total + |f.payload.data| <= MAX_REQUEST
  }

  /** One received frame: the next state and the frames sent in answer. */
  function AgentStep(agent: Agent, f: RelayFrame, installation: string, now: Instant): (Agent, seq<NodeFrame>) {
    match agent
    case Greeting => if ValidRelayHello(f, installation) then (Serving(None, 0, SequenceOf(0)), []) else (Broken, [])
    case Serving(request, total, expected) =>
      if !ValidRelayFrame(f, installation, request) then (Broken, [])
      else (
        match f.payload
        case RequestStart(_, _, _, _) =>
          if request.Some? || !AcceptsStart(f, now) then (Broken, [])
          else (Serving(Some(f), total, expected), [Reply(f, ResponseStart(200, OCTETS))])
        case RequestChunk(data, sequence) =>
          if !AcceptsChunk(agent, f) then (Broken, [])
          else (Serving(request, total + |data|, NextSequence(expected)),
            [Reply(request.value, ResponseChunk(data, sequence))])
        case RequestEnd =>
          if request.None? then (Broken, []) else (Finished, [Reply(request.value, ResponseEnd)])
        case RequestCancelled(code, reason) =>
          if request.None? || reason != "" || !ValidCode(code) then (Broken, [])
          else (Finished, [Reply(request.value, ResponseCancelled(code, ""))])
        case _ => (Broken, []))
    case Finished => (Finished, [])
    case Broken => (Broken, [])
  }

  /** State and everything sent after receiving `frames`; `clock[i]` is the agent's time at frame `i`. */
  function AgentRun(installation: string, frames: seq<RelayFrame>, clock: seq<Instant>): (Agent, seq<NodeFrame>)
    requires |clock| == |frames|
    decreases |frames|
  {
    if frames == [] then (Greeting, [AgentHello(installation)])
    else
      var n := |frames| - 1;
      var (agent, sent) := AgentRun(installation, frames[..n], clock[..n]);
      var (next, answer) := AgentStep(agent, frames[n], installation, clock[n]);
      (next, sent + answer)
  }

  // ---------------------------------------------------------------- safety against any peer

  /** The frames at positions 2 and on are chunks in order, none too long, together within the request limit. */
  ghost predicate ChunksInOrder(frames: seq<RelayFrame>) {
    && (forall i :: 0 <= i < |frames| ==>
         frames[i].payload.RequestChunk? && frames[i].payload.sequence == SequenceOf(i)
           && |frames[i].payload.data| <= MAX_CHUNK)
    && Size(Bodies(frames)) <= MAX_REQUEST
  }

  function Bodies(frames: seq<RelayFrame>): seq<seq<Byte>> {
    seq(|frames|, i requires 0 <= i < |frames| => if frames[i].payload.RequestChunk? then frames[i].payload.data
      else [])
  }

  /** What an agent answers to a request and its first chunks. */
  function Echoes(request: RelayFrame, frames: seq<RelayFrame>): seq<NodeFrame> {
    [Reply(request, ResponseStart(200, OCTETS))]
    + seq(|frames|, i requires 0 <= i < |frames| => Reply(request, ResponseChunk(Bodies(frames)[i], SequenceOf(i))))
  }

  /** The first two frames are a valid greeting and an acceptable request, in time when it was read. */
  predicate Begun(installation: string, frames: seq<RelayFrame>, clock: seq<Instant>) {
    && |clock| == |frames| && |frames| >= 2
    && ValidRelayHello(frames[0], installation)
    && ValidRelayFrame(frames[1], installation, None) && AcceptsStart(frames[1], clock[1])
  }

  /** Every frame belongs to the request. */
  predicate Correlated(installation: string, request: RelayFrame, frames: seq<RelayFrame>) {
    forall i :: 0 <= i < |frames| ==> ValidRelayFrame(frames[i], installation, Some(request))
  }

  /** The frame ends or cancels the request, and the answer says the same with the same code. */
  predicate Terminates(installation: string, request: RelayFrame, f: RelayFrame, last: NodeFrame) {
    && ValidRelayFrame(f, installation, Some(request))
    && (|| (f.payload.RequestEnd? && last == Reply(request, ResponseEnd))
        || (&& f.payload.RequestCancelled? && f.payload.reason == "" && ValidCode(f.payload.code)
            && last == Reply(request, ResponseCancelled(f.payload.code, ""))))
  }

  /** After the greeting and the request come `n` chunks, answered one by one, and then at most the answer to the frame
      that ended the request. */
  ghost predicate LawfulWith(installation: string, frames: seq<RelayFrame>, clock: seq<Instant>, sent: seq<NodeFrame>,
      n: nat, tail: seq<NodeFrame>) {
    && Begun(installation, frames, clock)
    && 2 + n <= |frames| && ChunksInOrder(frames[2..2 + n]) && Correlated(installation, frames[1], frames[2..2 + n])
    && (tail == [] || (|tail| == 1 && 2 + n < |frames| && Terminates(installation, frames[1], frames[2 + n], tail[0])))
    && sent == [AgentHello(installation)] + Echoes(frames[1], frames[2..2 + n]) + tail
  }

  /** Hello alone; or hello, one response start, an in-order echo of the first `n` chunks received after the
      request, and at most one terminator, all under the request's correlation. */
  ghost predicate Lawful(installation: string, frames: seq<RelayFrame>, clock: seq<Instant>, sent: seq<NodeFrame>) {
    sent == [AgentHello(installation)] || exists n: nat, tail :: LawfulWith(installation, frames, clock, sent, n, tail)
  }

  /** Where a running agent stands after `frames`. */
  ghost predicate AgentInvariant(installation: string, frames: seq<RelayFrame>, clock: seq<Instant>, agent: Agent,
      sent: seq<NodeFrame>) {
    match agent
    case Greeting => frames == [] && sent == [AgentHello(installation)]
    case Serving(None, total, expected) =>
      && |frames| == 1 && ValidRelayHello(frames[0], installation)
      && total == 0 && expected == SequenceOf(0) && sent == [AgentHello(installation)]
    case Serving(Some(request), total, expected) =>
      && Begun(installation, frames, clock) && request == frames[1]
      && ChunksInOrder(frames[2..]) && Correlated(installation, request, frames[2..])
      && total == Size(Bodies(frames[2..])) && expected == SequenceOf(|frames| - 2)
      && sent == [AgentHello(installation)] + Echoes(request, frames[2..])
    case _ => Lawful(installation, frames, clock, sent)
  }

  lemma StandingIsLawful(installation: string, frames: seq<RelayFrame>, clock: seq<Instant>, agent: Agent,
      sent: seq<NodeFrame>)
    requires AgentInvariant(installation, frames, clock, agent, sent)
    ensures Lawful(installation, frames, clock, sent)
  {
    if agent.Serving? && agent.request.Some? {
      var n := |frames| - 2;
      assert frames[2..2 + n] == frames[2..];
      assert LawfulWith(installation, frames, clock, sent, n, []);
    }
  }

  lemma LawfulExtends(installation: string, frames: seq<RelayFrame>, clock: seq<Instant>, f: RelayFrame, now: Instant,
      sent: seq<NodeFrame>)
    requires |clock| == |frames| && Lawful(installation, frames, clock, sent)
    ensures Lawful(installation, frames + [f], clock + [now], sent)
  {
    if sent != [AgentHello(installation)] {
      var n: nat, tail :| LawfulWith(installation, frames, clock, sent, n, tail);
      LawfulWithExtends(installation, frames, clock, f, now, sent, n, tail);
    }
  }

  lemma BegunExtends(installation: string, frames: seq<RelayFrame>, clock: seq<Instant>, f: RelayFrame, now: Instant)
    requires Begun(installation, frames, clock)
    ensures Begun(installation, frames + [f], clock + [now]) && (frames + [f])[1] == frames[1]
  {
  }

  lemma LawfulWithExtends(installation: string, frames: seq<RelayFrame>, clock: seq<Instant>, f: RelayFrame,
      now: Instant, sent: seq<NodeFrame>, n: nat, tail: seq<NodeFrame>)
    requires LawfulWith(installation, frames, clock, sent, n, tail)
    ensures LawfulWith(installation, frames + [f], clock + [now], sent, n, tail)
  {
    BegunExtends(installation, frames, clock, f, now);
    assert (frames + [f])[2..2 + n] == frames[2..2 + n];
    assert 2 + n < |frames| ==> (frames + [f])[2 + n] == frames[2 + n];
  }

  lemma EchoesGrow(request: RelayFrame, frames: seq<RelayFrame>, f: RelayFrame)
    requires f.payload.RequestChunk?
    ensures Bodies(frames + [f]) == Bodies(frames) + [f.payload.data]
    ensures Echoes(request, frames + [f]) == Echoes(request, frames)
            + [Reply(request, ResponseChunk(f.payload.data, SequenceOf(|frames|)))]
    ensures Size(Bodies(frames + [f])) == Size(Bodies(frames)) + |f.payload.data|
  {
    var longer := Bodies(frames + [f]);
    assert longer == Bodies(frames) + [f.payload.data];
    assert longer[..|longer| - 1] == Bodies(frames);
  }

  lemma ChunkKeepsInvariant(
    installation: string, frames: seq<RelayFrame>, clock: seq<Instant>, agent: Agent, sent: seq<NodeFrame>,
      f: RelayFrame, now: Instant)
    requires AgentInvariant(installation, frames, clock, agent, sent) && AcceptsChunk(agent, f)
    requires ValidRelayFrame(f, installation, agent.request)
    ensures var next := Serving(agent.request, agent.total + |f.payload.data|, NextSequence(agent.expected));
            var answer := Reply(agent.request.value, ResponseChunk(f.payload.data, f.payload.sequence));
            AgentInvariant(installation, frames + [f], clock + [now], next, sent + [answer])
  {
    BegunExtends(installation, frames, clock, f, now);
    ChunksGrow(installation, frames[1], frames[2..], f, sent, (frames + [f])[2..]);
    SequencesStep(|frames| - 2);
  }

  lemma ChunksGrow(installation: string, request: RelayFrame, chunks: seq<RelayFrame>, f: RelayFrame,
      sent: seq<NodeFrame>, longer: seq<RelayFrame>)
    requires ChunksInOrder(chunks) && Correlated(installation, request, chunks) && longer == chunks + [f]
    requires sent == [AgentHello(installation)] + Echoes(request, chunks)
    requires ValidRelayFrame(f, installation, Some(request)) && f.payload.RequestChunk?
    requires f.payload.sequence == SequenceOf(|chunks|) && |f.payload.data| <= MAX_CHUNK
    requires Size(Bodies(chunks)) + |f.payload.data| <= MAX_REQUEST
    ensures ChunksInOrder(longer) && Correlated(installation, request, longer)
    ensures Size(Bodies(longer)) == Size(Bodies(chunks)) + |f.payload.data|
    ensures sent + [Reply(request, ResponseChunk(f.payload.data, f.payload.sequence))]
            == [AgentHello(installation)] + Echoes(request, longer)
  {
    EchoesGrow(request, chunks, f);
  }

  lemma EndIsLawful(
    installation: string, frames: seq<RelayFrame>, clock: seq<Instant>, agent: Agent, sent: seq<NodeFrame>,
      f: RelayFrame, now: Instant, last: NodeFrame)
    requires AgentInvariant(installation, frames, clock, agent, sent) && agent.Serving? && agent.request.Some?
    requires Terminates(installation, agent.request.value, f, last)
    ensures Lawful(installation, frames + [f], clock + [now], sent + [last])
  {
    var longer, n := frames + [f], |frames| - 2;
    assert longer[2..2 + n] == frames[2..] && longer[1] == frames[1] && longer[2 + n] == f;
    assert LawfulWith(installation, longer, clock + [now], sent + [last], n, [last]);
  }

  lemma StartKeepsInvariant(
    installation: string, frames: seq<RelayFrame>, clock: seq<Instant>, agent: Agent, sent: seq<NodeFrame>,
      f: RelayFrame, now: Instant)
    requires |clock| == |frames| && AgentInvariant(installation, frames, clock, agent, sent) && agent.Serving?
             && agent.request.None?
    requires ValidRelayFrame(f, installation, None) && AcceptsStart(f, now)
    ensures AgentInvariant(installation, frames + [f], clock + [now], agent.(request := Some(f)),
            sent + [Reply(f, ResponseStart(200, OCTETS))])
  {
    var longer := frames + [f];
    assert longer[2..] == [] && longer[1] == f && longer[0] == frames[0] && (clock + [now])[1] == now;
    assert Bodies(longer[2..]) == [];
    assert sent + [Reply(f, ResponseStart(200, OCTETS))] == [AgentHello(installation)] + Echoes(f, []);
  }

  /** The shapes a serving agent's step can take. */
  predicate ServingStep(agent: Agent, f: RelayFrame, installation: string, now: Instant, next: Agent,
      answer: seq<NodeFrame>)
    requires agent.Serving?
  {
    || (next == Broken && answer == [])
    || (agent.request.None? && ValidRelayFrame(f, installation, None) && AcceptsStart(f, now)
        && next == agent.(request := Some(f)) && answer == [Reply(f, ResponseStart(200, OCTETS))])
    || (AcceptsChunk(agent, f) && ValidRelayFrame(f, installation, agent.request)
        && next == Serving(agent.request, agent.total + |f.payload.data|, NextSequence(agent.expected))
        && answer == [Reply(agent.request.value, ResponseChunk(f.payload.data, f.payload.sequence))])
    || (next == Finished && agent.request.Some? && |answer| == 1
         && Terminates(installation, agent.request.value, f, answer[0]))
  }

  lemma ServingSteps(agent: Agent, f: RelayFrame, installation: string, now: Instant)
    requires agent.Serving?
    ensures var (next, answer) := AgentStep(agent, f, installation, now);
            ServingStep(agent, f, installation, now, next, answer)
  {
  }

  lemma ServingKeepsInvariant(
    installation: string, frames: seq<RelayFrame>, clock: seq<Instant>, agent: Agent, sent: seq<NodeFrame>,
    f: RelayFrame, now: Instant, next: Agent, answer: seq<NodeFrame>)
    requires |clock| == |frames| && AgentInvariant(installation, frames, clock, agent, sent) && agent.Serving?
    requires ServingStep(agent, f, installation, now, next, answer)
    ensures AgentInvariant(installation, frames + [f], clock + [now], next, sent + answer)
  {
    if next == Broken {
      StandingIsLawful(installation, frames, clock, agent, sent);
      LawfulExtends(installation, frames, clock, f, now, sent);
      assert sent + answer == sent;
    } else if next == Finished {
      EndIsLawful(installation, frames, clock, agent, sent, f, now, answer[0]);
      assert answer == [answer[0]];
    } else if agent.request.None? {
      StartKeepsInvariant(installation, frames, clock, agent, sent, f, now);
    } else {
      ChunkKeepsInvariant(installation, frames, clock, agent, sent, f, now);
    }
  }

  lemma StepKeepsInvariant(
    installation: string, frames: seq<RelayFrame>, clock: seq<Instant>, agent: Agent, sent: seq<NodeFrame>,
      f: RelayFrame, now: Instant)
    requires |clock| == |frames| && AgentInvariant(installation, frames, clock, agent, sent)
    ensures var (next, answer) := AgentStep(agent, f, installation, now);
            AgentInvariant(installation, frames + [f], clock + [now], next, sent + answer)
  {
    var (next, answer) := AgentStep(agent, f, installation, now);
    if agent.Serving? {
      ServingSteps(agent, f, installation, now);
      ServingKeepsInvariant(installation, frames, clock, agent, sent, f, now, next, answer);
    } else {
      assert sent + answer == sent;
      if !agent.Greeting? { LawfulExtends(installation, frames, clock, f, now, sent); }
    }
  }

  /** Whatever arrives, the agent sends hello, and more only after a valid greeting and an acceptable request in time:
      one response start, an in-order echo of the chunks that follow, together at most 1 MiB, and at most one
      terminator, which answers the frame right after them with its own code, all under the request's correlation. */
  lemma {:induction false} AgentIsSafe(installation: string, frames: seq<RelayFrame>, clock: seq<Instant>)
    requires |clock| == |frames|
    ensures Lawful(installation, frames, clock, AgentRun(installation, frames, clock).1)
    ensures AgentInvariant(installation, frames, clock, AgentRun(installation, frames, clock).0,
            AgentRun(installation, frames, clock).1)
    decreases |frames|
  {
    if frames != [] {
      var n := |frames| - 1;
      AgentIsSafe(installation, frames[..n], clock[..n]);
      var (agent, sent) := AgentRun(installation, frames[..n], clock[..n]);
      StepKeepsInvariant(installation, frames[..n], clock[..n], agent, sent, frames[n], clock[n]);
      assert frames[..n] + [frames[n]] == frames && clock[..n] + [clock[n]] == clock;
    }
    StandingIsLawful(installation, frames, clock, AgentRun(installation, frames, clock).0,
      AgentRun(installation, frames, clock).1);
  }

  // ---------------------------------------------------------------- the receive loop

  /** Serves one probe over the frames the stream delivers before it ends. A bad identifier sends nothing; running
      out of frames is an error. */
  method ServeProbe(installation: string, incoming: seq<RelayFrame>, clock: seq<Instant>)
      returns (ok: bool, sent: seq<NodeFrame>)
    requires |clock| == |incoming|
    ensures !ValidUuid7(installation) ==> !ok && sent == []
    ensures ValidUuid7(installation) ==>
              && sent == AgentRun(installation, incoming, clock).1
              && (ok <==> AgentRun(installation, incoming, clock).0.Finished?)
              && Lawful(installation, incoming, clock, sent)
  {
    if !ValidUuid7(installation) { return false, []; }
    ok, sent := Serve(installation, incoming, clock);
    AgentIsSafe(installation, incoming, clock);
  }

  method Serve(installation: string, incoming: seq<RelayFrame>, clock: seq<Instant>)
      returns (ok: bool, sent: seq<NodeFrame>)
    requires |clock| == |incoming|
    ensures sent == AgentRun(installation, incoming, clock).1
    ensures ok <==> AgentRun(installation, incoming, clock).0.Finished?
  {
    sent := [AgentHello(installation)];
    ok := false;
    if incoming == [] { return; }
    FirstStep(installation, incoming, clock);
    if !ValidRelayHello(incoming[0], installation) {
      StopsAt(installation, incoming, clock, 1);
      return;
    }
    var request: Option<RelayFrame>, total: nat, expected: nat := None, 0, 1;
    for i := 1 to |incoming|
      invariant AgentRun(installation, incoming[..i], clock[..i]) == (Serving(request, total, expected), sent)
    {
      RunUnfolds(installation, incoming, clock, i);
      var alive, request', total', expected', answer :=
          Answer(installation, incoming[i], clock[i], request, total, expected);
      sent := sent + answer;
      if !alive {
        ok := answer != [];
        StopsAt(installation, incoming, clock, i + 1);
        return;
      }
      request, total, expected := request', total', expected';
    }
    assert incoming[..|incoming|] == incoming && clock[..|incoming|] == clock;
  }

  lemma FirstStep(installation: string, incoming: seq<RelayFrame>, clock: seq<Instant>)
    requires |clock| == |incoming| && incoming != []
    ensures AgentRun(installation, incoming[..1], clock[..1])
            == (if ValidRelayHello(incoming[0], installation) then Serving(None, 0, 1)
              else Broken, [AgentHello(installation)])
  {
    assert incoming[..1][..0] == [] && clock[..1][..0] == [];
    assert AgentRun(installation, [], []) == (Greeting, [AgentHello(installation)]);
    assert [AgentHello(installation)] + [] == [AgentHello(installation)];
  }

  lemma RunUnfolds(installation: string, incoming: seq<RelayFrame>, clock: seq<Instant>, i: nat)
    requires |clock| == |incoming| && i < |incoming|
    ensures var (agent, sent) := AgentRun(installation, incoming[..i], clock[..i]);
            var (next, answer) := AgentStep(agent, incoming[i], installation, clock[i]);
            AgentRun(installation, incoming[..i + 1], clock[..i + 1]) == (next, sent + answer)
  {
    assert incoming[..i + 1][..i] == incoming[..i] && clock[..i + 1][..i] == clock[..i];
  }

  /** One turn of the loop: the updated variables and the frames to send. A turn that ends the loop well sends its
      terminator; one that fails sends nothing. */
  method Answer(installation: string, f: RelayFrame, now: Instant, request: Option<RelayFrame>, total: nat,
      expected: nat)
    returns (alive: bool, request': Option<RelayFrame>, total': nat, expected': nat, answer: seq<NodeFrame>)
    ensures alive ==>
              AgentStep(Serving(request, total, expected), f, installation, now)
              == (Serving(request', total', expected'), answer)
    ensures !alive ==>
              AgentStep(Serving(request, total, expected), f, installation, now)
              == (if answer == [] then Broken else Finished, answer)
  {
    alive, request', total', expected', answer := false, request, total, expected, [];
    if !ValidRelayFrame(f, installation, request) { return; }
    match f.payload {
      case RequestStart(_, _, _, _) =>
        if request.Some? || !AcceptsStart(f, now) { return; }
        request' := Some(f);
        answer := [Reply(f, ResponseStart(200, OCTETS))];
        alive := true;
      case RequestChunk(data, sequence) =>
        if request.None? || sequence != expected || |data| > MAX_CHUNK || total + |data| > MAX_REQUEST { return; }
        expected' := NextSequence(expected);
        total' := total + |data|;
        answer := [Reply(request.value, ResponseChunk(data, sequence))];
        alive := true;
      case RequestEnd =>
        if request.Some? { answer := [Reply(request.value, ResponseEnd)]; }
      case RequestCancelled(code, reason) =>
        if request.Some? && reason == "" && ValidCode(code) {
          answer := [Reply(request.value, ResponseCancelled(code, ""))];
        }
      case _ =>
    }
  }

  /** A finished or broken agent ignores what follows. */
  lemma {:induction false} StopsAt(installation: string, frames: seq<RelayFrame>, clock: seq<Instant>, n: nat)
    requires |clock| == |frames| && n <= |frames|
    requires var agent := AgentRun(installation, frames[..n], clock[..n]).0; agent.Finished? || agent.Broken?
    ensures AgentRun(installation, frames, clock) == AgentRun(installation, frames[..n], clock[..n])
    decreases |frames| - n
  {
    if n == |frames| {
      assert frames[..n] == frames && clock[..n] == clock;
    } else {
      var (agent, sent) := AgentRun(installation, frames[..n], clock[..n]);
      assert frames[..n + 1][..n] == frames[..n] && clock[..n + 1][..n] == clock[..n];
      assert sent + [] == sent;
      StopsAt(installation, frames, clock, n + 1);
    }
  }
}
