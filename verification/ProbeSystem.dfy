/** Relay and agent joined by two unbounded first-in-first-out channels, interleaved in any order. */
module ProbeSystem {
  import opened Domain
  import opened Enrollment
  import opened ProbeFrames
  import opened ProbeAgent
  import opened ProbeRelay

  /** `script` is what the relay will send once greeted and `pending` the part of it not sent yet; the relay
      reads no response before that is empty. */
  datatype System = System(
    agent: Agent, relay: Relay, script: seq<RelayFrame>, pending: seq<RelayFrame>, toAgent: seq<RelayFrame>,
      toRelay: seq<NodeFrame>)

  datatype Action = RelaySends | RelayReads | AgentReads(now: Instant)

  datatype Setup = Setup(installation: string, mode: Mode, deadline: int)

  function Initial(setup: Setup): System {
    System(Greeting, AwaitingHello, Script(setup.installation, setup.mode, setup.deadline), [], [],
      [AgentHello(setup.installation)])
  }

  /** The agent's clock is inside the deadline window when it reads the request; at every other read it may be
      anywhere. */
  predicate Enabled(setup: Setup, s: System, action: Action) {
    match action
    case RelaySends => s.pending != []
    case RelayReads => s.pending == [] && s.toRelay != [] && (s.relay.AwaitingHello? || s.relay.Reading?)
    case AgentReads(now) =>
      && s.toAgent != [] && (s.agent.Greeting? || s.agent.Serving?)
      && (s.toAgent[0].payload.RequestStart? ==> InWindow(setup.deadline, now))
  }

  function Step(setup: Setup, s: System, action: Action): System
    requires Enabled(setup, s, action)
  {
    match action
    case RelaySends => s.(pending := s.pending[1..], toAgent := s.toAgent + [s.pending[0]])
    case RelayReads =>
      var next := RelayStep(s.relay, s.toRelay[0], setup.installation, setup.mode);
      s.(relay := next, toRelay := s.toRelay[1..],
         pending := if s.relay.AwaitingHello? && next.Reading? then s.script else s.pending)
    case AgentReads(now) =>
      var (next, answer) := AgentStep(s.agent, s.toAgent[0], setup.installation, now);
      s.(agent := next, toAgent := s.toAgent[1..], toRelay := s.toRelay + answer)
  }

  /** A run: every action is enabled where it happens. */
  ghost predicate Runs(setup: Setup, s: System, actions: seq<Action>, end: System)
    decreases |actions|
  {
    if actions == [] then s == end
    else Enabled(setup, s, actions[0]) && Runs(setup, Step(setup, s, actions[0]), actions[1..], end)
  }

  // ---------------------------------------------------------------- both sides as functions of what they have read

  function RequestOf(setup: Setup): RelayFrame {
    RequestFrame(setup.installation, RequestStart(METHOD, PATH, map[], setup.deadline))
  }

  /** Everything the agent sends over a whole run. */
  function Replies(setup: Setup): seq<NodeFrame> {
    [AgentHello(setup.installation), Reply(RequestOf(setup), ResponseStart(200, OCTETS))]
    + match setup.mode
      case Echo(chunks) =>
        seq(|chunks|, i requires 0 <= i < |chunks| => Reply(RequestOf(setup), ResponseChunk(chunks[i], SequenceOf(i))))
        + [Reply(RequestOf(setup), ResponseEnd)]
      case Cancel(code) => [Reply(RequestOf(setup), ResponseCancelled(code, ""))]
  }

  function Body(mode: Mode): seq<seq<Byte>> {
    match mode
    case Echo(chunks) => chunks
    case Cancel(_) => []
  }

  function Length(setup: Setup): nat {
    |Body(setup.mode)| + 3
  }

  /** The agent after reading the first `i` frames of the script. */
  function AgentAt(setup: Setup, i: nat): Agent
    requires i <= Length(setup)
  {
    if i == 0 then Greeting
    else if i == 1 then Serving(None, 0, SequenceOf(0))
    else if i < Length(setup) then Serving(Some(RequestOf(setup)), Size(Body(setup.mode)[..i - 2]), SequenceOf(i - 2))
    else Finished
  }

  function Partial(setup: Setup, n: nat): Result
    requires n <= |Body(setup.mode)|
  {
    Result(200, Concat(Body(setup.mode)[..n]), n, false, 0)
  }

  /** The result every completed run returns. */
  function Outcome(setup: Setup): Result {
    match setup.mode
    case Echo(chunks) => Result(200, Concat(chunks), |chunks|, false, 0)
    case Cancel(code) => Result(200, [], 0, true, code)
  }

  /** The relay after reading the first `k` replies. */
  function RelayAt(setup: Setup, k: nat): Relay
    requires k <= Length(setup)
  {
    if k == 0 then AwaitingHello
    else if k == 1 then Reading(false, SequenceOf(0), NO_RESULT)
    else if k < Length(setup) then Reading(true, SequenceOf(k - 2), Partial(setup, k - 2))
    else Succeeded(Outcome(setup))
  }

  /** The two frame sequences, frame by frame. */
  ghost predicate Transcripts(setup: Setup, script: seq<RelayFrame>, replies: seq<NodeFrame>) {
    && |script| == Length(setup) && |replies| == Length(setup)
    && script[0] == RelayGreeting(setup.installation) && script[1] == RequestOf(setup)
    && (forall i :: 2 <= i < Length(setup) - 1 ==>
          script[i] == RequestFrame(setup.installation, RequestChunk(Body(setup.mode)[i - 2], SequenceOf(i - 2))))
    && script[Length(setup) - 1] == LastFrame(setup)
    && replies[0] == AgentHello(setup.installation)
    && replies[1] == Reply(RequestOf(setup), ResponseStart(200, OCTETS))
    && (forall i :: 2 <= i < Length(setup) - 1 ==>
          replies[i] == Reply(RequestOf(setup), ResponseChunk(Body(setup.mode)[i - 2], SequenceOf(i - 2))))
    && replies[Length(setup) - 1] == LastReply(setup)
  }

  lemma AreTranscripts(setup: Setup)
    ensures Transcripts(setup, Script(setup.installation, setup.mode, setup.deadline), Replies(setup))
  {
  }

  lemma ProbeIdsAreUuids()
    ensures ValidUuid7(REQUEST_ID) && ValidUuid7(TRACE_ID)
  {
  }

  /** How many frames the agent has sent after reading `i`. */
  function Sent(i: nat): nat {
    if i == 0 then 1 else i
  }

  lemma Prefixes(body: seq<seq<Byte>>, n: nat)
    requires n < |body|
    ensures Size(body[..n + 1]) == Size(body[..n]) + |body[n]|
    ensures Concat(body[..n + 1]) == Concat(body[..n]) + body[n]
  {
    assert body[..n + 1][..n] == body[..n];
  }

  lemma BodyFits(setup: Setup, n: nat)
    requires ValidProbe(setup.installation, setup.mode) && n <= |Body(setup.mode)|
    ensures Size(Body(setup.mode)[..n]) <= MAX_REQUEST && |Concat(Body(setup.mode)[..n])| <= MAX_REQUEST
    ensures n < |Body(setup.mode)| ==> |Body(setup.mode)[n]| <= MAX_CHUNK
  {
    SizeGrows(Body(setup.mode), n);
    ConcatSize(Body(setup.mode)[..n]);
  }

  lemma AgentGreets(setup: Setup, now: Instant)
    ensures AgentStep(AgentAt(setup, 0), RelayGreeting(setup.installation), setup.installation, now)
            == (AgentAt(setup, 1), [])
  {
  }

  lemma AgentStarts(setup: Setup, now: Instant)
    requires ValidProbe(setup.installation, setup.mode) && InWindow(setup.deadline, now)
    ensures AgentStep(AgentAt(setup, 1), RequestOf(setup), setup.installation, now)
            == (AgentAt(setup, 2), [Reply(RequestOf(setup), ResponseStart(200, OCTETS))])
  {
    ProbeIdsAreUuids();
    assert Body(setup.mode)[..0] == [];
  }

  /** Outside the deadline window the agent refuses the request: a run needs the window at the request start only. */
  lemma StartNeedsWindow(setup: Setup, now: Instant)
    requires ValidProbe(setup.installation, setup.mode)
    ensures AgentStep(AgentAt(setup, 1), RequestOf(setup), setup.installation, now).0.Serving? <==>
            InWindow(setup.deadline, now)
    ensures !InWindow(setup.deadline, now) ==>
            AgentStep(AgentAt(setup, 1), RequestOf(setup), setup.installation, now) == (Broken, [])
  {
    if InWindow(setup.deadline, now) { AgentStarts(setup, now); }
  }

  lemma AgentEchoes(setup: Setup, n: nat, now: Instant)
    requires ValidProbe(setup.installation, setup.mode) && n < |Body(setup.mode)|
    ensures AgentStep(AgentAt(setup, n + 2), RequestFrame(setup.installation,
            RequestChunk(Body(setup.mode)[n], SequenceOf(n))), setup.installation, now)
            == (AgentAt(setup, n + 3), [Reply(RequestOf(setup), ResponseChunk(Body(setup.mode)[n], SequenceOf(n)))])
  {
    ProbeIdsAreUuids();
    Prefixes(Body(setup.mode), n);
    BodyFits(setup, n);
    BodyFits(setup, n + 1);
    SequencesStep(n);
    EchoStep(RequestOf(setup), Size(Body(setup.mode)[..n]), Body(setup.mode)[n], n, setup.installation, now);
  }

  lemma EchoStep(request: RelayFrame, total: nat, data: seq<Byte>, n: nat, installation: string, now: Instant)
    requires request.version == VERSION && request.installation == installation && request.connection == CONNECTION_ID
    requires ValidUuid7(request.request) && ValidUuid7(request.trace)
    requires |data| <= MAX_CHUNK && total + |data| <= MAX_REQUEST
    ensures AgentStep(Serving(Some(request), total, SequenceOf(n)),
            request.(payload := RequestChunk(data, SequenceOf(n))), installation, now)
            == (Serving(Some(request), total + |data|, NextSequence(SequenceOf(n))),
              [Reply(request, ResponseChunk(data, SequenceOf(n)))])
  {
  }

  function LastFrame(setup: Setup): RelayFrame {
    RequestFrame(setup.installation, if setup.mode.Echo? then RequestEnd else RequestCancelled(setup.mode.code, ""))
  }

  function LastReply(setup: Setup): NodeFrame {
    Reply(RequestOf(setup), if setup.mode.Echo? then ResponseEnd else ResponseCancelled(setup.mode.code, ""))
  }

  lemma AgentEnds(setup: Setup, now: Instant)
    requires ValidProbe(setup.installation, setup.mode)
    ensures AgentStep(AgentAt(setup, Length(setup) - 1), LastFrame(setup), setup.installation, now)
            == (Finished, [LastReply(setup)])
  {
    ProbeIdsAreUuids();
  }

  /** The frame read and the frames answered at place `i`. */
  ghost predicate Exchange(setup: Setup, i: nat, f: RelayFrame, answer: seq<NodeFrame>)
    requires i < Length(setup)
  {
    if i == 0 then f == RelayGreeting(setup.installation) && answer == []
    else if i == 1 then f == RequestOf(setup) && answer == [Reply(RequestOf(setup), ResponseStart(200, OCTETS))]
    else if i < Length(setup) - 1 then
      && f == RequestFrame(setup.installation, RequestChunk(Body(setup.mode)[i - 2], SequenceOf(i - 2)))
      && answer == [Reply(RequestOf(setup), ResponseChunk(Body(setup.mode)[i - 2], SequenceOf(i - 2)))]
    else f == LastFrame(setup) && answer == [LastReply(setup)]
  }

  lemma ExchangeAt(setup: Setup, script: seq<RelayFrame>, replies: seq<NodeFrame>, i: nat)
    requires i < Length(setup) && Transcripts(setup, script, replies)
    ensures Exchange(setup, i, script[i], replies[Sent(i)..Sent(i + 1)])
  {
    assert i > 0 ==> replies[i..i + 1] == [replies[i]];
  }

  /** Reading the frame at place `i` takes the agent one place on and sends exactly its answer. */
  lemma AgentAdvances(setup: Setup, i: nat, f: RelayFrame, answer: seq<NodeFrame>, now: Instant)
    requires ValidProbe(setup.installation, setup.mode) && i < Length(setup)
             && (i == 1 ==> InWindow(setup.deadline, now))
    requires Exchange(setup, i, f, answer)
    ensures AgentStep(AgentAt(setup, i), f, setup.installation, now) == (AgentAt(setup, i + 1), answer)
  {
    if i == 0 { AgentGreets(setup, now); }
    else if i == 1 { AgentStarts(setup, now); }
    else if i < Length(setup) - 1 { AgentEchoes(setup, i - 2, now); }
    else { AgentEnds(setup, now); }
  }

  lemma RelayEchoes(setup: Setup, n: nat)
    requires ValidProbe(setup.installation, setup.mode) && n < |Body(setup.mode)|
    ensures RelayStep(RelayAt(setup, n + 2), Reply(RequestOf(setup), ResponseChunk(Body(setup.mode)[n], SequenceOf(n))),
            setup.installation, setup.mode)
            == RelayAt(setup, n + 3)
  {
    Prefixes(Body(setup.mode), n);
    BodyFits(setup, n);
    BodyFits(setup, n + 1);
    SequencesStep(n);
  }

  lemma RelayEnds(setup: Setup)
    requires ValidProbe(setup.installation, setup.mode)
    ensures RelayStep(RelayAt(setup, Length(setup) - 1), LastReply(setup), setup.installation, setup.mode)
            == Succeeded(Outcome(setup))
  {
    assert Body(setup.mode)[..|Body(setup.mode)|] == Body(setup.mode);
  }

  lemma RelayStarts(setup: Setup)
    ensures RelayStep(RelayAt(setup, 1), Reply(RequestOf(setup), ResponseStart(200, OCTETS)), setup.installation,
            setup.mode) == RelayAt(setup, 2)
  {
    assert Body(setup.mode)[..0] == [];
  }

  /** Reading the next reply takes the relay one place on. */
  lemma RelayAdvances(setup: Setup, script: seq<RelayFrame>, replies: seq<NodeFrame>, k: nat)
    requires ValidProbe(setup.installation, setup.mode) && k < Length(setup) && Transcripts(setup, script, replies)
    ensures RelayStep(RelayAt(setup, k), replies[k], setup.installation, setup.mode) == RelayAt(setup, k + 1)
  {
    if k == 1 { RelayStarts(setup); }
    else if 2 <= k < Length(setup) - 1 { RelayEchoes(setup, k - 2); }
    else if k == Length(setup) - 1 { RelayEnds(setup); }
  }

  // ---------------------------------------------------------------- every interleaving

  /** Agent and relay have read `i` and `k` frames and the relay has sent `j`: the channels hold exactly the
      frames in between. */
  ghost predicate At(setup: Setup, replies: seq<NodeFrame>, s: System, i: nat, j: nat, k: nat) {
    && Transcripts(setup, s.script, replies)
    && i <= j <= Length(setup) && k <= Sent(i) && k <= Length(setup)
    && s.agent == AgentAt(setup, i) && s.relay == RelayAt(setup, k)
    && s.toAgent == s.script[i..j]
    && s.toRelay == replies[k..Sent(i)]
    && (if k == 0 then j == 0 && s.pending == [] else s.pending == s.script[j..])
  }

  lemma InitialAt(setup: Setup)
    ensures At(setup, Replies(setup), Initial(setup), 0, 0, 0)
  {
    AreTranscripts(setup);
    assert Script(setup.installation, setup.mode, setup.deadline)[0..0] == [];
    assert Replies(setup)[0..1] == [AgentHello(setup.installation)];
  }

  lemma RelaySendsMoves(setup: Setup, replies: seq<NodeFrame>, s: System, i: nat, j: nat, k: nat)
    requires At(setup, replies, s, i, j, k) && s.pending != []
    ensures At(setup, replies, Step(setup, s, RelaySends), i, j + 1, k)
  {
    var script := s.script;
    assert script[j..][1..] == script[j + 1..] && script[j..][0] == script[j];
    assert script[i..j] + [script[j]] == script[i..j + 1];
  }

  lemma RelayReadsMoves(setup: Setup, replies: seq<NodeFrame>, s: System, i: nat, j: nat, k: nat)
    requires ValidProbe(setup.installation, setup.mode) && At(setup, replies, s, i, j, k)
             && Enabled(setup, s, RelayReads)
    ensures At(setup, replies, Step(setup, s, RelayReads), i, j, k + 1)
  {
    assert k < Length(setup);
    RelayAdvances(setup, s.script, replies, k);
    assert replies[k..Sent(i)][1..] == replies[k + 1..Sent(i)] && s.toRelay[0] == replies[k];
    assert s.script[0..] == s.script;
  }

  lemma AgentReadsMoves(setup: Setup, replies: seq<NodeFrame>, s: System, i: nat, j: nat, k: nat, now: Instant)
    requires ValidProbe(setup.installation, setup.mode) && At(setup, replies, s, i, j, k)
             && Enabled(setup, s, AgentReads(now))
    ensures At(setup, replies, Step(setup, s, AgentReads(now)), i + 1, j, k)
  {
    ExchangeAt(setup, s.script, replies, i);
    AgentAdvances(setup, i, s.script[i], replies[Sent(i)..Sent(i + 1)], now);
    assert s.script[i..j][1..] == s.script[i + 1..j] && s.toAgent[0] == s.script[i];
    assert replies[k..Sent(i)] + replies[Sent(i)..Sent(i + 1)] == replies[k..Sent(i + 1)];
  }

  /** Unless everything has been read, something can move. */
  lemma SomethingMoves(setup: Setup, replies: seq<NodeFrame>, s: System, i: nat, j: nat, k: nat, now: Instant)
    requires At(setup, replies, s, i, j, k) && InWindow(setup.deadline, now)
    ensures Enabled(setup, s, RelaySends) || Enabled(setup, s, RelayReads) || Enabled(setup, s, AgentReads(now))
            || (i == j == k == Length(setup))
  {
    if k == 0 {
      assert s.toRelay == replies[0..Sent(i)] && s.toRelay != [];
    } else if j < Length(setup) {
      assert s.pending != [];
    } else if i < j {
      assert s.toAgent != [];
    } else if k < Sent(i) {
      assert s.toRelay != [] && s.pending == [];
    }
  }

  /** Places reachable with `moves` moves in all. */
  ghost predicate Reached(setup: Setup, replies: seq<NodeFrame>, s: System, moves: nat) {
    exists i: nat, j: nat, k: nat :: i + j + k == moves && At(setup, replies, s, i, j, k)
  }

  /** Every enabled action moves one of the three counters on by one. */
  lemma StepMoves(setup: Setup, replies: seq<NodeFrame>, s: System, action: Action, next: System, moves: nat)
    requires ValidProbe(setup.installation, setup.mode) && Reached(setup, replies, s, moves)
    requires Enabled(setup, s, action) && next == Step(setup, s, action)
    ensures Reached(setup, replies, next, moves + 1)
  {
    var i: nat, j: nat, k: nat :| i + j + k == moves && At(setup, replies, s, i, j, k);
    match action {
      case RelaySends => RelaySendsMoves(setup, replies, s, i, j, k); assert At(setup, replies, next, i, j + 1, k);
      case RelayReads => RelayReadsMoves(setup, replies, s, i, j, k); assert At(setup, replies, next, i, j, k + 1);
      case AgentReads(now) => AgentReadsMoves(setup, replies, s, i, j, k, now);
        assert At(setup, replies, next, i + 1, j, k);
    }
  }

  /** A run of `m` actions makes `m` moves. */
  lemma {:induction false} RunsReach(setup: Setup, replies: seq<NodeFrame>, s: System, actions: seq<Action>,
      end: System, moves: nat)
    requires ValidProbe(setup.installation, setup.mode) && Reached(setup, replies, s, moves)
             && Runs(setup, s, actions, end)
    ensures Reached(setup, replies, end, moves + |actions|)
    decreases |actions|
  {
    if actions != [] {
      var next := Step(setup, s, actions[0]);
      StepMoves(setup, replies, s, actions[0], next, moves);
      RunsReach(setup, replies, next, actions[1..], end, moves + 1);
    }
  }

  lemma WhereverItStops(setup: Setup, replies: seq<NodeFrame>, s: System, moves: nat, now: Instant)
    requires Reached(setup, replies, s, moves) && InWindow(setup.deadline, now)
    ensures !s.agent.Broken? && !s.relay.Failed? && moves <= 3 * Length(setup)
    ensures (forall action :: !Enabled(setup, s, action)) ==> s.agent.Finished? && s.relay == Succeeded(Outcome(setup))
    ensures moves == 3 * Length(setup) ==> s.agent.Finished? && s.relay == Succeeded(Outcome(setup))
  {
    var i: nat, j: nat, k: nat :| i + j + k == moves && At(setup, replies, s, i, j, k);
    SomethingMoves(setup, replies, s, i, j, k, now);
  }

  /** The whole result. For every valid probe and every interleaving, with the agent's clock inside the deadline
      window when it reads the request: neither side ever fails, the run has at most three moves per frame, and when
      nothing more can happen the agent has finished and the relay has succeeded with exactly the echoed body and
      chunk count, or with the cancellation code and no body. */
  lemma ProbeSucceeds(setup: Setup, actions: seq<Action>, end: System, now: Instant)
    requires ValidProbe(setup.installation, setup.mode) && InWindow(setup.deadline, now)
    requires Runs(setup, Initial(setup), actions, end)
    ensures !end.agent.Broken? && !end.relay.Failed?
    ensures |actions| <= 3 * Length(setup)
    ensures (forall action :: !Enabled(setup, end, action)) ==>
            end.agent.Finished? && end.relay == Succeeded(Outcome(setup))
    ensures |actions| == 3 * Length(setup) ==> end.agent.Finished? && end.relay == Succeeded(Outcome(setup))
  {
    InitialAt(setup);
    assert Reached(setup, Replies(setup), Initial(setup), 0) by { assert 0 + 0 + 0 == 0; }
    RunsReach(setup, Replies(setup), Initial(setup), actions, end, 0);
    WhereverItStops(setup, Replies(setup), end, |actions|, now);
  }
}
