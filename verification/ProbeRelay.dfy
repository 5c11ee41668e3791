/** The relay's side of the probe: validates the greeting, sends its whole script, then reads the response. */
module ProbeRelay {
  import opened Domain
  import opened Enrollment
  import opened ProbeFrames

  datatype Mode = Echo(chunks: seq<seq<Byte>>) | Cancel(code: int)

  datatype Result = Result(status: nat, body: seq<Byte>, chunks: nat, cancelled: bool, code: int)

  const NO_RESULT := Result(0, [], 0, false, 0)

  datatype Relay =
    | AwaitingHello
    | Reading(started: bool, sequence: nat, result: Result)
    | Succeeded(result: Result)
    | Failed

  /** The checks a probe is built with. */
  predicate ValidProbe(installation: string, mode: Mode) {
    && ValidUuid7(installation)
    && match mode
       case Echo(chunks) => |chunks| > 0 && (forall c :: c in chunks ==> |c| <= MAX_CHUNK)
         && Size(chunks) <= MAX_REQUEST
       case Cancel(code) => ValidCode(code)
  }

  /** Copies the chunks one by one, adding up their sizes; refuses at the first limit crossed. */
  method NewEchoProbe(installation: string, chunks: seq<seq<Byte>>) returns (mode: Option<Mode>)
    ensures mode.Some? <==> ValidProbe(installation, Echo(chunks))
    ensures mode.Some? ==> mode.value == Echo(chunks)
  {
    if !ValidUuid7(installation) || |chunks| == 0 { return None; }
    var copied, total := [], 0;
    for i := 0 to |chunks|
      invariant copied == chunks[..i] && total == Size(chunks[..i]) && total <= MAX_REQUEST
      invariant forall c :: c in chunks[..i] ==> |c| <= MAX_CHUNK
    {
      assert chunks[i] in chunks;
      if |chunks[i]| > MAX_CHUNK { return None; }
      total := total + |chunks[i]|;
      assert chunks[..i + 1][..i] == chunks[..i] && chunks[..i + 1] == chunks[..i] + [chunks[i]];
      if total > MAX_REQUEST {
        SizeGrows(chunks, i + 1);
        return None;
      }
      copied := copied + [chunks[i]];
    }
    assert chunks[..|chunks|] == chunks;
    return Some(Echo(copied));
  }

  predicate ValidNodeHello(f: NodeFrame, installation: string) {
    && f.payload.NodeHello?
    && f.version == VERSION && f.installation == installation
    && f.connection == CONNECTION_ID && f.request == "" && f.trace == ""
    && f.payload.capabilities == CAPABILITIES && f.payload.limits == LIMITS
  }

  function RelayGreeting(installation: string): RelayFrame {
    RelayFrame(VERSION, installation, CONNECTION_ID, "", "", RelayHello(CAPABILITIES, LIMITS))
  }

  function RequestFrame(installation: string, payload: RelayPayload): RelayFrame {
    RelayFrame(VERSION, installation, CONNECTION_ID, REQUEST_ID, TRACE_ID, payload)
  }

  function ChunkFrames(installation: string, chunks: seq<seq<Byte>>): seq<RelayFrame> {
    seq(|chunks|, i requires 0 <= i < |chunks| => RequestFrame(installation, RequestChunk(chunks[i], SequenceOf(i))))
  }

  /** Everything the relay sends once greeted, in order. */
  function Script(installation: string, mode: Mode, deadline: int): seq<RelayFrame> {
    [RelayGreeting(installation), RequestFrame(installation, RequestStart(METHOD, PATH, map[], deadline))]
    + match mode
      case Echo(chunks) => ChunkFrames(installation, chunks) + [RequestFrame(installation, RequestEnd)]
      case Cancel(code) => [RequestFrame(installation, RequestCancelled(code, ""))]
  }

  predicate Correlated(f: NodeFrame, installation: string) {
    f.version == VERSION && f.installation == installation && f.connection == CONNECTION_ID && f.request == REQUEST_ID
      && f.trace == TRACE_ID
  }

  /** One received frame. */
  function RelayStep(relay: Relay, f: NodeFrame, installation: string, mode: Mode): Relay {
    match relay
    case AwaitingHello => if ValidNodeHello(f, installation) then Reading(false, SequenceOf(0), NO_RESULT) else Failed
    case Reading(started, sequence, result) =>
      if !Correlated(f, installation) then Failed
      else (
        match f.payload
        case ResponseStart(status, headers) =>
          if started || status != 200 || headers != OCTETS then Failed
            else Reading(true, sequence, result.(status := status))
        case ResponseChunk(data, s) =>
          if !started || mode.Cancel? || s != sequence || |data| > MAX_CHUNK || |result.body| + |data| > MAX_RESPONSE
            then Failed
          else Reading(true, NextSequence(sequence), result.(body := result.body + data, chunks := result.chunks + 1))
        case ResponseEnd => if !started || mode.Cancel? then Failed else Succeeded(result)
        case ResponseCancelled(code, reason) =>
          if mode.Echo? || reason != "" || code != mode.code then Failed
            else Succeeded(result.(cancelled := true, code := code))
        case _ => Failed)
    case Succeeded(_) => relay
    case Failed => Failed
  }

  function RelayRun(installation: string, mode: Mode, frames: seq<NodeFrame>): Relay
    decreases |frames|
  {
    if frames == [] then AwaitingHello else RelayStep(RelayRun(installation, mode, frames[..|frames| - 1]),
      frames[|frames| - 1], installation, mode)
  }

  // ---------------------------------------------------------------- safety against any peer

  /** The data of the response chunks among the frames, in order. */
  function Received(frames: seq<NodeFrame>): seq<seq<Byte>>
    decreases |frames|
  {
    if frames == [] then []
    else
      var last := frames[|frames| - 1];
      Received(frames[..|frames| - 1]) + if last.payload.ResponseChunk? then [last.payload.data] else []
  }

  /** The chunk frames carry the numbers 1, 2, 3 and so on. */
  predicate Numbered(frames: seq<NodeFrame>)
    decreases |frames|
  {
    frames == [] ||
    (var init, last := frames[..|frames| - 1], frames[|frames| - 1];
     Numbered(init) && (last.payload.ResponseChunk? ==> last.payload.sequence == SequenceOf(|Received(init)|)))
  }

  ghost predicate ReadingInvariant(frames: seq<NodeFrame>, started: bool, sequence: nat, result: Result) {
    && Numbered(frames)
    && sequence == SequenceOf(|Received(frames)|)
    && result.body == Concat(Received(frames)) && result.chunks == |Received(frames)| && |result.body| <= MAX_RESPONSE
    && !result.cancelled && result.code == 0
    && result.status == (if started then 200 else 0)
    && (!started ==> Received(frames) == [])
  }

  lemma ReadingGrows(frames: seq<NodeFrame>, f: NodeFrame, sequence: nat, result: Result)
    requires ReadingInvariant(frames, true, sequence, result)
    requires f.payload.ResponseChunk? && f.payload.sequence == sequence
             && |result.body| + |f.payload.data| <= MAX_RESPONSE
    ensures ReadingInvariant(frames + [f], true, NextSequence(sequence),
            result.(body := result.body + f.payload.data, chunks := result.chunks + 1))
  {
    var longer := frames + [f];
    assert longer[..|longer| - 1] == frames;
    var chunks := Received(longer);
    assert chunks[..|chunks| - 1] == Received(frames);
    SequencesStep(|Received(frames)|);
  }

  lemma ReadingStays(frames: seq<NodeFrame>, f: NodeFrame)
    requires !f.payload.ResponseChunk?
    ensures Received(frames + [f]) == Received(frames)
    ensures Numbered(frames + [f]) == Numbered(frames)
  {
    var longer := frames + [f];
    assert longer[..|longer| - 1] == frames;
  }

  /** What a relay that has read `frames` knows: while reading, exactly the chunks so far; on success, that and
      the terminator of its mode as the last frame it read. */
  ghost predicate RelayInvariant(installation: string, mode: Mode, frames: seq<NodeFrame>, relay: Relay) {
    match relay
    case AwaitingHello => frames == []
    case Reading(started, sequence, result) => ReadingInvariant(frames, started, sequence, result)
      && (mode.Cancel? ==> Received(frames) == [])
    case Succeeded(result) => exists n: nat :: EndedAt(installation, mode, frames, result, n)
    case Failed => true
  }

  /** The response is the first `n` frames, chunks numbered from 1, and frame `n` ends it. */
  ghost predicate EndedAt(installation: string, mode: Mode, frames: seq<NodeFrame>, result: Result, n: nat) {
    && n < |frames|
    && Numbered(frames[..n])
    && result.body == Concat(Received(frames[..n])) && result.chunks == |Received(frames[..n])|
    && |result.body| <= MAX_RESPONSE
    && Correlated(frames[n], installation)
    && match mode
       case Echo(_) => frames[n].payload == ResponseEnd && result.status == 200 && !result.cancelled
       case Cancel(code) =>
         frames[n].payload == ResponseCancelled(code, "") && result.cancelled && result.code == code
         && result.body == []
  }

  lemma EndedExtends(installation: string, mode: Mode, frames: seq<NodeFrame>, f: NodeFrame, result: Result, n: nat)
    requires EndedAt(installation, mode, frames, result, n)
    ensures EndedAt(installation, mode, frames + [f], result, n)
  {
    assert (frames + [f])[..n] == frames[..n];
  }

  lemma EndsNow(installation: string, mode: Mode, frames: seq<NodeFrame>, f: NodeFrame, relay: Relay)
    requires relay.Reading? && RelayInvariant(installation, mode, frames, relay)
    requires RelayStep(relay, f, installation, mode).Succeeded?
    ensures EndedAt(installation, mode, frames + [f], RelayStep(relay, f, installation, mode).result, |frames|)
  {
    var longer := frames + [f];
    assert longer[..|frames|] == frames && longer[|frames|] == f;
  }

  lemma StepKeepsInvariant(installation: string, mode: Mode, frames: seq<NodeFrame>, relay: Relay, f: NodeFrame)
    requires RelayInvariant(installation, mode, frames, relay)
    ensures RelayInvariant(installation, mode, frames + [f], RelayStep(relay, f, installation, mode))
  {
    var next := RelayStep(relay, f, installation, mode);
    match relay {
      case AwaitingHello =>
        if next.Reading? { ReadingStays(frames, f); }
      case Reading(started, sequence, result) =>
        if next.Succeeded? {
          EndsNow(installation, mode, frames, f, relay);
        } else if next.Reading? {
          if f.payload.ResponseChunk? { ReadingGrows(frames, f, sequence, result); } else { ReadingStays(frames, f); }
        }
      case Succeeded(result) =>
        var n: nat :| EndedAt(installation, mode, frames, result, n);
        EndedExtends(installation, mode, frames, f, result, n);
      case Failed =>
    }
  }

  /** Whatever arrives, a relay that reports success read chunks numbered 1 to n, returns exactly their
      concatenation within 8 MiB, and stopped at the terminator of its mode. */
  lemma {:induction false} RelayIsSafe(installation: string, mode: Mode, frames: seq<NodeFrame>)
    ensures RelayInvariant(installation, mode, frames, RelayRun(installation, mode, frames))
    decreases |frames|
  {
    if frames != [] {
      var init, last := frames[..|frames| - 1], frames[|frames| - 1];
      RelayIsSafe(installation, mode, init);
      StepKeepsInvariant(installation, mode, init, RelayRun(installation, mode, init), last);
      assert init + [last] == frames;
    }
  }

  // ---------------------------------------------------------------- the connection handler

  /** Sends the script after a valid greeting and reads until the response ends or fails. */
  method Connect(installation: string, mode: Mode, incoming: seq<NodeFrame>, nowMillis: int)
      returns (ok: bool, result: Result, sent: seq<RelayFrame>)
    ensures ok <==> RelayRun(installation, mode, incoming).Succeeded?
    ensures ok ==> result == RelayRun(installation, mode, incoming).result
    ensures ok ==> exists n: nat :: EndedAt(installation, mode, incoming, result, n)
    ensures sent == if incoming != [] && ValidNodeHello(incoming[0], installation)
            then Script(installation, mode, nowMillis + REQUEST_LIFETIME) else []
  {
    ok, result, sent := false, NO_RESULT, [];
    if incoming == [] { return; }
    FirstStep(installation, mode, incoming);
    if !ValidNodeHello(incoming[0], installation) {
      StopsAt(installation, mode, incoming, 1);
      return;
    }
    sent := SendScript(installation, mode, nowMillis);
    RelayIsSafe(installation, mode, incoming);
    ok, result := ReadResponse(installation, mode, incoming);
  }

  lemma FirstStep(installation: string, mode: Mode, incoming: seq<NodeFrame>)
    requires incoming != []
    ensures RelayRun(installation, mode, incoming[..1])
            == if ValidNodeHello(incoming[0], installation) then Reading(false, 1, NO_RESULT) else Failed
  {
    assert incoming[..1][..0] == [];
    assert RelayRun(installation, mode, []) == AwaitingHello;
  }

  /** The receive loop. */
  method ReadResponse(installation: string, mode: Mode, incoming: seq<NodeFrame>) returns (ok: bool, result: Result)
    requires incoming != [] && RelayRun(installation, mode, incoming[..1]) == Reading(false, 1, NO_RESULT)
    ensures ok <==> RelayRun(installation, mode, incoming).Succeeded?
    ensures ok ==> result == RelayRun(installation, mode, incoming).result
  {
    var started, sequence := false, 1;
    ok, result := false, NO_RESULT;
    for i := 1 to |incoming|
      invariant RelayRun(installation, mode, incoming[..i]) == Reading(started, sequence, result)
    {
      assert incoming[..i + 1][..i] == incoming[..i];
      var alive, started', sequence', result' := ReadFrame(installation, mode, incoming[i], started, sequence, result);
      if alive.None? {
        StopsAt(installation, mode, incoming, i + 1);
        return false, result;
      }
      if !alive.value {
        StopsAt(installation, mode, incoming, i + 1);
        return true, result';
      }
      started, sequence, result := started', sequence', result';
    }
    assert incoming[..|incoming|] == incoming;
  }

  /** One turn of the loop: `None` fails, `Some(false)` ends the response, `Some(true)` goes on. */
  method ReadFrame(installation: string, mode: Mode, f: NodeFrame, started: bool, sequence: nat, result: Result)
    returns (alive: Option<bool>, started': bool, sequence': nat, result': Result)
    ensures RelayStep(Reading(started, sequence, result), f, installation, mode)
            == match alive
               case None => Failed
               case Some(more) => if more then Reading(started', sequence', result') else Succeeded(result')
  {
    started', sequence', result' := started, sequence, result;
    if !Correlated(f, installation) { return None, started', sequence', result'; }
    match f.payload {
      case ResponseStart(status, headers) =>
        if started || status != 200 || headers != OCTETS { return None, started', sequence', result'; }
        return Some(true), true, sequence', result.(status := status);
      case ResponseChunk(data, s) =>
        if !started || mode.Cancel? || s != sequence || |data| > MAX_CHUNK || |result.body| + |data| > MAX_RESPONSE {
          return None, started', sequence', result';
        }
        return Some(true), true, NextSequence(sequence),
            result.(body := result.body + data, chunks := result.chunks + 1);
      case ResponseEnd =>
        if !started || mode.Cancel? { return None, started', sequence', result'; }
        return Some(false), started', sequence', result';
      case ResponseCancelled(code, reason) =>
        if mode.Echo? || reason != "" || code != mode.code { return None, started', sequence', result'; }
        return Some(false), started', sequence', result.(cancelled := true, code := code);
      case _ =>
        return None, started', sequence', result';
    }
  }

  /** Greeting, request start, then the cancellation or the chunks and the end. */
  method SendScript(installation: string, mode: Mode, nowMillis: int) returns (sent: seq<RelayFrame>)
    ensures sent == Script(installation, mode, nowMillis + REQUEST_LIFETIME)
  {
    var deadline := nowMillis + REQUEST_LIFETIME;
    sent := [RelayGreeting(installation), RequestFrame(installation, RequestStart(METHOD, PATH, map[], deadline))];
    match mode {
      case Cancel(code) =>
        sent := sent + [RequestFrame(installation, RequestCancelled(code, ""))];
      case Echo(chunks) =>
        ghost var opening := sent;
        for i := 0 to |chunks|
          invariant sent == opening + ChunkFrames(installation, chunks[..i])
        {
          sent := sent + [RequestFrame(installation, RequestChunk(chunks[i], SequenceOf(i)))];
          assert ChunkFrames(installation, chunks[..i + 1])
                 == ChunkFrames(installation, chunks[..i])
                   + [RequestFrame(installation, RequestChunk(chunks[i], SequenceOf(i)))];
        }
        assert chunks[..|chunks|] == chunks;
        sent := sent + [RequestFrame(installation, RequestEnd)];
        assert sent == opening + (ChunkFrames(installation, chunks) + [RequestFrame(installation, RequestEnd)]);
    }
  }

  lemma {:induction false} StopsAt(installation: string, mode: Mode, frames: seq<NodeFrame>, n: nat)
    requires n <= |frames|
    requires var relay := RelayRun(installation, mode, frames[..n]); relay.Succeeded? || relay.Failed?
    ensures RelayRun(installation, mode, frames) == RelayRun(installation, mode, frames[..n])
    decreases |frames| - n
  {
    if n == |frames| {
      assert frames[..n] == frames;
    } else {
      assert frames[..n + 1][..n] == frames[..n];
      StopsAt(installation, mode, frames, n + 1);
    }
  }
}
