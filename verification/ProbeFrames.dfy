/** Frames of the two-party relay probe, its limits and its fixed identities. */
module ProbeFrames {
  import opened Domain
  import opened Enrollment

  type Byte = b: int | 0 <= b < 256

  const VERSION := "1"
  const METHOD := "POST"
  const PATH := "/relay/mcp"
  const CONNECTION_ID := "01890a5d-ac96-7b10-8000-000000000002"
  const REQUEST_ID := "01890a5d-ac96-7b10-8000-000000000003"
  const TRACE_ID := "01890a5d-ac96-7b10-8000-000000000004"
  const MAX_CHUNK := 64 * 1024
  const MAX_REQUEST := 1024 * 1024
  const MAX_RESPONSE := 8 * 1024 * 1024
  const REQUEST_LIFETIME := 5000
  const MAX_WINDOW := 120 * SECOND
  const MILLISECOND := 1_000_000
  const CAPABILITIES := ["mcp_streamable_http", "relay_assertion_jws", "bounded_multiplexing"]
  const OCTETS := map["content-type" := "application/octet-stream"]

  /** The limits both sides announce, field by field. */
  const LIMITS: seq<nat> := [
    70 * 1024, MAX_CHUNK, MAX_REQUEST, MAX_RESPONSE, 32, 64, 8 * 1024, 32 * 1024, 3, 32, 32, 1024, 8, 512 * 1024,
      4 * 1024 * 1024,
    10 * 1000, 120 * 1000, 15 * 1000, 30 * 1000]

  /** Sequence numbers are 64-bit and wrap. */
  const SEQUENCES := 0x1_0000_0000_0000_0000

  function SequenceOf(index: nat): nat {
    (index + 1) % SEQUENCES
  }

  function NextSequence(s: nat): nat {
    (s + 1) % SEQUENCES
  }

  lemma SequencesStep(index: nat)
    ensures NextSequence(SequenceOf(index)) == SequenceOf(index + 1)
  {
  }

  /** Cancellation codes in declaration order; 0 is unspecified. */
  const CLIENT_CLOSED := 1
  const CONNECTION_LOST := 6

  predicate ValidCode(code: int) {
    CLIENT_CLOSED <= code <= CONNECTION_LOST
  }

  datatype RelayPayload =
    | RelayHello(capabilities: seq<string>, limits: seq<nat>)
    | RequestStart(method_: string, path: string, headers: map<string, string>, deadline: int)
    | RequestChunk(data: seq<Byte>, sequence: nat)
    | RequestEnd
    | RequestCancelled(code: int, reason: string)
    | RelayOther

  datatype RelayFrame = RelayFrame(version: string, installation: string, connection: string, request: string,
      trace: string, payload: RelayPayload)

  datatype NodePayload =
    | NodeHello(capabilities: seq<string>, limits: seq<nat>)
    | ResponseStart(status: nat, headers: map<string, string>)
    | ResponseChunk(data: seq<Byte>, sequence: nat)
    | ResponseEnd
    | ResponseCancelled(code: int, reason: string)
    | NodeError(errorCode: int)
    | NodeOther

  datatype NodeFrame = NodeFrame(version: string, installation: string, connection: string, request: string,
      trace: string, payload: NodePayload)

  function Size(chunks: seq<seq<Byte>>): nat
    decreases |chunks|
  {
    if chunks == [] then 0 else Size(chunks[..|chunks| - 1]) + |chunks[|chunks| - 1]|
  }

  function Concat(chunks: seq<seq<Byte>>): seq<Byte>
    decreases |chunks|
  {
    if chunks == [] then [] else Concat(chunks[..|chunks| - 1]) + chunks[|chunks| - 1]
  }

  lemma {:induction false} ConcatSize(chunks: seq<seq<Byte>>)
    ensures |Concat(chunks)| == Size(chunks)
    decreases |chunks|
  {
    if chunks != [] { ConcatSize(chunks[..|chunks| - 1]); }
  }

  lemma {:induction false} SizeGrows(chunks: seq<seq<Byte>>, n: nat)
    requires n <= |chunks|
    ensures Size(chunks[..n]) <= Size(chunks)
    decreases |chunks| - n
  {
    if n < |chunks| {
      SizeGrows(chunks, n + 1);
      assert chunks[..n + 1][..n] == chunks[..n];
    } else {
      assert chunks[..n] == chunks;
    }
  }
}
