/** The interchain messaging vocabulary the relayer moves around. Hashes, proofs and signatures
    are opaque bytes; hashing is a parameter wherever it is needed. */
module Ismp {
  import opened Prelude

  newtype byte = b: int | 0 <= b < 256

  type Bytes = seq<byte>

  type H256 = h: seq<byte> | |h| == 32 witness seq(32, _ => 0)

  datatype StateMachine =
    | Evm(id: nat)
    | Polkadot(id: nat)
    | Kusama(id: nat)
    | Substrate(name: Bytes)
    | Tendermint(name: Bytes)

  datatype StateMachineId = StateMachineId(stateId: StateMachine, consensusStateId: Bytes)

  datatype StateMachineHeight = StateMachineHeight(id: StateMachineId, height: nat)

  datatype PostRequest = PostRequest(
    source: StateMachine,
    dest: StateMachine,
    nonce: nat,
    from: Bytes,
    to: Bytes,
    timeout: nat,
    body: Bytes)

  datatype PostResponse = PostResponse(post: PostRequest, response: Bytes, timeout: nat)

  datatype GetRequest = GetRequest(
    source: StateMachine,
    dest: StateMachine,
    nonce: nat,
    height: nat,
    keys: seq<Bytes>,
    timeout: nat)

  datatype Proof = Proof(height: StateMachineHeight, proof: Bytes)

  /** The two application messages the relayer carries, each possibly holding a batch. */
  datatype Message =
    | Request(requests: seq<PostRequest>, proof: Proof, signer: Bytes)
    | Response(responses: seq<PostResponse>, proof: Proof, signer: Bytes)

  /** What a proof or a receipt is looked up by. */
  datatype Query = Query(source: StateMachine, dest: StateMachine, nonce: nat, commitment: H256)

  /** `get_timeout`: a zero timeout never expires (2^64 - 1 seconds). */
  function TimeoutOf(timeout: nat): nat { if timeout == 0 then U64_LIMIT - 1 else timeout }

  predicate TimedOut(timeout: nat, now: nat) { now >= TimeoutOf(timeout) }
}
