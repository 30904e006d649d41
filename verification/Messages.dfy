/** Identifiers, sessions and the messages that travel between the threads. */
module Messages {
  import opened Wrappers
  import opened Bytes
  import opened Packets

  /** A connection id: the 32-bit counter value a connection was given. 0 is "none". */
  type ConnId = nat

  /** A slot of the ENet host's peer array; slots are reused. */
  type Peer = nat

  /** A session key. Memory set to zero is a key like any other. */
  type Key = seq<byte>

  const ZERO_KEY: Key := [0, 0, 0, 0, 0, 0, 0, 0, 0, 0, 0, 0, 0, 0, 0, 0, 0, 0, 0, 0, 0, 0, 0, 0, 0, 0, 0, 0, 0, 0, 0, 0]

  const TWO_32: nat := 0x1_0000_0000
  const TWO_64: nat := 0x1_0000_0000_0000_0000

  datatype AuthStatus = NoAuth | WaitingAuth | Valid | Invalid

  /** One client session. `allocations` counts the snapshot ids handed out; the two
      wire counters are its images modulo 2^32. */
  datatype Session = Session(
    id: ConnId,
    clientKey: seq<byte>, rxKey: Key, txKey: Key,
    auth: AuthStatus, authError: string,
    transport: bool, secure: bool, encrypted: bool, ready: bool,
    accountId: nat, username: string,
    latestInput: Option<InputPacket>, lastProcessed: bv32, pending: seq<InputPacket>,
    nextSnapshot: nat, lastSnapshot: nat, ackedSnapshot: bv32,
    allocations: nat)

  /** Network thread to simulation. */
  datatype InMsg =
    | ConnectMsg(id: ConnId)
    | DisconnectMsg(id: ConnId)
    | HelloMsg(id: ConnId, hello: HelloPacket)
    | AuthMsg(id: ConnId, token: seq<byte>)
    | ReadyMsg(id: ConnId)
    | InputMsg(id: ConnId, input: InputPacket)

  /** Simulation to HTTP thread, and back. */
  datatype Request = Request(id: ConnId, token: seq<byte>)
  datatype Verdict = Verdict(id: ConnId, valid: bool, accountId: nat, username: string, error: string)

  datatype OutKind = HelloResponseOut | AuthResponseOut | MatchInitOut | WorldInitOut | MatchStartOut | SnapshotOut | ClockSyncOut

  /** What a message for a client says; the byte layouts are in module Packets. */
  datatype Payload =
    | HelloReply(status: HelloStatus, nonceEcho: seq<byte>)
    | AuthReply(success: bool)
    | InitReply(tick: nat)
    | WorldReply
    | StartReply(tick: nat, startTick: nat, countdown: nat)
    | SnapshotReply(snapshotId: nat, tick: nat, lastInput: bv32)
    | ClockReply

  /** Simulation to network thread. */
  datatype OutMsg = OutMsg(kind: OutKind, id: ConnId, disconnectAfterAck: bool, enableEncryptionAfterAck: bool, payload: Payload)
}
