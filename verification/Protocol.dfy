/** The records of src/protocol.rs that cross module borders. Identifiers drawn at random are plain numbers here. */
module Protocol {
  import opened Wrappers

  type Uuid = nat

  const DEFAULT_ROOM_ID := "general"
  const DEFAULT_ROOM_NAME := "general"
  const MAX_PLAINTEXT_FRAME := 16 * 1024

  const U64_LIMIT := 0x1_0000_0000_0000_0000
  const I64_MAX := 0x7FFF_FFFF_FFFF_FFFF

  datatype RoomVisibility = Public | Private

  datatype GroupRole = Member | Admin

  datatype DirectInfo = DirectInfo(endpoint: string, fingerprint: string)

  datatype Peer = Peer(sessionId: Uuid, memberId: Uuid, nickname: string, direct: Option<DirectInfo>)

  datatype RoomSummary = RoomSummary(roomId: string, roomName: string, visibility: RoomVisibility)

  datatype ChatRecord = ChatRecord(
    sequence: nat,
    messageId: Uuid,
    sender: Peer,
    roomId: string,
    sentAtMs: nat,
    text: string)
}
