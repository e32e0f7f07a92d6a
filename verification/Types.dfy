/** The public vocabulary of the library: services, endpoints, timestamps and peers. */
module Types {

  datatype Option<+T> = None | Some(value: T)

  // Seconds since 1 January 2019, held in an unsigned 32-bit integer.
  type Timestamp = t: nat | t < 0x1_0000_0000

  // The implicit conversion of a C++ int to an unsigned 32-bit integer.
  function ToTimestamp(i: int): Timestamp {
    i % 0x1_0000_0000
  }

  // A client peer as it is announced to the application.
  datatype PeerInfo = PeerInfo(service: string, endpoint: string, lastSeen: Timestamp, isRemoved: bool)

  // What identifies a stored peer.
  datatype Key = Key(service: string, endpoint: string)
}
