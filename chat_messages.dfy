/** The chat transcript's message record. Timestamps are not modelled. */
module ChatMessages {
  import opened Wrappers
  import opened Geo

  datatype Role = User | Assistant

  /**
   * One chat message. `image` is the data URL of an attached picture (user
   * messages only); `mapCenter` is a `[lat, lng]` pair.
   */
  datatype Message = Message(
    role: Role,
    content: string,
    mapUrl: Option<string>,
    mapMarkers: seq<Marker>,
    mapCenter: Option<(real, real)>,
    image: Option<string>)

  /** A message with no map and no image, the shape of every canned message. */
  function PlainMessage(role: Role, content: string): Message {
    Message(role, content, None, [], None, None)
  }
}
