/**
 * The browser's localStorage, as a map from key to a typed value (one value
 * shape per key the core writes) instead of JSON text.
 */
module Storage {
  import opened ChatMessages

  datatype Blob =
    | Text(text: string)          // a plain string value, e.g. 'tourCompleted' -> 'true'
    | Transcript(log: seq<Message>) // the serialised chat history under 'chatMessages'

  class LocalStorage {
    var entries: map<string, Blob>

    constructor (initial: map<string, Blob>)
      ensures entries == initial
    {
      entries := initial;
    }

    /** `localStorage.setItem(key, value)`. */
    method SetItem(key: string, value: Blob)
      modifies this
      ensures entries == old(entries)[key := value]
    {
      entries := entries[key := value];
    }

    /** `localStorage.removeItem(key)`: removing an absent key is a no-op. */
    method RemoveItem(key: string)
      modifies this
      ensures entries == old(entries) - {key}
    {
      entries := entries - {key};
    }
  }
}
