/**
 * The message collection written by `saveMessage` (services/message.js):
 * an append-only log of records.
 */
module MessageStore {
  import opened Wrappers

  /**
   * One stored message. `role` is free text (the schema of services/message.js
   * does not constrain it); `sentiment` is absent on records written by
   * `saveMessage`, whose schema has no such field, but may be present on
   * records written through the richer schema of services/models/Message.js.
   */
  datatype Record = Record(phone: string, role: string, content: string, sentiment: Option<string>, timestamp: int)

  class MessageLog {
    var records: seq<Record>

    /** A handle on the collection behind the `Message` model, holding whatever `existing` records it already has. */
    constructor (existing: seq<Record>)
      ensures records == existing
    {
      records := existing;
    }

    /**
     * `saveMessage(phone, role, content)`: appends exactly one record whose
     * timestamp is the creation time `now`; earlier records are untouched and
     * any role is accepted.
     */
    method SaveMessage(phone: string, role: string, content: string, now: int)
      modifies this
      ensures records == old(records) + [Record(phone, role, content, None, now)]
      ensures |records| == |old(records)| + 1
    {
      records := records + [Record(phone, role, content, None, now)];
    }
  }
}
