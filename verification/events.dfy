/** The records the helper writes to standard output, one JSON object per
    line. The timestamp is not modelled, and the `data` string (JSON text
    nested inside the record) is modelled by the payload it encodes. */
module Events {
  import opened Wrappers

  const PressType: string := "KeyPress"
  const ReleaseType: string := "KeyRelease"
  const ErrorType: string := "Error"

  /** What the nested `data` string encodes: `{"key": ...}` for key events,
      `{"error": ..., "message": ...}` for error events. */
  datatype Payload =
    | KeyPayload(key: string)
    | ErrorPayload(error: string, message: string)

  /** One output record: its `event_type`, `name` and `data` fields. */
  datatype Record = Record(eventType: string, name: Option<string>, data: Payload)

  function KeyRecord(eventType: string, keyName: string): Record {
    Record(eventType, Some(keyName), KeyPayload(keyName))
  }

  function ErrorRecord(kind: string, message: string): Record {
    Record(ErrorType, Some(kind), ErrorPayload(kind, message))
  }

  /** A key record: a press or a release whose `name` and `data` key agree. */
  predicate IsKeyRecord(r: Record) {
    && (r.eventType == PressType || r.eventType == ReleaseType)
    && r.name.Some?
    && r.data == KeyPayload(r.name.value)
  }
}
