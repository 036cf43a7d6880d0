/** What the relay and the two pages share: the socket states, the single
    kind of WebSocket frame, the localStorage slot as the pages read it, and
    the text-stroke style both pages compute. */
module Protocol {
  import opened Values

  /** `WebSocket.readyState` */
  datatype ReadyState = Connecting | Open | Closing | Closed

  /** The only frame of the protocol, `{type: 'update', config}`, as
      `JSON.parse` hands it to the receiver. */
  function UpdateFrame(config: Value): (f: Value)
    ensures Get(f, "type") == Str("update") && Get(f, "config") == config
  {
    Obj(map["type" := Str("update"), "config" := config])
  }

  /** `data.type === 'update'`; false when reading `type` throws (null data). */
  predicate IsUpdate(data: Value) {
    Field(data, "type") == Some(Str("update"))
  }

  /** `localStorage.getItem(key)` followed by `JSON.parse`: `Absent` when the
      item is missing or empty (falsy), `Unparsable` when `JSON.parse`
      throws. */
  datatype Stored = Absent | Unparsable | Parsed(value: Value)

  /** `-webkit-text-stroke` / `text-stroke`: `unset`, or `<width>px <color>`
      built from the two values. */
  datatype Stroke = Unset | Stroked(width: Value, color: Value)
}
