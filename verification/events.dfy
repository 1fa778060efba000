/** Entries on the order event bus and the events it delivers to subscribers. */
module Events {
  import opened Wrappers
  import opened Json

  const BusName := "ecommerce-bus-21-1-26"

  /** One `put_events` entry. The `Detail` text is kept as the value it
      serialises. */
  datatype Entry = Entry(source: string, detailType: string, detail: Value, busName: string)

  /** The event a subscriber receives for an entry: the bus's envelope with the
      entry's source, detail type and parsed detail. */
  function Deliver(e: Entry): (ev: Value)
    ensures ev.Obj? && Find(ev.fields, "detail") == Some(e.detail)
  {
    Obj([("source", Str(e.source)), ("detail-type", Str(e.detailType)), ("detail", e.detail)])
  }
}
