/** The log entry as a value: header fields, message and ordered properties. */
module Records {

  datatype Property = Property(key: string, value: string)

  datatype Record = Record(
    date: string,
    time: string,
    level: string,
    thread: string,
    cls: string,
    message: string,
    props: seq<Property>)

  const EMPTY_RECORD := Record("", "", "", "", "", "", [])

  const KEY_CALL_TYPE := "callType"
  const KEY_MESSAGE := "msg"

  /** The properties with a non-empty message as a last entry: what both writers print. */
  function Entries(l: Record): seq<Property> {
    l.props + (if l.message != "" then [Property(KEY_MESSAGE, l.message)] else [])
  }
}
