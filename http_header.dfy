/** The part of net/http's Header both the websocket proxy and the transfer client use. */
module HttpHeader {

  /** Canonical header key to its list of values. */
  type Header = map<string, seq<string>>

  /** Header.Get on an already canonical key: the first value stored under it, or "" when
      there is none. */
  function Get(header: Header, key: string): (value: string)
    ensures value != "" ==> key in header && |header[key]| > 0 && value == header[key][0]
    ensures key in header && |header[key]| > 0 ==> value == header[key][0]
  {
    if key in header && |header[key]| > 0 then header[key][0] else ""
  }
}
