/**
  The two browser effects the pages use: `navigate(path)` from the router,
  which changes the current location, and `alert(text)`, which shows a
  message. Both are recorded on a Window object.
*/
module Browser {

  import opened Js

  /**
    An alert's text: a fixed string, or a template literal
    `${prefix}${detail}` (the conversion of `detail` to text is not modelled).
  */
  datatype Alert = Plain(text: string) | Detailed(prefix: string, detail: Value)

  class Window {
    var location: string
    var alerts: seq<Alert>

    constructor (path: string)
      ensures location == path && alerts == []
    {
      location := path;
      alerts := [];
    }

    method Navigate(path: string)
      modifies this
      ensures location == path && alerts == old(alerts)
    {
      location := path;
    }

    method ShowAlert(a: Alert)
      modifies this
      ensures alerts == old(alerts) + [a] && location == old(location)
    {
      alerts := alerts + [a];
    }
  }
}
