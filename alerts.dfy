/**
 * The alert record the plugin receives from the alert store, and the ways
 * handling one can fail in the model.
 */
module Alerts {

  /** A snapshot of an alert's fields. */
  datatype AlertData = AlertData(
    id: string,
    event: string,
    resource: string,
    origin: string,
    severity: string,
    status: string,
    environment: string,
    service: seq<string>,
    tags: seq<string>,
    attributes: map<string, string>,
    text: string,
    value: string,
    repeat: bool)

  /** The alert object: `pre_receive` updates its fields in place. */
  class Alert {
    var id: string
    var event: string
    var resource: string
    var origin: string
    var severity: string
    var status: string
    var environment: string
    var service: seq<string>
    var tags: seq<string>
    var attributes: map<string, string>
    var text: string
    var value: string
    var repeat: bool

    function Snapshot(): AlertData
      reads this
    {
      AlertData(id, event, resource, origin, severity, status, environment,
                service, tags, attributes, text, value, repeat)
    }
  }

  /**
   * The two exceptions the plugin's code raises, and one limit of the model: the
   * plugin raises nothing for `UnparsedLink`, whose input the model leaves open.
   */
  datatype Error =
    | TagUnpack(tag: string)      // `k, v = tag.split('=')` on a tag with two or more '='
    | NoService                   // `alert.service[0]` on an empty service list
    | UnparsedLink(html: string)  // a dashboard attribute outside the HTML this model parses
}
