/**
 * What the provider's raw forecast answer looks like once the two foreign
 * parsers of the forecast path have seen it: SimpleXML (which either accepts
 * the text as a document or throws) and, when it throws, json_decode with
 * associative arrays. The text itself and the parsers are not modelled; an
 * answer is given by the parsers' outcome.
 */
module Payload {

  /** One `<time>` element under `<forecast>`, opaque: the forecast entry built from it reads it. */
  datatype TimeElement = TimeElement(markup: string)

  /** The parts of an accepted forecast document that the forecast path reads. */
  datatype XmlDoc = XmlDoc(
    name: string,            // <location><name>
    longitude: string,       // <location><location longitude="…">
    latitude: string,        // <location><location latitude="…">
    country: string,         // <location><country>
    lastUpdate: string,      // <meta><lastupdate>
    times: seq<TimeElement>) // <forecast><time>…</forecast>, in document order

  /**
   * The value json_decode($answer, true) gives back. A text that is not JSON
   * decodes to null, so JNull stands for it too. JSON objects become PHP
   * associative arrays, JSON arrays become lists.
   */
  datatype JsonValue =
    | JNull
    | JBool(b: bool)
    | JNumber(n: int)
    | JString(s: string)
    | JList(items: seq<JsonValue>)
    | JObject(fields: map<string, JsonValue>)

  /** What getRawHourlyForecastData / getRawDailyForecastData handed back, as the parsers see it. */
  datatype RawAnswer =
    | False                   // the provider call returned false
    | Xml(doc: XmlDoc)        // a text SimpleXMLElement accepts
    | NotXml(json: JsonValue) // a text SimpleXMLElement rejects, with what json_decode makes of it

  /**
   * `$error[key]` on a decoded value: the member of an associative array,
   * and null for a missing key, a list (whose keys are integers), a
   * non-string scalar or no JSON. A decoded string also gives null here;
   * the forecast path only reads a member once `IsSet` holds, which it
   * never does for a string.
   */
  function Member(j: JsonValue, key: string): (r: JsonValue)
    ensures j.JObject? && key in j.fields ==> r == j.fields[key]
    ensures !(j.JObject? && key in j.fields) ==> r == JNull
  {
    if j.JObject? && key in j.fields then j.fields[key] else JNull
  }

  /** `isset($error[key])`: the key is present and its value is not null. */
  function IsSet(j: JsonValue, key: string): (b: bool)
    ensures b <==> (j.JObject? && key in j.fields && j.fields[key] != JNull)
  {
    Member(j, key) != JNull
  }
}
