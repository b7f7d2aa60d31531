/** The stream of XML events the parser consumes, standing for quick_xml's
    `Reader::read_event_into` with `trim_text(true)`. Lexing (tokenising, end-tag
    checks, entity unescaping, UTF-8 decoding) happens before this model: payloads
    arrive decoded, and a payload that fails to decode arrives as None. */
module XmlEvents {
  import opened Models

  /** One attribute of a start tag, as written; `value` is None when its bytes
      are not UTF-8 (the parser then ignores the attribute). */
  datatype Attr = Attr(key: string, value: Option<string>)

  datatype Event =
    | Start(name: string, attrs: seq<Attr>)
    | End(name: string)
    | Empty(name: string, attrs: seq<Attr>)
    /** None: the text holds an entity that cannot be unescaped. */
    | Text(text: Option<string>)
    /** None: the CDATA bytes are not UTF-8. */
    | CData(data: Option<string>)
    | Eof
    /** A lexer error (quick_xml::Error). */
    | XmlErr

  /** The event read at cursor `pos`; past the end the reader keeps returning Eof. */
  function At(evs: seq<Event>, pos: nat): (e: Event)
    ensures !e.Eof? ==> pos < |evs|
  {
    if pos < |evs| then evs[pos] else Eof
  }

  /** The `for attr in start.attributes()` loop. The attribute iterator checks
      for duplicates: an attribute whose key already occurred in the tag comes out
      as an error, which the loop's `if let Ok(attr)` passes over. Every other
      attribute, in order, is offered to `step`, which may overwrite a field of
      the accumulator. */
  function FoldAttrs<T>(attrs: seq<Attr>, acc: T, step: (Attr, T) -> T): T {
    FoldUnseen(attrs, {}, acc, step)
  }

  /** The rest of that loop once the keys in `seen` have occurred. */
  function FoldUnseen<T>(attrs: seq<Attr>, seen: set<string>, acc: T, step: (Attr, T) -> T): T
    decreases |attrs|
  {
    if attrs == [] then acc
    else if attrs[0].key in seen then FoldUnseen(attrs[1..], seen, acc, step)
    else FoldUnseen(attrs[1..], seen + {attrs[0].key}, step(attrs[0], acc), step)
  }

  /** The value of the first attribute named `key`, the only one of that name the
      iterator yields; None when there is none or its value is not UTF-8. */
  function FirstValue(attrs: seq<Attr>, key: string): (v: Option<string>)
    ensures v.Some? ==> exists i :: 0 <= i < |attrs| && attrs[i] == Attr(key, v)
  {
    if attrs == [] then None
    else if attrs[0].key == key then attrs[0].value
    else FirstValue(attrs[1..], key)
  }

  /** `x` when it holds a value, `default` otherwise. */
  function Or<T>(x: Option<T>, default: Option<T>): Option<T> {
    if x.Some? then x else default
  }

  /** The last element of `vs`, or `default` when there is none. */
  function Latest<T>(vs: seq<T>, default: Option<T>): Option<T> {
    if vs == [] then default else Some(vs[|vs| - 1])
  }
}
