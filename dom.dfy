/**
 * The part of a `QDomElement` the settings serialisers use: a possibly null element carrying named
 * attributes. `attribute(name, default)` yields the default for a missing attribute or a null
 * element, and `setAttribute` on a null element does nothing.
 */
module Dom {

  datatype Element<V> = Null | Node(attributes: map<string, V>)

  /** `QDomElement::attribute(name, defValue)`. */
  function Attribute<V>(e: Element<V>, name: string, default: V): V {
    if e.Node? && name in e.attributes then e.attributes[name] else default
  }

  /** `QDomElement::setAttribute(name, value)`. */
  function SetAttribute<V>(e: Element<V>, name: string, value: V): Element<V> {
    if e.Null? then Null else Node(e.attributes[name := value])
  }
}
