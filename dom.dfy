/** The part of the browser document the library touches: elements with a tag,
    attributes, registered event listeners and an ordered child list, and text
    nodes. This is the DOM as the library uses it, not the library itself. */
module Dom {
  import opened JsValue

  /** A JavaScript function passed as a prop or handler. Its behaviour is opaque;
      `source` is what `String(fn)` gives. `ForwardValue` is the wrapper `Input`
      builds around its `onInput` callback; `NoOp` is the default `() => {}`. */
  datatype Handler =
    | Script(id: nat, source: string)
    | ForwardValue(onInput: Handler)
    | NoOp

  function Source(h: Handler): string
  {
    match h
    case Script(_, source) => source
    case ForwardValue(_) => "(e) => onInput(e.target.value)"
    case NoOp => "() => {}"
  }

  /** A display node: a text node, an element, or a `<p>` holding some text as
      `For`'s default render function builds it. Nothing changes such a paragraph
      after it is built, so it is kept as a value. */
  datatype Node = Text(content: string) | Elem(el: Element) | Para(text: string)

  /** One `addEventListener(event, handler)` registration. */
  datatype EventReg = EventReg(event: string, handler: Handler)

  class Element {
    const tag: string
    var attrs: map<string, string>
    var events: seq<EventReg>
    var children: seq<Node>

    /** `document.createElement(tag)`: a fresh element with nothing on it. */
    constructor(tag: string)
      ensures this.tag == tag && attrs == map[] && events == [] && children == []
    {
      this.tag := tag;
      attrs := map[];
      events := [];
      children := [];
    }

    /** `setAttribute(name, value)` after `value` has been converted with `String`. */
    method SetAttribute(name: string, value: string)
      modifies this
      ensures attrs == old(attrs)[name := value]
      ensures events == old(events) && children == old(children)
    {
      attrs := attrs[name := value];
    }

    /** `addEventListener(event, handler)`: registering the same pair twice has no effect. */
    method AddEventListener(event: string, handler: Handler)
      modifies this
      ensures EventReg(event, handler) in old(events) ==> events == old(events)
      ensures EventReg(event, handler) !in old(events) ==> events == old(events) + [EventReg(event, handler)]
      ensures attrs == old(attrs) && children == old(children)
    {
      if EventReg(event, handler) !in events {
        events := events + [EventReg(event, handler)];
      }
    }

    /** `append(node)`. */
    method Append(node: Node)
      modifies this
      ensures children == old(children) + [node]
      ensures attrs == old(attrs) && events == old(events)
    {
      children := children + [node];
    }
  }
}
