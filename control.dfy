/** The control-flow elements (index.js:214-288): `<ux-if>` and the `UXIf` and
    `UXFor` helpers. `<ux-for>` itself is the `For` class of the `Reactive`
    module, since a `Data` cell's listeners refer to it. */
module ControlFlow {
  import opened JsValue
  import opened Dom
  import opened Reactive

  /** `getAttribute(name) || ''`: the attribute's text, or the empty string
      when it is absent (`null`) or empty. */
  function AttrOrEmpty(attrs: map<string, string>, name: string): (r: string)
    ensures name in attrs ==> r == attrs[name]
    ensures name !in attrs ==> r == ""
  {
    if name in attrs then attrs[name] else ""
  }

  /** The value a `UXIf` text parameter stores: `''` when it is `undefined`,
      `String(v)` otherwise. */
  function TextParam(v: Value): (r: string)
    ensures v.Undefined? ==> r == ""
    ensures !v.Undefined? ==> r == ToJsString(v)
  {
    if v.Undefined? then "" else ToJsString(v)
  }

  /** `<ux-if>` (index.js:215-235): a host element with a container whose
      children are `shown`. The class defines a `condition` setter and no
      getter, so reading `this.condition` always gives `undefined`: the value
      set is never kept, and the setter always shows the `else` text. */
  class If {
    const host: Element
    var shown: seq<Node>

    /** index.js:216-221. */
    constructor()
      ensures fresh(host) && host.tag == "ux-if"
      ensures host.attrs == map[] && host.events == [] && host.children == []
      ensures shown == []
    {
      host := new Element("ux-if");
      shown := [];
    }

    /** What `this.condition` reads: there is no getter. */
    function Condition(): (r: Value)
    {
      Undefined
    }

    /** The text the setter shows: the `then` text when the condition it reads
        is truthy, the `else` text otherwise. */
    function ShownText(attrs: map<string, string>): string
    {
      if Truthy(Condition()) then AttrOrEmpty(attrs, "then") else AttrOrEmpty(attrs, "else")
    }

    /** `set condition(v)` (index.js:223-230): the container is cleared and gets
        one text node. */
    method SetCondition(v: Value)
      modifies this
      ensures shown == [Text(ShownText(host.attrs))]
    {
      shown := [];
      shown := shown + [Text(ShownText(host.attrs))];
    }

    /** Whatever value is set, the `else` text is shown and the `then` text
        never is (unless the two are equal). */
    lemma ShowsElse(attrs: map<string, string>)
      ensures ShownText(attrs) == AttrOrEmpty(attrs, "else")
    {
      assert !Truthy(Undefined);
    }
  }

  /** `UXIf(condition, thenText, elseText)` (index.js:236-241). The condition
      is set before the `then` and `else` attributes exist, so the element
      shows the empty string whatever the arguments are. */
  method UXIf(condition: Value, thenText: Value, elseText: Value) returns (node: If)
    ensures fresh(node) && fresh(node.host) && node.host.tag == "ux-if"
    ensures node.host.attrs == map["then" := TextParam(thenText), "else" := TextParam(elseText)]
    ensures node.host.events == [] && node.host.children == []
    ensures node.shown == [Text("")]
  {
    node := new If();
    node.SetCondition(condition);
    node.ShowsElse(node.host.attrs);
    node.host.SetAttribute("then", TextParam(thenText));
    node.host.SetAttribute("else", TextParam(elseText));
  }

  /** `UXFor(data, renderFn)` (index.js:284-288): a new `<ux-for>` that renders
      the cell now and again on every `set`. `threw` reports the `TypeError`
      the first render raises when the cell does not hold an array. */
  method UXFor(d: Data, arg: RenderArg) returns (f: For, threw: bool)
    modifies d
    ensures fresh(f) && fresh(f.host) && f.host.tag == "ux-for"
    ensures f.data == d && f.renderFn == ResolveRenderArg(arg)
    ensures d.listeners == old(d.listeners) + [Rerender(f)]
    ensures d.v == old(d.v) && d.notified == old(d.notified)
    ensures f.RenderedFrom([], false)
    ensures threw <==> f.Throws()
  {
    f := new For();
    threw := f.SetData(d, arg);
  }
}
