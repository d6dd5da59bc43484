/** The library's two reactive paths end to end: an attribute bound to a `Data`
    cell, and a `<ux-for>` list, each followed by a later `set`. */
module Scenarios {
  import opened JsValue
  import opened Dom
  import opened Reactive
  import opened Builder
  import opened ControlFlow

  /** Binding the prop `key` to a new cell, among other props that bind
      nothing, and then calling `set(w)`: the cell has exactly one listener,
      attribute `key` holds `String(w)`, and every other attribute is what the
      other props gave (index.js:6-10, 49-52). */
  method BoundAttributeFollowsCell(tag: string, props: Props, key: string, v: Value, w: Value)
    returns (el: Element, d: Data, threw: bool)
    requires forall i :: 0 <= i < |props| ==> !props[i].1.Bound?
    ensures d.listeners == [Rebind(el, key)] && d.Get() == w && !threw
    ensures el.attrs == AttrsAfter(Plan(props, map[]))[key := ToJsString(w)]
  {
    el, d := BuildBound(tag, props, key, v);
    ghost var built := el.attrs;
    SoleRebinder(el, key);
    ghost var called;
    threw, called := d.Set(w);
    assert [Rebind(el, key)][..called] == [Rebind(el, key)];
    assert el.attrs == built + Rebound([Rebind(el, key)], el, ToJsString(w));
    ReboundSingleKey([Rebind(el, key)], el, key, ToJsString(w), built);
    Overwrite(AttrsAfter(Plan(props, map[])), key, ToJsString(v), ToJsString(w));
  }

  /** Writing a key twice leaves the second value. */
  lemma Overwrite(m: map<string, string>, key: string, a: string, b: string)
    ensures m[key := a][key := b] == m[key := b]
  {
  }

  /** `createElement` over the props followed by one more entry, `key` bound
      to `new Data(v)` (the object `{ ...props, [key]: new Data(v) }` when
      `props` does not already hold `key`): the attribute `key` shows
      `String(v)` and the new cell's one listener rebinds it. */
  method BuildBound(tag: string, props: Props, key: string, v: Value) returns (el: Element, d: Data)
    requires forall i :: 0 <= i < |props| ==> !props[i].1.Bound?
    ensures fresh(el) && fresh(d)
    ensures d.listeners == [Rebind(el, key)] && d.v == v
    ensures el.attrs == AttrsAfter(Plan(props, map[]))[key := ToJsString(v)]
  {
    d := new Data(v);
    var ps := props + [(key, Bound(d))];
    BindLast(props, key, d, v);
    assert CellValues(ps) == map[d := v];
    el := CreateElement(tag, ps, []);
    BindLastListener(props, key, d, v, el);
  }

  /** A lone rebinder targets its element and no list. */
  lemma SoleRebinder(el: Element, key: string)
    ensures AttrTargets([Rebind(el, key)]) == {el} && RenderTargets([Rebind(el, key)]) == {}
  {
    assert Rebind(el, key) in [Rebind(el, key)];
  }

  /** Props that bind nothing, followed by `key` bound to `d`: `d` is the one
      bound cell, and the attributes are those of the other props with `key`
      set to the cell's text. */
  lemma BindLast(props: Props, key: string, d: Data, v: Value)
    requires forall i :: 0 <= i < |props| ==> !props[i].1.Bound?
    ensures BoundCells(props + [(key, Bound(d))]) == {d}
    ensures AttrsAfter(Plan(props + [(key, Bound(d))], map[d := v])) == AttrsAfter(Plan(props, map[]))[key := ToJsString(v)]
  {
    var ps := props + [(key, Bound(d))];
    assert ps[|props|] in ps;
    forall p | p in ps && p.1.Bound? ensures p.1.cell == d {
      var i :| 0 <= i < |ps| && ps[i] == p;
    }
    var acts := Plan(ps, map[d := v]);
    PlanIgnoresValues(props, map[d := v]);
    assert acts[..|acts| - 1] == Plan(props, map[]);
  }

  /** ... and `d` gets exactly one listener, for `key`. */
  lemma BindLastListener(props: Props, key: string, d: Data, v: Value, el: Element)
    requires forall i :: 0 <= i < |props| ==> !props[i].1.Bound?
    ensures BindingsFor(Plan(props + [(key, Bound(d))], map[d := v]), d, el) == [Rebind(el, key)]
  {
    var acts := Plan(props + [(key, Bound(d))], map[d := v]);
    PlanIgnoresValues(props, map[d := v]);
    assert acts[..|acts| - 1] == Plan(props, map[]);
    BindingsForNone(Plan(props, map[]), d, el);
  }

  /** Props that bind no cell plan the same actions whatever the cells hold. */
  lemma PlanIgnoresValues(props: Props, vals: map<Data, Value>)
    requires forall i :: 0 <= i < |props| ==> !props[i].1.Bound?
    ensures Plan(props, vals) == Plan(props, map[])
  {
  }

  /** A `<ux-for>` made with `UXFor` and then given a new array by `set` shows
      exactly the rendering of that array, and nothing of the first one
      (index.js:253-288, 49-52). */
  method ListFollowsCell(first: seq<Value>, items: seq<Value>, fn: RenderFn) returns (f: For, d: Data, threw: bool)
    ensures d.listeners == [Rerender(f)] && d.Get() == Array(items) && !threw
    ensures f.shown == Rendering(items, fn)
    ensures |f.shown| == |items|
  {
    d := new Data(Array(first));
    var t;
    f, t := UXFor(d, Given(fn));
    ghost var called;
    threw, called := d.Set(Array(items));
    SoleRerender(f);
    RenderingAt(items, fn);
  }

  /** A lone re-render targets its list and no element. */
  lemma SoleRerender(f: For)
    ensures RenderTargets([Rerender(f)]) == {f} && AttrTargets([Rerender(f)]) == {}
  {
    assert Rerender(f) in [Rerender(f)];
  }
}
