/** The reactive cell `Data` (index.js:39-57) and the two kinds of listener the
    library registers on it: the attribute rebinder that `createElement` installs
    for a cell-valued prop (index.js:8-10), and the re-render that `For.setData`
    installs (index.js:263). `For` lives here because a cell's `set` drives its
    `render` and its `render` reads the cell. */
module Reactive {
  import opened JsValue
  import opened Dom
  import opened Wrappers

  /** A listener closure registered with `listen`. */
  datatype Listener =
    | Rebind(el: Element, key: string)   // (v) => el.setAttribute(key, v)
    | Rerender(f: For)                   // () => this.render()

  /** One call of a listener, with the argument `set` passed to it. */
  datatype Notification = Notification(listener: Listener, arg: Value)

  /** The per-item render function of a `For`: the default one, which makes a
      `<p>` whose text is the item, or a caller-supplied function of item and index. */
  datatype RenderFn = Default | Custom(fn: (Value, nat) -> Node)

  /** The second argument of `setData`: left out (so the default applies), a
      falsy value such as `null`, or a function. */
  datatype RenderArg = Omitted | NullFn | Given(fn: RenderFn)

  function ResolveRenderArg(arg: RenderArg): (r: Option<RenderFn>)
    ensures arg.Omitted? ==> r.Some? && r.value.Default?
    ensures arg.NullFn? ==> r.None?
    ensures arg.Given? ==> r.Some? && r.value == arg.fn
  {
    match arg
    case Omitted => Some(Default)
    case NullFn => None
    case Given(fn) => Some(fn)
  }

  /** The calls `set(x)` makes to the first `n` listeners of `ls`, in order. */
  function Calls(ls: seq<Listener>, n: nat, x: Value): (r: seq<Notification>)
    requires n <= |ls|
    ensures |r| == n
  {
    if n == 0 then [] else Calls(ls, n - 1, x) + [Notification(ls[n - 1], x)]
  }

  /** Call `k` goes to listener `k`, with `x`: registration order, each once. */
  lemma {:induction false} CallsAt(ls: seq<Listener>, n: nat, x: Value)
    requires n <= |ls|
    ensures forall k :: 0 <= k < n ==> Calls(ls, n, x)[k] == Notification(ls[k], x)
  {
    if n > 0 {
      CallsAt(ls, n - 1, x);
    }
  }

  /** The elements whose attributes some listener in `ls` rewrites. */
  function AttrTargets(ls: seq<Listener>): set<Element>
  {
    set l | l in ls && l.Rebind? :: l.el
  }

  /** The `For` nodes some listener in `ls` re-renders. */
  function RenderTargets(ls: seq<Listener>): set<For>
  {
    set l | l in ls && l.Rerender? :: l.f
  }

  /** The attribute names of `e` that listeners in `ls` rewrite. */
  function BoundKeys(ls: seq<Listener>, e: Element): set<string>
  {
    set l | l in ls && l.Rebind? && l.el == e :: l.key
  }

  /** The attributes of `e` the listeners `ls` write when they are called with text `s`. */
  function Rebound(ls: seq<Listener>, e: Element, s: string): (r: map<string, string>)
    ensures r.Keys == BoundKeys(ls, e)
    ensures forall k :: k in r ==> r[k] == s
  {
    map k | k in BoundKeys(ls, e) :: s
  }

  /** Calling one more listener extends the rewritten attributes by its key when it
      rebinds `e`, and leaves them as they were otherwise. */
  lemma ReboundStep(ls: seq<Listener>, l: Listener, e: Element, s: string, m: map<string, string>)
    ensures l.Rebind? && l.el == e ==> m + Rebound(ls + [l], e, s) == (m + Rebound(ls, e, s))[l.key := s]
    ensures !(l.Rebind? && l.el == e) ==> m + Rebound(ls + [l], e, s) == m + Rebound(ls, e, s)
  {
    if l.Rebind? && l.el == e {
      assert BoundKeys(ls + [l], e) == BoundKeys(ls, e) + {l.key};
    } else {
      assert BoundKeys(ls + [l], e) == BoundKeys(ls, e);
    }
  }

  /** When `e` is rebound by listeners in `ls` under the single name `key`, a call
      with text `s` rewrites attribute `key` and no other attribute of `e`. */
  lemma ReboundSingleKey(ls: seq<Listener>, e: Element, key: string, s: string, m: map<string, string>)
    requires Rebind(e, key) in ls
    requires forall l :: l in ls && l.Rebind? && l.el == e ==> l.key == key
    ensures m + Rebound(ls, e, s) == m[key := s]
  {
    assert BoundKeys(ls, e) == {key};
  }

  /** `renderFn(item, index)`. The default function builds a `<p>` and assigns the
      item to its `textContent` (index.js:255-259). */
  function RenderItem(fn: RenderFn, item: Value, k: nat): Node
  {
    match fn
    case Default => Para(TextContentString(item))
    case Custom(g) => g(item, k)
  }

  /** The children `render` builds from `items`: `fn` applied to each item with its
      index, in order (index.js:275-278). */
  function Rendering(items: seq<Value>, fn: RenderFn): seq<Node>
  {
    if items == [] then [] else Rendering(items[..|items| - 1], fn) + [RenderItem(fn, items[|items| - 1], |items| - 1)]
  }

  /** One child per item, and child `k` is what `fn` makes of item `k`. */
  lemma {:induction false} RenderingAt(items: seq<Value>, fn: RenderFn)
    ensures |Rendering(items, fn)| == |items|
    ensures forall k :: 0 <= k < |items| ==> Rendering(items, fn)[k] == RenderItem(fn, items[k], k)
  {
    if items != [] {
      RenderingAt(items[..|items| - 1], fn);
    }
  }

  /** The parts of an element a listener can change. */
  datatype ElementView = ElementView(attrs: map<string, string>, events: seq<EventReg>, children: seq<Node>)

  /** The parts of a `For` that a re-render reads or changes. */
  datatype ForView = ForView(data: Data?, renderFn: Option<RenderFn>, shown: seq<Node>, errored: bool)

  ghost function ViewOf(e: Element): ElementView
    reads e
  {
    ElementView(e.attrs, e.events, e.children)
  }

  ghost function ForViewOf(f: For): ForView
    reads f
  {
    ForView(f.data, f.renderFn, f.shown, f.errored)
  }

  ghost function ElementViews(es: set<Element>): (m: map<Element, ElementView>)
    reads es
    ensures m.Keys == es
    ensures forall e :: e in es ==> m[e] == ViewOf(e)
  {
    map e | e in es :: ViewOf(e)
  }

  ghost function ForViews(fs: set<For>): (m: map<For, ForView>)
    reads fs
    ensures m.Keys == fs
    ensures forall f :: f in fs ==> m[f] == ForViewOf(f)
  {
    map f | f in fs :: ForViewOf(f)
  }

  /** `e` holds what `was` recorded, except that the attributes the listeners `done`
      rebind on it now hold `s`. */
  ghost predicate Rewritten(e: Element, was: ElementView, done: seq<Listener>, s: string)
    reads e
  {
    && e.attrs == was.attrs + Rebound(done, e, s)
    && e.events == was.events
    && e.children == was.children
  }

  /** Every element that a listener in `ls` rebinds holds what `elems0` recorded
      for it, except that the attributes the listeners `done` rebind hold `s`. */
  ghost predicate AllRewritten(ls: seq<Listener>, done: seq<Listener>, s: string, elems0: map<Element, ElementView>)
    reads AttrTargets(ls)
  {
    forall e :: e in AttrTargets(ls) ==> e in elems0 && Rewritten(e, elems0[e], done, s)
  }

  /** The cells the `For` nodes `fs` render from. */
  ghost function Cells(fs: set<For>): set<Data>
    reads fs
  {
    set f | f in fs && f.data != null :: f.data
  }

  /** Every `For` that a listener in `ls` re-renders stands as `fors0` recorded it,
      re-rendered when `done` re-renders it. */
  ghost predicate AllProgressed(ls: seq<Listener>, done: seq<Listener>, fors0: map<For, ForView>)
    reads RenderTargets(ls), Cells(RenderTargets(ls))`v
  {
    forall f :: f in RenderTargets(ls) ==> f in fors0 && f.Progressed(fors0[f], Rerender(f) in done)
  }

  /** Of the first `n` listeners of `ls`, none but the last raises, and the last
      raises exactly when `threw` holds. */
  ghost predicate Stopped(ls: seq<Listener>, n: nat, threw: bool)
    reads RenderTargets(ls), Cells(RenderTargets(ls))`v
  {
    && n <= |ls|
    && (forall k :: 0 <= k < n - 1 ==> !(ls[k].Rerender? && ls[k].f.Throws()))
    && (threw <==> 0 < n && ls[n - 1].Rerender? && ls[n - 1].f.Throws())
  }

  /** Calls `ls[i]`, a rebinder, with text `s`: `(v) => el.setAttribute(key, v)`
      (index.js:8-10). */
  method CallRebind(ls: seq<Listener>, i: nat, s: string,
                    ghost elems0: map<Element, ElementView>, ghost fors0: map<For, ForView>)
    requires i < |ls| && ls[i].Rebind?
    requires Stopped(ls, i, false)
    requires AllRewritten(ls, ls[..i], s, elems0) && AllProgressed(ls, ls[..i], fors0)
    modifies ls[i].el
    ensures Stopped(ls, i + 1, false)
    ensures AllRewritten(ls, ls[..i + 1], s, elems0) && AllProgressed(ls, ls[..i + 1], fors0)
  {
    var el, key := ls[i].el, ls[i].key;
    assert ls[..i + 1] == ls[..i] + [ls[i]];
    forall e | e in AttrTargets(ls)
      ensures elems0[e].attrs + Rebound(ls[..i + 1], e, s)
              == if e == el then (elems0[e].attrs + Rebound(ls[..i], e, s))[key := s]
                 else elems0[e].attrs + Rebound(ls[..i], e, s)
    {
      ReboundStep(ls[..i], ls[i], e, s, elems0[e].attrs);
    }
    el.SetAttribute(key, s);
  }

  /** Calls `ls[i]`, a re-render: `() => this.render()` (index.js:263). */
  method CallRerender(ls: seq<Listener>, i: nat, s: string,
                      ghost elems0: map<Element, ElementView>, ghost fors0: map<For, ForView>)
    returns (threw: bool)
    requires i < |ls| && ls[i].Rerender?
    requires Stopped(ls, i, false)
    requires AllRewritten(ls, ls[..i], s, elems0) && AllProgressed(ls, ls[..i], fors0)
    modifies ls[i].f
    ensures Stopped(ls, i + 1, threw)
    ensures AllRewritten(ls, ls[..i + 1], s, elems0) && AllProgressed(ls, ls[..i + 1], fors0)
  {
    var g := ls[i].f;
    assert ls[..i + 1] == ls[..i] + [ls[i]];
    forall e | e in AttrTargets(ls)
      ensures elems0[e].attrs + Rebound(ls[..i + 1], e, s) == elems0[e].attrs + Rebound(ls[..i], e, s)
    {
      ReboundStep(ls[..i], ls[i], e, s, elems0[e].attrs);
    }
    ghost var again := Rerender(g) in ls[..i];
    ghost var preShown, preErrored := g.shown, g.errored;
    assert again ==> (g.data == null || g.renderFn.None? ==> preShown == fors0[g].shown && preErrored);
    assert again ==> (g.data != null && g.renderFn.Some? ==> preErrored == fors0[g].errored);
    threw := g.Render();
    assert g.RenderedFrom(preShown, preErrored);
  }

  /** Calls the listener `ls[i]` with text `s` (index.js:51); `threw` reports the
      exception a re-render raises. */
  method Call(ls: seq<Listener>, i: nat, s: string,
              ghost elems0: map<Element, ElementView>, ghost fors0: map<For, ForView>)
    returns (threw: bool)
    requires i < |ls|
    requires Stopped(ls, i, false)
    requires AllRewritten(ls, ls[..i], s, elems0) && AllProgressed(ls, ls[..i], fors0)
    modifies if ls[i].Rebind? then {ls[i].el} else {}, if ls[i].Rerender? then {ls[i].f} else {}
    ensures Stopped(ls, i + 1, threw)
    ensures AllRewritten(ls, ls[..i + 1], s, elems0) && AllProgressed(ls, ls[..i + 1], fors0)
  {
    match ls[i] {
      case Rebind(el, key) =>
        CallRebind(ls, i, s, elems0, fors0);
        threw := false;
      case Rerender(g) =>
        threw := CallRerender(ls, i, s, elems0, fors0);
    }
  }

  /** Before any listener runs, the recorded states are the current ones. */
  lemma StartState(ls: seq<Listener>, s: string, elems0: map<Element, ElementView>, fors0: map<For, ForView>)
    requires elems0 == ElementViews(AttrTargets(ls)) && fors0 == ForViews(RenderTargets(ls))
    ensures AllRewritten(ls, [], s, elems0) && AllProgressed(ls, [], fors0)
  {
    forall e | e in AttrTargets(ls) ensures e.attrs + Rebound([], e, s) == e.attrs {
      assert BoundKeys([], e) == {};
    }
  }

  /** `listeners.forEach(fn => fn(v))` (index.js:51): calls the listeners `ls` in
      order with `x`, as text `s`, until one raises; `called` counts the listeners
      that ran, the raising one included, and `trace` records each call as it
      is made. */
  method CallAll(ls: seq<Listener>, ghost x: Value, s: string,
                 ghost elems0: map<Element, ElementView>, ghost fors0: map<For, ForView>)
    returns (threw: bool, ghost called: nat, ghost trace: seq<Notification>)
    requires AllRewritten(ls, [], s, elems0) && AllProgressed(ls, [], fors0)
    modifies AttrTargets(ls), RenderTargets(ls)
    ensures Stopped(ls, called, threw) && (!threw ==> called == |ls|)
    ensures AllRewritten(ls, ls[..called], s, elems0) && AllProgressed(ls, ls[..called], fors0)
    ensures called <= |ls| && trace == Calls(ls, called, x)
  {
    threw := false;
    trace := [];
    var i := 0;
    assert ls[..i] == [];
    while i < |ls| && !threw
      invariant 0 <= i <= |ls|
      decreases |ls| - i
      invariant Stopped(ls, i, threw)
      invariant AllRewritten(ls, ls[..i], s, elems0) && AllProgressed(ls, ls[..i], fors0)
      invariant trace == Calls(ls, i, x)
    {
      threw := Call(ls, i, s, elems0, fors0);
      trace := trace + [Notification(ls[i], x)];
      i := i + 1;
    }
    called := i;
  }

  /** The reactive cell (index.js:39-57). */
  class Data {
    var v: Value
    var listeners: seq<Listener>
    /** Every listener call `Set` has made, oldest first. */
    ghost var notified: seq<Notification>

    /** `new Data(v)` (index.js:40-43). */
    constructor(v: Value)
      ensures this.v == v && listeners == [] && notified == []
    {
      this.v := v;
      listeners := [];
      notified := [];
    }

    /** `get()` (index.js:54-56). */
    function Get(): Value
      reads this
    {
      v
    }

    /** `listen(fn)` (index.js:45-47): appends, and nothing else changes. */
    method Listen(l: Listener)
      modifies this
      ensures listeners == old(listeners) + [l]
      ensures v == old(v) && notified == old(notified)
    {
      listeners := listeners + [l];
    }

    /** `set(x)` (index.js:49-52): stores `x`, then calls the listeners in
        registration order, each once, each with `x`. A re-render that raises a
        `TypeError` (a `For` whose cell holds a non-array) stops the loop and the
        exception reaches the caller: `threw` says so and `called` counts the
        listeners that ran, the raising one included. */
    method Set(x: Value) returns (threw: bool, ghost called: nat)
      modifies this, AttrTargets(listeners), RenderTargets(listeners)
      ensures Get() == x && listeners == old(listeners)
      ensures Stopped(listeners, called, threw) && (!threw ==> called == |listeners|)
      ensures called <= |listeners| && notified == old(notified) + Calls(listeners, called, x)
      ensures AllRewritten(listeners, listeners[..called], ToJsString(x), old(ElementViews(AttrTargets(listeners))))
      ensures AllProgressed(listeners, listeners[..called], old(ForViews(RenderTargets(listeners))))
    {
      var ls := listeners;
      ghost var elems0 := ElementViews(AttrTargets(ls));
      ghost var fors0 := ForViews(RenderTargets(ls));
      v := x;
      var s := ToJsString(x);
      StartState(ls, s, elems0, fors0);
      ghost var trace;
      threw, called, trace := CallAll(ls, x, s, elems0, fors0);
      notified := notified + trace;
    }
  }

  /** The custom element `<ux-for>` (index.js:243-280): `host` is the element the
      page sees; `shown` is the child list of the private container in its shadow
      root. */
  class For {
    const host: Element
    var data: Data?
    var renderFn: Option<RenderFn>
    var shown: seq<Node>
    /** Whether `render` has reported its configuration error on the console. */
    ghost var errored: bool

    /** index.js:244-251. */
    constructor()
      ensures fresh(host) && host.tag == "ux-for"
      ensures host.attrs == map[] && host.events == [] && host.children == []
      ensures data == null && renderFn.None? && shown == [] && !errored
    {
      host := new Element("ux-for");
      data := null;
      renderFn := None;
      shown := [];
      errored := false;
    }

    /** The cell this node renders from, as a set. */
    function Cell(): set<Data>
      reads this
    {
      if data == null then {} else {data}
    }

    /** `render` raises a `TypeError`: it is configured, but the cell does not hold an array. */
    ghost predicate Throws()
      reads this, Cell()`v
    {
      data != null && renderFn.Some? && !data.v.Array?
    }

    /** The state `render` leaves, starting from children `prevShown` and error flag
        `prevErrored` (index.js:267-279). */
    ghost predicate RenderedFrom(prevShown: seq<Node>, prevErrored: bool)
      reads this, Cell()`v
    {
      if data == null || renderFn.None? then shown == prevShown && errored
      else if !data.v.Array? then shown == [] && errored == prevErrored
      else errored == prevErrored && shown == Rendering(data.v.items, renderFn.value)
    }

    /** The recorded state `was`, re-rendered when `ran` holds and untouched otherwise. */
    ghost predicate Progressed(was: ForView, ran: bool)
      reads this, Cell()`v
    {
      && data == was.data
      && renderFn == was.renderFn
      && if ran then RenderedFrom(was.shown, was.errored) else shown == was.shown && errored == was.errored
    }

    /** `render()` (index.js:267-279). */
    method Render() returns (threw: bool)
      modifies this
      ensures data == old(data) && renderFn == old(renderFn)
      ensures RenderedFrom(old(shown), old(errored))
      ensures threw <==> Throws()
    {
      if data == null || renderFn.None? {
        errored := true;  // console.error(...)
        return false;
      }
      var items := data.Get();
      shown := [];  // container.innerHTML = ''
      if !items.Array? {
        return true;  // items.forEach is not a function
      }
      var fn := renderFn.value;
      var k := 0;
      while k < |items.items|
        invariant 0 <= k <= |items.items|
        invariant data == old(data) && renderFn == old(renderFn) && errored == old(errored)
        invariant shown == Rendering(items.items[..k], fn)
      {
        assert items.items[..k + 1][..k] == items.items[..k];
        shown := shown + [RenderItem(fn, items.items[k], k)];
        k := k + 1;
      }
      assert items.items[..k] == items.items;
      return false;
    }

    /** `setData(data, renderFn)` (index.js:253-265). */
    method SetData(d: Data, arg: RenderArg) returns (threw: bool)
      modifies this, d
      ensures data == d && renderFn == ResolveRenderArg(arg)
      ensures d.listeners == old(d.listeners) + [Rerender(this)]
      ensures d.v == old(d.v) && d.notified == old(d.notified)
      ensures RenderedFrom(old(shown), old(errored))
      ensures threw <==> Throws()
    {
      data := d;
      renderFn := ResolveRenderArg(arg);
      d.Listen(Rerender(this));
      threw := Render();
    }
  }
}
