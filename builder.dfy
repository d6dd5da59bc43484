/** `createElement(type, props, ...children)` (index.js:2-23): the one place where
    props become attributes, event listeners or live bindings to a `Data` cell,
    and where children become child nodes. */
module Builder {
  import opened JsValue
  import opened Dom
  import opened Reactive
  import opened Wrappers

  /** A prop value, as `createElement` tells them apart: a `Data` cell, a
      function, or anything else. */
  datatype Prop = Literal(value: Value) | Function(handler: Handler) | Bound(cell: Data)

  /** A child argument: a DOM node, or any other value, which becomes a text node. */
  datatype Child = NodeChild(node: Node) | Primitive(value: Value)

  /** A props object: its own enumerable keys with their values, in `for..in`
      order. */
  type Props = seq<(string, Prop)>

  /** A JavaScript object holds each key once. */
  predicate UniqueKeys(ps: Props)
  {
    forall i, j :: 0 <= i < j < |ps| ==> ps[i].0 != ps[j].0
  }

  /** `obj[key]`, when the object has that key. */
  function Lookup(ps: Props, key: string): Option<Prop>
  {
    if ps == [] then None
    else if ps[0].0 == key then Some(ps[0].1)
    else Lookup(ps[1..], key)
  }

  /** A key the object does not hold has no value. */
  lemma {:induction false} LookupMissing(ps: Props, key: string)
    ensures Lookup(ps, key) == None <==> forall i :: 0 <= i < |ps| ==> ps[i].0 != key
  {
    if ps != [] {
      LookupMissing(ps[1..], key);
      if Lookup(ps, key) == None {
        forall i | 0 <= i < |ps| ensures ps[i].0 != key {
          if i > 0 {
            assert ps[1..][i - 1] == ps[i];
          }
        }
      }
    }
  }

  /** The cells that props bind to. */
  function BoundCells(ps: Props): set<Data>
  {
    set p | p in ps && p.1.Bound? :: p.1.cell
  }

  /** The current value of every bound cell. */
  ghost function CellValues(ps: Props): (m: map<Data, Value>)
    reads BoundCells(ps)
    ensures m.Keys == BoundCells(ps)
  {
    map d | d in BoundCells(ps) :: d.v
  }

  /** `key.startsWith('on')`. */
  predicate StartsWithOn(key: string)
  {
    |key| >= 2 && key[0] == 'o' && key[1] == 'n'
  }

  /** `key.slice(2).toLowerCase()`: the event an `on…` prop listens to. */
  function EventName(key: string): (r: string)
    ensures |key| >= 2 ==> |r| == |key| - 2 && forall k :: 0 <= k < |r| ==> r[k] == LowerChar(key[k + 2])
    ensures |key| < 2 ==> r == ""
  {
    if |key| < 2 then "" else AsciiLower(key[2..])
  }

  /** What one prop does to the new element. `BindAttr` records the cell so that
      the listener it registers can be named; `text` is the string stored. */
  datatype Action =
    | SetAttr(name: string, text: string)
    | BindAttr(name: string, cell: Data, text: string)
    | AddEvent(event: string, handler: Handler)

  /** Whether the prop `key: p` becomes an event listener rather than an attribute. */
  predicate IsListener(key: string, p: Prop)
  {
    p.Function? && StartsWithOn(key)
  }

  /** The branch `createElement` takes for the prop `key: p`, given the current
      value `cur` of the cell when `p` is one. */
  function Classify(key: string, p: Prop, cur: Value): (a: Action)
    ensures a.BindAttr? <==> p.Bound?
    ensures a.AddEvent? <==> IsListener(key, p)
    ensures a.AddEvent? ==> a.event == EventName(key) && a.handler == p.handler
    ensures a.BindAttr? ==> a.name == key && a.cell == p.cell && a.text == ToJsString(cur)
    ensures a.SetAttr? && p.Literal? ==> a.name == key && a.text == ToJsString(p.value)
    ensures a.SetAttr? && p.Function? ==> a.name == key && a.text == Source(p.handler)
  {
    match p
    case Bound(d) => BindAttr(key, d, ToJsString(cur))
    case Function(h) => if IsListener(key, p) then AddEvent(EventName(key), h) else SetAttr(key, Source(h))
    case Literal(v) => SetAttr(key, ToJsString(v))
  }

  function CurrentOf(p: Prop, vals: map<Data, Value>): Value
  {
    if p.Bound? && p.cell in vals then vals[p.cell] else Undefined
  }

  /** The actions of a props object, in `for..in` order, given the cells' values. */
  function Plan(ps: Props, vals: map<Data, Value>): (acts: seq<Action>)
    ensures |acts| == |ps|
    ensures forall i :: 0 <= i < |ps| ==> acts[i] == Classify(ps[i].0, ps[i].1, CurrentOf(ps[i].1, vals))
  {
    seq(|ps|, i requires 0 <= i < |ps| => Classify(ps[i].0, ps[i].1, CurrentOf(ps[i].1, vals)))
  }

  /** The attributes after one more action. */
  function AttrStep(m: map<string, string>, a: Action): map<string, string>
  {
    if a.AddEvent? then m else m[a.name := a.text]
  }

  /** The registrations after one more action (`addEventListener` ignores a pair
      it already holds). */
  function EventStep(r: seq<EventReg>, a: Action): seq<EventReg>
  {
    if a.AddEvent? && EventReg(a.event, a.handler) !in r then r + [EventReg(a.event, a.handler)] else r
  }

  /** The listeners of the cell `d` after one more action. */
  function BindStep(r: seq<Listener>, a: Action, d: Data, el: Element): seq<Listener>
  {
    if a.BindAttr? && a.cell == d then r + [Rebind(el, a.name)] else r
  }

  /** The attributes a fresh element holds after the actions, in order. */
  function AttrsAfter(acts: seq<Action>): map<string, string>
  {
    if acts == [] then map[] else AttrStep(AttrsAfter(acts[..|acts| - 1]), acts[|acts| - 1])
  }

  /** The event registrations a fresh element holds after the actions, in order. */
  function EventsAfter(acts: seq<Action>): seq<EventReg>
  {
    if acts == [] then [] else EventStep(EventsAfter(acts[..|acts| - 1]), acts[|acts| - 1])
  }

  /** The listeners the actions register on the cell `d`, in order. */
  function BindingsFor(acts: seq<Action>, d: Data, el: Element): seq<Listener>
  {
    if acts == [] then [] else BindStep(BindingsFor(acts[..|acts| - 1], d, el), acts[|acts| - 1], d, el)
  }

  /** The node `createElement` appends for a child. */
  function ChildNode(c: Child): Node
  {
    match c
    case NodeChild(n) => n
    case Primitive(v) => Text(ToJsString(v))
  }

  function ChildrenOf(cs: seq<Child>): seq<Node>
  {
    if cs == [] then [] else ChildrenOf(cs[..|cs| - 1]) + [ChildNode(cs[|cs| - 1])]
  }

  /** Every child yields one node, in argument order. */
  lemma {:induction false} ChildrenOfAt(cs: seq<Child>)
    ensures |ChildrenOf(cs)| == |cs|
    ensures forall k :: 0 <= k < |cs| ==> ChildrenOf(cs)[k] == ChildNode(cs[k])
  {
    if cs != [] {
      ChildrenOfAt(cs[..|cs| - 1]);
    }
  }

  /** Children given in two runs land in one run, in argument order. */
  lemma ChildrenOfConcat(a: seq<Child>, b: seq<Child>)
    ensures ChildrenOf(a + b) == ChildrenOf(a) + ChildrenOf(b)
  {
    ChildrenOfAt(a);
    ChildrenOfAt(b);
    ChildrenOfAt(a + b);
  }

  /** The attribute names are exactly the names of the non-event actions. */
  lemma {:induction false} AttrsAfterKeys(acts: seq<Action>)
    ensures AttrsAfter(acts).Keys == set a | a in acts && !a.AddEvent? :: a.name
  {
    if acts != [] {
      var pre := acts[..|acts| - 1];
      AttrsAfterKeys(pre);
      assert acts == pre + [acts[|acts| - 1]];
    }
  }

  /** An attribute holds the text of the last action that wrote it. */
  lemma {:induction false} AttrsAfterLastWrite(acts: seq<Action>, i: nat)
    requires i < |acts| && !acts[i].AddEvent?
    requires forall j :: i < j < |acts| ==> acts[j].AddEvent? || acts[j].name != acts[i].name
    ensures acts[i].name in AttrsAfter(acts) && AttrsAfter(acts)[acts[i].name] == acts[i].text
  {
    if i < |acts| - 1 {
      AttrsAfterLastWrite(acts[..|acts| - 1], i);
    }
  }

  predicate NoDuplicates<T(==)>(s: seq<T>)
  {
    forall i, j :: 0 <= i < j < |s| ==> s[i] != s[j]
  }

  function EventRegs(acts: seq<Action>): set<EventReg>
  {
    set a | a in acts && a.AddEvent? :: EventReg(a.event, a.handler)
  }

  /** The registrations are those of the event actions, each pair once. */
  lemma {:induction false} EventsAfterMembers(acts: seq<Action>)
    ensures NoDuplicates(EventsAfter(acts))
    ensures (set r | r in EventsAfter(acts)) == EventRegs(acts)
  {
    if acts != [] {
      var pre, a := acts[..|acts| - 1], acts[|acts| - 1];
      EventsAfterMembers(pre);
      assert acts == pre + [a];
      if a.AddEvent? {
        assert EventRegs(acts) == EventRegs(pre) + {EventReg(a.event, a.handler)};
      } else {
        assert EventRegs(acts) == EventRegs(pre);
      }
    }
  }

  /** A cell that exactly one action binds gets exactly one listener, for that
      action's attribute. */
  lemma {:induction false} BindingsForSingle(acts: seq<Action>, d: Data, el: Element, k: nat)
    requires k < |acts| && acts[k].BindAttr? && acts[k].cell == d
    requires forall j :: 0 <= j < |acts| && j != k ==> !acts[j].BindAttr? || acts[j].cell != d
    ensures BindingsFor(acts, d, el) == [Rebind(el, acts[k].name)]
  {
    var n := |acts|;
    if k < n - 1 {
      BindingsForSingle(acts[..n - 1], d, el, k);
    } else {
      BindingsForNone(acts[..n - 1], d, el);
    }
  }

  /** A cell that no action binds gets no listener. */
  lemma {:induction false} BindingsForNone(acts: seq<Action>, d: Data, el: Element)
    requires forall j :: 0 <= j < |acts| ==> !acts[j].BindAttr? || acts[j].cell != d
    ensures BindingsFor(acts, d, el) == []
  {
    if acts != [] {
      BindingsForNone(acts[..|acts| - 1], d, el);
    }
  }

  /** Where a key sits in a props object. */
  lemma {:induction false} LookupAt(ps: Props, key: string) returns (j: nat)
    requires UniqueKeys(ps) && Lookup(ps, key).Some?
    ensures j < |ps| && ps[j].0 == key && Lookup(ps, key) == Some(ps[j].1)
    ensures forall i :: 0 <= i < |ps| && i != j ==> ps[i].0 != key
  {
    if ps[0].0 == key {
      j := 0;
    } else {
      var t := LookupAt(ps[1..], key);
      j := t + 1;
      forall i | 0 <= i < |ps| && i != j ensures ps[i].0 != key {
        if i > 0 {
          assert ps[1..][i - 1] == ps[i];
        }
      }
    }
  }

  /** A name no action writes is not an attribute. */
  lemma {:induction false} AttrsAfterAbsent(acts: seq<Action>, key: string)
    requires forall j :: 0 <= j < |acts| ==> acts[j].AddEvent? || acts[j].name != key
    ensures key !in AttrsAfter(acts)
  {
    if acts != [] {
      AttrsAfterAbsent(acts[..|acts| - 1], key);
    }
  }

  /** The element `createElement` builds has the attribute `key` exactly when
      the props hold `key` with a value that is not an `on…` function, and then
      it holds that prop's text: the cell's value for a `Data`, `String(v)`
      otherwise. */
  lemma PropAttr(ps: Props, vals: map<Data, Value>, key: string)
    requires UniqueKeys(ps)
    ensures key in AttrsAfter(Plan(ps, vals)) <==> Lookup(ps, key).Some? && !IsListener(key, Lookup(ps, key).value)
    ensures key in AttrsAfter(Plan(ps, vals)) ==>
      AttrsAfter(Plan(ps, vals))[key] == Classify(key, Lookup(ps, key).value, CurrentOf(Lookup(ps, key).value, vals)).text
  {
    var acts := Plan(ps, vals);
    if Lookup(ps, key).Some? {
      var j := LookupAt(ps, key);
      if IsListener(key, ps[j].1) {
        AttrsAfterAbsent(acts, key);
      } else {
        AttrsAfterLastWrite(acts, j);
      }
    } else {
      LookupMissing(ps, key);
      AttrsAfterAbsent(acts, key);
    }
  }

  /** A prop holding a literal string is written as that string. */
  lemma LiteralAttr(ps: Props, vals: map<Data, Value>, key: string, v: string)
    requires UniqueKeys(ps) && Lookup(ps, key) == Some(Literal(Str(v)))
    ensures key in AttrsAfter(Plan(ps, vals)) && AttrsAfter(Plan(ps, vals))[key] == v
  {
    PropAttr(ps, vals, key);
  }

  /** An `on…` prop holding a function registers that function for the event
      its name gives. */
  lemma PropListener(ps: Props, vals: map<Data, Value>, key: string, h: Handler)
    requires UniqueKeys(ps) && Lookup(ps, key) == Some(Function(h)) && StartsWithOn(key)
    ensures EventReg(EventName(key), h) in EventsAfter(Plan(ps, vals))
  {
    var acts := Plan(ps, vals);
    var j := LookupAt(ps, key);
    EventsAfterMembers(acts);
    assert acts[j] in acts;
    assert EventReg(EventName(key), h) in EventRegs(acts);
  }

  /** Props without an `on…` function register no event listener. */
  lemma NoListeners(ps: Props, vals: map<Data, Value>)
    requires forall i :: 0 <= i < |ps| ==> !IsListener(ps[i].0, ps[i].1)
    ensures EventsAfter(Plan(ps, vals)) == []
  {
    EventsAfterNone(Plan(ps, vals));
  }

  /** Actions that add no listener leave the registrations empty. */
  lemma {:induction false} EventsAfterNone(acts: seq<Action>)
    requires forall j :: 0 <= j < |acts| ==> !acts[j].AddEvent?
    ensures EventsAfter(acts) == []
  {
    if acts != [] {
      EventsAfterNone(acts[..|acts| - 1]);
    }
  }

  /** The bound cells after the actions `acts`: each keeps its value and history
      (`vals`, `hist`) and has its starting listeners `ls0` followed by those
      the actions register on it. */
  ghost predicate Registered(cells: set<Data>, vals: map<Data, Value>, hist: map<Data, seq<Notification>>,
                             ls0: map<Data, seq<Listener>>, acts: seq<Action>, el: Element)
    reads cells
  {
    forall d :: d in cells ==>
      d in vals && d in hist && d in ls0 &&
      d.v == vals[d] && d.notified == hist[d] && d.listeners == ls0[d] + BindingsFor(acts, d, el)
  }

  /** Taking one more action applies that action's step to the attributes, the
      registrations and every cell's listeners. */
  lemma AfterStep(acts: seq<Action>, i: nat, el: Element)
    requires i < |acts|
    ensures AttrsAfter(acts[..i + 1]) == AttrStep(AttrsAfter(acts[..i]), acts[i])
    ensures EventsAfter(acts[..i + 1]) == EventStep(EventsAfter(acts[..i]), acts[i])
    ensures forall d :: BindingsFor(acts[..i + 1], d, el) == BindStep(BindingsFor(acts[..i], d, el), acts[i], d, el)
  {
    assert acts[..i + 1][..i] == acts[..i];
  }

  ghost function HistoriesOf(cells: set<Data>): (m: map<Data, seq<Notification>>)
    reads cells
    ensures m.Keys == cells
  {
    map d | d in cells :: d.notified
  }

  ghost function ListenersOf(cells: set<Data>): (m: map<Data, seq<Listener>>)
    reads cells
    ensures m.Keys == cells
  {
    map d | d in cells :: d.listeners
  }

  /** Before any action, every cell holds the listeners it started with. */
  lemma RegisteredStart(props: Props, el: Element)
    ensures Registered(BoundCells(props), CellValues(props), HistoriesOf(BoundCells(props)),
                       ListenersOf(BoundCells(props)), [], el)
  {
  }

  /** An action that binds nothing leaves every cell's listeners as they were. */
  lemma RegisteredSkip(cells: set<Data>, vals: map<Data, Value>, hist: map<Data, seq<Notification>>,
                       ls0: map<Data, seq<Listener>>, acts: seq<Action>, i: nat, el: Element)
    requires i < |acts| && !acts[i].BindAttr?
    requires Registered(cells, vals, hist, ls0, acts[..i], el)
    ensures Registered(cells, vals, hist, ls0, acts[..i + 1], el)
  {
    AfterStep(acts, i, el);
  }

  /** One turn of the props loop of `createElement`, for a bound or a plain prop. */
  method ApplyAt(el: Element, props: Props, i: nat, ghost acts: seq<Action>,
                 ghost vals: map<Data, Value>, ghost hist: map<Data, seq<Notification>>,
                 ghost ls0: map<Data, seq<Listener>>)
    requires i < |props| && acts == Plan(props, vals)
    requires el.attrs == AttrsAfter(acts[..i]) && el.events == EventsAfter(acts[..i])
    requires Registered(BoundCells(props), vals, hist, ls0, acts[..i], el)
    modifies el, BoundCells(props)
    ensures el.attrs == AttrsAfter(acts[..i + 1]) && el.events == EventsAfter(acts[..i + 1])
    ensures el.children == old(el.children)
    ensures Registered(BoundCells(props), vals, hist, ls0, acts[..i + 1], el)
  {
    if props[i].1.Bound? {
      assert props[i] in props;
      ApplyBound(el, props, i, acts, vals, hist, ls0);
    } else {
      ApplyPlain(el, props, i, acts, vals, hist, ls0);
    }
  }

  /** One pass of the props loop for a `Data` prop: the attribute takes the
      cell's current value and the cell gets a rebinding listener. */
  method ApplyBound(el: Element, props: Props, i: nat, ghost acts: seq<Action>,
                    ghost vals: map<Data, Value>, ghost hist: map<Data, seq<Notification>>,
                    ghost ls0: map<Data, seq<Listener>>)
    requires i < |props| && props[i].1.Bound? && acts == Plan(props, vals)
    requires el.attrs == AttrsAfter(acts[..i]) && el.events == EventsAfter(acts[..i])
    requires Registered(BoundCells(props), vals, hist, ls0, acts[..i], el)
    modifies el, props[i].1.cell
    ensures el.attrs == AttrsAfter(acts[..i + 1]) && el.events == EventsAfter(acts[..i + 1])
    ensures el.children == old(el.children)
    ensures Registered(BoundCells(props), vals, hist, ls0, acts[..i + 1], el)
  {
    var key, d := props[i].0, props[i].1.cell;
    assert props[i] in props;
    assert acts[i] == BindAttr(key, d, ToJsString(vals[d]));
    AfterStep(acts, i, el);
    el.SetAttribute(key, ToJsString(d.Get()));
    d.Listen(Rebind(el, key));
  }

  /** One pass of the props loop for any other prop: an `on…` function becomes
      an event listener, anything else an attribute. No cell changes. */
  method ApplyPlain(el: Element, props: Props, i: nat, ghost acts: seq<Action>,
                    ghost vals: map<Data, Value>, ghost hist: map<Data, seq<Notification>>,
                    ghost ls0: map<Data, seq<Listener>>)
    requires i < |props| && !props[i].1.Bound? && acts == Plan(props, vals)
    requires el.attrs == AttrsAfter(acts[..i]) && el.events == EventsAfter(acts[..i])
    requires Registered(BoundCells(props), vals, hist, ls0, acts[..i], el)
    modifies el
    ensures el.attrs == AttrsAfter(acts[..i + 1]) && el.events == EventsAfter(acts[..i + 1])
    ensures el.children == old(el.children)
    ensures Registered(BoundCells(props), vals, hist, ls0, acts[..i + 1], el)
  {
    var key := props[i].0;
    assert acts[i] == Classify(key, props[i].1, Undefined);
    AfterStep(acts, i, el);
    RegisteredSkip(BoundCells(props), vals, hist, ls0, acts, i, el);
    match props[i].1 {
      case Function(h) =>
        if StartsWithOn(key) {
          el.AddEventListener(EventName(key), h);
        } else {
          el.SetAttribute(key, Source(h));
        }
      case Literal(v) =>
        el.SetAttribute(key, ToJsString(v));
    }
  }

  /** `createElement(tag, props, ...children)`: a new element whose attributes,
      listeners and children are those the props and children describe, in
      order, and every bound cell gets one rebinding listener per prop that
      binds it. The cells' values and histories do not change. */
  method CreateElement(tag: string, props: Props, children: seq<Child>) returns (el: Element)
    modifies BoundCells(props)
    ensures fresh(el) && el.tag == tag
    ensures el.attrs == AttrsAfter(Plan(props, old(CellValues(props))))
    ensures el.events == EventsAfter(Plan(props, old(CellValues(props))))
    ensures el.children == ChildrenOf(children)
    ensures Grown(props, el)
  {
    ghost var cells := BoundCells(props);
    ghost var vals := CellValues(props);
    ghost var hist := HistoriesOf(cells);
    ghost var ls0 := ListenersOf(cells);
    ghost var acts := Plan(props, vals);
    el := new Element(tag);
    RegisteredStart(props, el);
    var i := 0;
    assert acts[..i] == [];
    while i < |props|
      invariant 0 <= i <= |props|
      invariant fresh(el) && el.tag == tag && el.children == []
      invariant el.attrs == AttrsAfter(acts[..i]) && el.events == EventsAfter(acts[..i])
      invariant Registered(cells, vals, hist, ls0, acts[..i], el)
    {
      ApplyAt(el, props, i, acts, vals, hist, ls0);
      i := i + 1;
    }
    assert acts[..i] == acts;
    AppendChildren(el, children);
  }

  /** Every cell the props bind keeps its value and history and gains exactly
      the rebinders for `el` that the props call for. */
  twostate predicate Grown(props: Props, new el: Element)
    reads BoundCells(props)
  {
    forall d :: d in BoundCells(props) ==>
      d.v == old(d.v) && d.notified == old(d.notified) &&
      d.listeners == old(d.listeners) + BindingsFor(Plan(props, old(CellValues(props))), d, el)
  }

  /** `el` is what `createElement(tag, props, ...children)` builds: the tag, the
      attributes and listeners the props call for with the cells' values on
      entry, one node per child, and the bound cells grown as `Grown` says. */
  twostate predicate Created(tag: string, props: Props, children: seq<Child>, new el: Element)
    reads el, BoundCells(props)
  {
    el.tag == tag &&
    el.attrs == AttrsAfter(Plan(props, old(CellValues(props)))) &&
    el.events == EventsAfter(Plan(props, old(CellValues(props)))) &&
    el.children == ChildrenOf(children) &&
    Grown(props, el)
  }

  /** The children loop of `createElement`: each child is appended in turn. */
  method AppendChildren(el: Element, children: seq<Child>)
    modifies el
    ensures el.children == old(el.children) + ChildrenOf(children)
    ensures el.attrs == old(el.attrs) && el.events == old(el.events)
  {
    var j := 0;
    while j < |children|
      invariant 0 <= j <= |children|
      invariant el.attrs == old(el.attrs) && el.events == old(el.events)
      invariant el.children == old(el.children) + ChildrenOf(children[..j])
    {
      assert children[..j + 1][..j] == children[..j];
      el.Append(ChildNode(children[j]));
      j := j + 1;
    }
    assert children[..j] == children;
  }
}
