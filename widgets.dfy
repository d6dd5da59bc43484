/** The UI pack (index.js:59-172): widget constructors built on `createElement`.
    `Button` and `Input` write their `opts` onto the finished element with
    `setAttribute`; `Link`, `A`, `Image`, `Div` and `H` spread `opts` into the
    props object, so an option replaces a default prop and may also bind a
    `Data` cell or add an event listener. */
module Widgets {
  import opened JsValue
  import opened Dom
  import opened Reactive
  import opened Builder
  import opened Wrappers

  const ButtonStyle: string := "padding: 0.5em 1em;  background: #333; color: white; border: none; border-radius: 4px; cursor: pointer;"
  const InputStyle: string := "padding: 0.5em; border: 1px solid #ccc; border-radius: 4px; width: 100%;"
  const LinkStyle: string := "color: blue; text-decoration: none;"
  const ImageStyle: string := "max-width: 100%; height: auto;"
  const DivStyle: string := "margin: 1em 0;"
  const HeadingStyle: string := "margin: 0.5em 0;"

  /** A parameter with a default: the default applies when the argument is
      `undefined`, whether it was passed or left out. */
  function Default(arg: Prop, default: Prop): (r: Prop)
    ensures arg != Literal(Undefined) ==> r == arg
    ensures arg == Literal(Undefined) ==> r == default
  {
    if arg == Literal(Undefined) then default else arg
  }

  function DefaultChild(arg: Child, default: Child): (r: Child)
    ensures arg != Primitive(Undefined) ==> r == arg
    ensures arg == Primitive(Undefined) ==> r == default
  {
    if arg == Primitive(Undefined) then default else arg
  }

  // ---------------------------------------------------------------------------
  // Object spread: `{ a, b, ...opts }`

  /** Assigning `obj[key] = p`: an existing key keeps its place and takes the new
      value, a new key goes last. */
  function Put(ps: Props, key: string, p: Prop): (r: Props)
    ensures |r| == if Lookup(ps, key).Some? then |ps| else |ps| + 1
    ensures forall i :: 0 <= i < |ps| ==> r[i].0 == ps[i].0
    ensures Lookup(ps, key).None? ==> r[|ps|] == (key, p)
    ensures Lookup(r, key) == Some(p)
    ensures forall k :: k != key ==> Lookup(r, k) == Lookup(ps, k)
    decreases |ps|
  {
    if ps == [] then [(key, p)]
    else if ps[0].0 == key then [(key, p)] + ps[1..]
    else [ps[0]] + Put(ps[1..], key, p)
  }

  /** Assigning a key keeps an object's keys unique. */
  lemma PutUnique(ps: Props, key: string, p: Prop)
    requires UniqueKeys(ps)
    ensures UniqueKeys(Put(ps, key, p))
  {
    var r := Put(ps, key, p);
    if Lookup(ps, key).None? {
      LookupMissing(ps, key);
      var n := |ps|;
      forall i, j | 0 <= i < j < |r| ensures r[i].0 != r[j].0 {
        if j == n {
          assert ps[i].0 != key;
        }
      }
    }
  }

  /** `{ ...base, ...opts }`: the options copied onto the base object in their
      own order. */
  function Spread(base: Props, opts: Props): (r: Props)
    ensures |r| >= |base|
    ensures forall i :: 0 <= i < |base| ==> r[i].0 == base[i].0
    decreases |opts|
  {
    if opts == [] then base else Spread(Put(base, opts[0].0, opts[0].1), opts[1..])
  }

  /** Spreading options into an object keeps its keys unique. */
  lemma {:induction false} SpreadUnique(base: Props, opts: Props)
    requires UniqueKeys(base)
    ensures UniqueKeys(Spread(base, opts))
    decreases |opts|
  {
    if opts != [] {
      PutUnique(base, opts[0].0, opts[0].1);
      SpreadUnique(Put(base, opts[0].0, opts[0].1), opts[1..]);
    }
  }

  /** An option replaces the default of the same name; every other default
      stays; nothing else appears. */
  lemma {:induction false} SpreadLookup(base: Props, opts: Props, k: string)
    requires UniqueKeys(opts)
    ensures Lookup(Spread(base, opts), k) == if Lookup(opts, k).Some? then Lookup(opts, k) else Lookup(base, k)
    decreases |opts|
  {
    if opts != [] {
      var rest := opts[1..];
      assert UniqueKeys(rest) by {
        forall i, j | 0 <= i < j < |rest| ensures rest[i].0 != rest[j].0 {
          assert rest[i] == opts[i + 1] && rest[j] == opts[j + 1];
        }
      }
      SpreadLookup(Put(base, opts[0].0, opts[0].1), rest, k);
      if opts[0].0 == k {
        LookupMissing(rest, k);
        forall i | 0 <= i < |rest| ensures rest[i].0 != k {
          assert rest[i] == opts[i + 1];
        }
      }
    }
  }

  /** The attribute `createElement` gives a spread props object: an option's own
      attribute text when the options hold the key, the default's otherwise. */
  lemma SpreadAttr(base: Props, opts: Props, vals: map<Data, Value>, k: string)
    requires UniqueKeys(base) && UniqueKeys(opts)
    ensures var p := if Lookup(opts, k).Some? then Lookup(opts, k) else Lookup(base, k);
      (k in AttrsAfter(Plan(Spread(base, opts), vals)) <==> p.Some? && !IsListener(k, p.value)) &&
      (k in AttrsAfter(Plan(Spread(base, opts), vals)) ==>
        AttrsAfter(Plan(Spread(base, opts), vals))[k] == Classify(k, p.value, CurrentOf(p.value, vals)).text)
  {
    SpreadLookup(base, opts, k);
    SpreadUnique(base, opts);
    PropAttr(Spread(base, opts), vals, k);
  }

  // ---------------------------------------------------------------------------
  // The `for (let key in opts) el.setAttribute(key, opts[key])` loop

  /** `String(x)` for an option value: a `Data` object is not unwrapped here. */
  function OptText(p: Prop): string
  {
    match p
    case Literal(v) => ToJsString(v)
    case Function(h) => Source(h)
    case Bound(_) => "[object Object]"
  }

  /** The attributes after writing every option, in order, over `m`. */
  function OptsAttrs(m: map<string, string>, opts: Props): map<string, string>
    decreases |opts|
  {
    if opts == [] then m else OptsAttrs(m[opts[0].0 := OptText(opts[0].1)], opts[1..])
  }

  /** After the options loop, an option's key holds the option's text, every
      other attribute is as it was, and no attribute is removed. */
  lemma {:induction false} OptsAttrsLookup(m: map<string, string>, opts: Props, k: string)
    requires UniqueKeys(opts)
    ensures k in OptsAttrs(m, opts) <==> k in m || Lookup(opts, k).Some?
    ensures Lookup(opts, k).Some? ==> OptsAttrs(m, opts)[k] == OptText(Lookup(opts, k).value)
    ensures Lookup(opts, k).None? && k in m ==> OptsAttrs(m, opts)[k] == m[k]
    decreases |opts|
  {
    if opts != [] {
      var rest := opts[1..];
      assert UniqueKeys(rest) by {
        forall i, j | 0 <= i < j < |rest| ensures rest[i].0 != rest[j].0 {
          assert rest[i] == opts[i + 1] && rest[j] == opts[j + 1];
        }
      }
      OptsAttrsLookup(m[opts[0].0 := OptText(opts[0].1)], rest, k);
      if opts[0].0 == k {
        LookupMissing(rest, k);
        forall i | 0 <= i < |rest| ensures rest[i].0 != k {
          assert rest[i] == opts[i + 1];
        }
      }
    }
  }

  /** The options loop of `Button` and `Input`. */
  method SetOpts(el: Element, opts: Props)
    modifies el
    ensures el.attrs == OptsAttrs(old(el.attrs), opts)
    ensures el.events == old(el.events) && el.children == old(el.children)
  {
    var i := 0;
    while i < |opts|
      invariant 0 <= i <= |opts|
      invariant OptsAttrs(el.attrs, opts[i..]) == OptsAttrs(old(el.attrs), opts)
      invariant el.events == old(el.events) && el.children == old(el.children)
    {
      assert opts[i..][1..] == opts[i + 1..];
      el.SetAttribute(opts[i].0, OptText(opts[i].1));
      i := i + 1;
    }
  }

  /** `createElement(tag, props, ...children)` followed by the options loop, as
      `Button` and `Input` do it. */
  method CreateWithOpts(tag: string, props: Props, children: seq<Child>, opts: Props) returns (el: Element)
    modifies BoundCells(props)
    ensures fresh(el) && el.tag == tag
    ensures el.attrs == OptsAttrs(AttrsAfter(Plan(props, old(CellValues(props)))), opts)
    ensures el.events == EventsAfter(Plan(props, old(CellValues(props))))
    ensures el.children == ChildrenOf(children)
    ensures Grown(props, el)
  {
    el := CreateElement(tag, props, children);
    SetOpts(el, opts);
  }

  // ---------------------------------------------------------------------------
  // Button

  function ButtonProps(onClick: Prop, style: Prop): Props
  {
    [("onclick", onClick), ("style", Default(style, Literal(Str(ButtonStyle))))]
  }

  /** The attributes of a button: those `createElement` gives, then the options. */
  function ButtonAttrs(onClick: Prop, style: Prop, opts: Props, vals: map<Data, Value>): map<string, string>
  {
    OptsAttrs(AttrsAfter(Plan(ButtonProps(onClick, style), vals)), opts)
  }

  /** `Button(text, onClick, opts, style, ...children)` (index.js:60-82). */
  method Button(text: Child, onClick: Prop, opts: Props, style: Prop, children: seq<Child>) returns (el: Element)
    modifies BoundCells(ButtonProps(onClick, style))
    ensures fresh(el) && el.tag == "button"
    ensures el.attrs == ButtonAttrs(onClick, style, opts, old(CellValues(ButtonProps(onClick, style))))
    ensures el.events == EventsAfter(Plan(ButtonProps(onClick, style), old(CellValues(ButtonProps(onClick, style)))))
    ensures el.children == ChildrenOf([text] + children)
    ensures Grown(ButtonProps(onClick, style), el)
  {
    el := CreateWithOpts("button", ButtonProps(onClick, style), [text] + children, opts);
  }

  /** A function `onClick` becomes a `click` listener and no attribute; an
      omitted one is written as the attribute `onclick="undefined"` and the
      button gets no listener at all. */
  lemma ButtonClick(onClick: Prop, style: Prop, opts: Props, vals: map<Data, Value>)
    requires UniqueKeys(opts)
    requires Lookup(opts, "onclick").None?
    ensures onClick.Function? ==>
      EventReg("click", onClick.handler) in EventsAfter(Plan(ButtonProps(onClick, style), vals)) &&
      "onclick" !in ButtonAttrs(onClick, style, opts, vals)
    ensures onClick == Literal(Undefined) ==>
      EventsAfter(Plan(ButtonProps(onClick, style), vals)) == [] &&
      "onclick" in ButtonAttrs(onClick, style, opts, vals) &&
      ButtonAttrs(onClick, style, opts, vals)["onclick"] == "undefined"
  {
    var ps := ButtonProps(onClick, style);
    assert EventName("onclick") == "click";
    PropAttr(ps, vals, "onclick");
    OptsAttrsLookup(AttrsAfter(Plan(ps, vals)), opts, "onclick");
    if onClick.Function? {
      PropListener(ps, vals, "onclick", onClick.handler);
    }
    if onClick == Literal(Undefined) {
      NoListeners(ps, vals);
    }
  }

  /** The button's `style` is the `style` option when there is one, otherwise
      the default style when `style` is left out. */
  lemma ButtonStyleAttr(onClick: Prop, opts: Props, vals: map<Data, Value>)
    requires UniqueKeys(opts)
    ensures "style" in ButtonAttrs(onClick, Literal(Undefined), opts, vals)
    ensures Lookup(opts, "style").Some? ==>
      ButtonAttrs(onClick, Literal(Undefined), opts, vals)["style"] == OptText(Lookup(opts, "style").value)
    ensures Lookup(opts, "style").None? ==> ButtonAttrs(onClick, Literal(Undefined), opts, vals)["style"] == ButtonStyle
  {
    var ps := ButtonProps(onClick, Literal(Undefined));
    PropAttr(ps, vals, "style");
    OptsAttrsLookup(AttrsAfter(Plan(ps, vals)), opts, "style");
  }

  // ---------------------------------------------------------------------------
  // Input

  function InputProps(inputType: Prop, value: Prop, onInput: Option<Handler>, style: Prop): Props
  {
    [ ("type", Default(inputType, Literal(Str("text")))),
      ("value", Default(value, Literal(Str("")))),
      ("oninput", Function(ForwardValue(Or(onInput, NoOp)))),
      ("style", Default(style, Literal(Str(InputStyle)))) ]
  }

  lemma InputPropsUnique(inputType: Prop, value: Prop, onInput: Option<Handler>, style: Prop)
    ensures UniqueKeys(InputProps(inputType, value, onInput, style))
  {
  }

  function InputAttrs(inputType: Prop, value: Prop, onInput: Option<Handler>, style: Prop, opts: Props,
                      vals: map<Data, Value>): map<string, string>
  {
    OptsAttrs(AttrsAfter(Plan(InputProps(inputType, value, onInput, style), vals)), opts)
  }

  /** `Input(type, value, onInput, opts, style)` (index.js:84-107): the `input`
      listener is a wrapper that forwards the field's value to `onInput`, and
      the element has one empty text child. */
  method Input(inputType: Prop, value: Prop, onInput: Option<Handler>, opts: Props, style: Prop) returns (el: Element)
    modifies BoundCells(InputProps(inputType, value, onInput, style))
    ensures fresh(el) && el.tag == "input"
    ensures el.attrs == InputAttrs(inputType, value, onInput, style, opts, old(CellValues(InputProps(inputType, value, onInput, style))))
    ensures el.events == EventsAfter(Plan(InputProps(inputType, value, onInput, style), old(CellValues(InputProps(inputType, value, onInput, style)))))
    ensures el.children == [Text("")]
    ensures Grown(InputProps(inputType, value, onInput, style), el)
  {
    el := CreateWithOpts("input", InputProps(inputType, value, onInput, style), [Primitive(Str(""))], opts);
  }

  /** An input left with its defaults is a text field with an empty value and
      the default style, listening to `input` through the value-forwarding
      wrapper of a no-op. */
  lemma InputDefaults(vals: map<Data, Value>)
    ensures var attrs := InputAttrs(Literal(Undefined), Literal(Undefined), None, Literal(Undefined), [], vals);
      "type" in attrs && attrs["type"] == "text" &&
      "value" in attrs && attrs["value"] == "" &&
      "style" in attrs && attrs["style"] == InputStyle &&
      "oninput" !in attrs
    ensures EventReg("input", ForwardValue(NoOp))
      in EventsAfter(Plan(InputProps(Literal(Undefined), Literal(Undefined), None, Literal(Undefined)), vals))
  {
    var ps := InputProps(Literal(Undefined), Literal(Undefined), None, Literal(Undefined));
    assert EventName("oninput") == "input";
    InputPropsUnique(Literal(Undefined), Literal(Undefined), None, Literal(Undefined));
    assert InputAttrs(Literal(Undefined), Literal(Undefined), None, Literal(Undefined), [], vals) == AttrsAfter(Plan(ps, vals));
    LiteralAttr(ps, vals, "type", "text");
    LiteralAttr(ps, vals, "value", "");
    LiteralAttr(ps, vals, "style", InputStyle);
    PropAttr(ps, vals, "oninput");
    PropListener(ps, vals, "oninput", ForwardValue(NoOp));
  }

  /** A `Data` value binds the input's `value` attribute: the attribute shows the
      cell's current value and the cell gets one rebinding listener for it. */
  lemma InputBoundValue(inputType: Prop, d: Data, onInput: Option<Handler>, style: Prop, opts: Props,
                        vals: map<Data, Value>, el: Element)
    requires UniqueKeys(opts)
    requires d in vals && Lookup(opts, "value").None?
    requires inputType != Bound(d) && style != Bound(d)
    ensures "value" in InputAttrs(inputType, Bound(d), onInput, style, opts, vals)
    ensures InputAttrs(inputType, Bound(d), onInput, style, opts, vals)["value"] == ToJsString(vals[d])
    ensures BindingsFor(Plan(InputProps(inputType, Bound(d), onInput, style), vals), d, el) == [Rebind(el, "value")]
  {
    var ps := InputProps(inputType, Bound(d), onInput, style);
    var acts := Plan(ps, vals);
    InputPropsUnique(inputType, Bound(d), onInput, style);
    PropAttr(ps, vals, "value");
    OptsAttrsLookup(AttrsAfter(acts), opts, "value");
    BindingsForSingle(acts, d, el, 1);
  }

  // ---------------------------------------------------------------------------
  // Link and A

  function LinkProps(href: Prop, opts: Props, style: Prop): Props
  {
    Spread([("href", href), ("style", Default(style, Literal(Str(LinkStyle))))], opts)
  }

  /** `Link(href, text, opts, style)` (index.js:109-121). */
  method Link(href: Prop, text: Child, opts: Props, style: Prop) returns (el: Element)
    modifies BoundCells(LinkProps(href, opts, style))
    ensures fresh(el) && Created("a", LinkProps(href, opts, style), [text], el)
  {
    el := CreateElement("a", LinkProps(href, opts, style), [text]);
  }

  /** `A(href, text, opts, style)` (index.js:143-155) has the same body as `Link`. */
  method A(href: Prop, text: Child, opts: Props, style: Prop) returns (el: Element)
    modifies BoundCells(LinkProps(href, opts, style))
    ensures fresh(el) && Created("a", LinkProps(href, opts, style), [text], el)
  {
    el := Link(href, text, opts, style);
  }

  /** A link whose `style` is left out and not among the options has the
      default style; a `style` option replaces it; a literal `href` is written
      as given unless an option replaces it. */
  lemma LinkAttrs(href: Value, opts: Props, vals: map<Data, Value>)
    requires UniqueKeys(opts)
    ensures var attrs := AttrsAfter(Plan(LinkProps(Literal(href), opts, Literal(Undefined)), vals));
      (Lookup(opts, "style").None? ==> "style" in attrs && attrs["style"] == LinkStyle) &&
      (Lookup(opts, "style").Some? && Lookup(opts, "style").value.Literal? ==>
        "style" in attrs && attrs["style"] == ToJsString(Lookup(opts, "style").value.value)) &&
      (Lookup(opts, "href").None? ==> "href" in attrs && attrs["href"] == ToJsString(href))
  {
    var base: Props := [("href", Literal(href)), ("style", Literal(Str(LinkStyle)))];
    assert LinkProps(Literal(href), opts, Literal(Undefined)) == Spread(base, opts);
    SpreadAttr(base, opts, vals, "style");
    SpreadAttr(base, opts, vals, "href");
  }

  /** A literal string default the options do not override is written as given. */
  lemma SpreadDefault(base: Props, opts: Props, vals: map<Data, Value>, k: string, v: string)
    requires UniqueKeys(base) && UniqueKeys(opts)
    requires Lookup(opts, k).None? && Lookup(base, k) == Some(Literal(Str(v)))
    ensures k in AttrsAfter(Plan(Spread(base, opts), vals))
    ensures AttrsAfter(Plan(Spread(base, opts), vals))[k] == v
  {
    SpreadLookup(base, opts, k);
    SpreadUnique(base, opts);
    LiteralAttr(Spread(base, opts), vals, k, v);
  }

  // ---------------------------------------------------------------------------
  // Image

  function ImageProps(src: Prop, alt: Prop, opts: Props, style: Prop): Props
  {
    Spread([("src", src), ("alt", Default(alt, Literal(Str("")))), ("style", Default(style, Literal(Str(ImageStyle))))], opts)
  }

  /** `Image(src, alt, opts, style)` (index.js:123-132): no children. */
  method Image(src: Prop, alt: Prop, opts: Props, style: Prop) returns (el: Element)
    modifies BoundCells(ImageProps(src, alt, opts, style))
    ensures fresh(el) && Created("img", ImageProps(src, alt, opts, style), [], el)
  {
    el := CreateElement("img", ImageProps(src, alt, opts, style), []);
  }

  /** An image whose `alt` and `style` are left out and not among the options
      has an empty `alt` and the default style. */
  lemma ImageDefaults(src: Value, opts: Props, vals: map<Data, Value>)
    requires UniqueKeys(opts)
    requires Lookup(opts, "alt").None? && Lookup(opts, "style").None?
    ensures var attrs := AttrsAfter(Plan(ImageProps(Literal(src), Literal(Undefined), opts, Literal(Undefined)), vals));
      "alt" in attrs && attrs["alt"] == "" && "style" in attrs && attrs["style"] == ImageStyle
  {
    var base: Props := [("src", Literal(src)), ("alt", Literal(Str(""))), ("style", Literal(Str(ImageStyle)))];
    assert ImageProps(Literal(src), Literal(Undefined), opts, Literal(Undefined)) == Spread(base, opts);
    assert UniqueKeys(base);
    assert Lookup(base, "alt") == Some(Literal(Str("")));
    assert Lookup(base[1..], "style") == Lookup(base[2..], "style") == Some(Literal(Str(ImageStyle)));
    SpreadDefault(base, opts, vals, "alt", "");
    SpreadDefault(base, opts, vals, "style", ImageStyle);
  }

  // ---------------------------------------------------------------------------
  // Div

  function DivProps(opts: Props, style: Prop): Props
  {
    Spread([("style", Default(style, Literal(Str(DivStyle))))], opts)
  }

  /** `Div(opts, style)` (index.js:134-141): no children. */
  method Div(opts: Props, style: Prop) returns (el: Element)
    modifies BoundCells(DivProps(opts, style))
    ensures fresh(el) && Created("div", DivProps(opts, style), [], el)
  {
    el := CreateElement("div", DivProps(opts, style), []);
  }

  /** A div's attributes are its options' attributes plus `style`, which is the
      `style` option when there is one and the default style otherwise. */
  lemma DivAttrs(opts: Props, vals: map<Data, Value>, k: string)
    requires UniqueKeys(opts)
    ensures k != "style" ==>
      (k in AttrsAfter(Plan(DivProps(opts, Literal(Undefined)), vals)) <==>
        Lookup(opts, k).Some? && !IsListener(k, Lookup(opts, k).value))
    ensures Lookup(opts, "style").None? ==>
      "style" in AttrsAfter(Plan(DivProps(opts, Literal(Undefined)), vals)) &&
      AttrsAfter(Plan(DivProps(opts, Literal(Undefined)), vals))["style"] == DivStyle
  {
    var base: Props := [("style", Literal(Str(DivStyle)))];
    SpreadAttr(base, opts, vals, k);
    SpreadAttr(base, opts, vals, "style");
  }

  // ---------------------------------------------------------------------------
  // H

  /** The level `H` uses: levels outside 1 to 6 fall back to 1. */
  function HeadingLevel(level: int): (r: nat)
    ensures 1 <= r <= 6
    ensures 1 <= level <= 6 ==> r == level
    ensures !(1 <= level <= 6) ==> r == 1
  {
    if level < 1 || level > 6 then 1 else level
  }

  /** `h${level}` once the level is clamped. */
  function HeadingTag(level: int): string
  {
    "h" + NatToDecimal(HeadingLevel(level))
  }

  /** Every heading tag is one of `h1` to `h6`, and a level in range is kept. */
  lemma HeadingTagShape(level: int)
    ensures |HeadingTag(level)| == 2 && HeadingTag(level)[0] == 'h'
    ensures HeadingTag(level)[1] as int - '0' as int == HeadingLevel(level)
    ensures HeadingTag(level) in ["h1", "h2", "h3", "h4", "h5", "h6"]
  {
    var l := HeadingLevel(level);
    assert NatToDecimal(l) == [DigitChar(l)];
    if l == 1 {
      assert HeadingTag(level) == "h1";
    } else if l == 2 {
      assert HeadingTag(level) == "h2";
    } else if l == 3 {
      assert HeadingTag(level) == "h3";
    } else if l == 4 {
      assert HeadingTag(level) == "h4";
    } else if l == 5 {
      assert HeadingTag(level) == "h5";
    } else {
      assert HeadingTag(level) == "h6";
    }
  }

  function HeadingProps(opts: Props, style: Prop): Props
  {
    Spread([("style", Default(style, Literal(Str(HeadingStyle))))], opts)
  }

  /** `H(level, text, opts, style)` (index.js:157-172). `warned` says whether the
      level was out of range, which is when the source logs a warning. */
  method H(level: int, text: Child, opts: Props, style: Prop) returns (el: Element, ghost warned: bool)
    modifies BoundCells(HeadingProps(opts, style))
    ensures warned <==> level < 1 || level > 6
    ensures fresh(el) && Created(HeadingTag(level), HeadingProps(opts, style), [DefaultChild(text, Primitive(Str("")))], el)
  {
    var l := level;
    warned := false;
    if l < 1 || l > 6 {
      warned := true;
      l := 1;
    }
    el := CreateElement("h" + NatToDecimal(l), HeadingProps(opts, style), [DefaultChild(text, Primitive(Str("")))]);
  }
}
