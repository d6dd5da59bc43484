# uxjs core, modelled in Dafny

uxjs is a small browser UI helper library in one file, `index.js`. This project models the parts of it that have behaviour worth stating:

- **The reactive cell `Data`.** `get`, `listen` and `set` are modelled, with `set` notifying its listeners in registration order.
- **`createElement`.** It turns each prop into an attribute, an event listener or a live binding to a `Data` cell, and each child into a node.
- **The widget constructors.** `Button`, `Input`, `Link`, `A`, `Image`, `Div` and `H` are modelled, with their default parameters, their object spreads, their option loops and the heading-level clamp.
- **The control-flow elements.** `<ux-if>` and `UXIf` are modelled, and so are `<ux-for>` with its `setData` and `render`, and `UXFor`.

The modules:

- `JsValue`: the JavaScript values the library passes around and the coercions it relies on. These are `String(v)`, truthiness, the `textContent` conversion and ASCII `toLowerCase`.
- `Dom`: the part of the DOM the library touches. It is an `Element` class with a tag, an attribute map, an event registration list and a child list.
- `Reactive`: the `Data` class, the two kinds of listener the library registers on a cell, and the `For` class (the `<ux-for>` element).
- `Builder`: `createElement`. It is specified by pure functions: `Plan` is what each prop does, and `AttrsAfter`, `EventsAfter` and `BindingsFor` are the attributes, listeners and cell bindings that result. `Created` puts these together into what one `createElement` call builds, and the widgets' contracts are stated with it.
- `Widgets`: the UI pack.
- `ControlFlow`: the `If` class, `UXIf` and `UXFor`.
- `Scenarios`: two end-to-end properties. One is an attribute that follows its cell. The other is a list that follows its cell.

### What `<ux-if>` shows

The `condition` setter of `<ux-if>` (index.js:223-230) has a `then` branch and an `else` branch, chosen by the condition it reads back. That shape suggests the element should show the `then` text for a truthy condition, but as written it never does.

- The `If` class defines a `condition` setter and no getter, so `this.condition` inside the setter always reads `undefined`. The `else` text is shown whatever value is assigned.
- `UXIf` assigns the condition before it sets the `then` and `else` attributes, so a fresh `UXIf` element shows the empty string.

The model follows the code: see `ControlFlow.If.ShowsElse` and `ControlFlow.UXIf`.

## Model

| member | source | states |
|---|---|---|
| JsValue.NatToDecimal | index.js:163 | The decimal text of a number is non-empty, all digits, and has no leading zero |
| JsValue.DecimalRoundTrip | index.js:163 | Reading the decimal text back gives the number (the inverse of the `${level}` formatting) |
| JsValue.IntStringRoundTrip | index.js:14 | `String(n)` for an integer is its decimal notation, with a leading `-` for a negative number, and parses back to `n` |
| JsValue.LowerChar | index.js:12 | Lower-casing a character maps `A`-`Z` to `a`-`z` and keeps every other character; the result is never upper case |
| JsValue.AsciiLower | index.js:12 | `toLowerCase` keeps the length and lower-cases each character in place |
| Dom.Element.constructor | index.js:3 | `document.createElement(type)` gives an element with that tag and no attributes, listeners or children |
| Dom.Element.SetAttribute | index.js:14 | `setAttribute` writes one attribute and changes nothing else |
| Dom.Element.AddEventListener | index.js:12 | `addEventListener` appends a new event/handler pair, ignores a pair it already holds, and changes nothing else |
| Dom.Element.Append | index.js:19 | `append` adds the node at the end of the children and changes nothing else |
| Reactive.CallsAt | index.js:51 | The `k`-th call `set(x)` makes goes to the `k`-th listener, with `x`: registration order, each listener once |
| Reactive.ReboundStep | index.js:8-10 | One more listener adds its key when it rebinds the element, and changes nothing otherwise |
| Reactive.ReboundSingleKey | index.js:8-10 | When every rebinder of an element uses one key, a `set` rewrites that attribute and no other |
| Reactive.RenderingAt | index.js:275-278 | `render` makes one child per item, and child `k` is what the render function makes of item `k` and index `k` |
| Reactive.CallRebind | index.js:8-10 | Calling a rebinder rewrites its attribute and keeps every other element and list as recorded |
| Reactive.CallRerender | index.js:263 | Calling a re-render listener re-renders its list. It raises exactly when the list has a cell and a render function and the cell holds a non-array; an unconfigured list only reports an error |
| Reactive.Call | index.js:51 | One listener call keeps the rewritten/re-rendered invariant and reports whether it raised |
| Reactive.CallAll | index.js:51 | The `forEach` loop calls the listeners in order until one raises. The calls are recorded one by one as they are made, and they are the first `called` calls of `Calls`. Afterwards each target has been updated or not by exactly the listeners that ran |
| Reactive.Data.constructor | index.js:40-43 | A new cell holds `v`, has no listeners and has notified nobody |
| Reactive.Data.Listen | index.js:45-47 | `listen` appends the listener; the value and the notification history do not change |
| Reactive.Data.Set | index.js:49-52 | After `set(x)`, `get()` returns `x` and the listeners are unchanged. The history grows by the calls made, in order, each with `x`. Every bound attribute holds `String(x)` and every other attribute is unchanged. Every re-rendered list shows the new rendering. All listeners run unless a re-render raises |
| Reactive.For.constructor | index.js:244-251 | A new `<ux-for>` has no cell, no render function and nothing shown |
| Reactive.For.Render | index.js:267-279 | With no cell or render function, `render` reports an error and shows what it showed before. With a non-array value it clears the list and raises. Otherwise it shows exactly the rendering of the items |
| Reactive.For.SetData | index.js:253-265 | `setData` stores the cell and the render function (the default `<p>` renderer when the argument is omitted, none when it is `null`), appends one re-render listener to the cell (for a render function without effects), and renders once; the cell's value and history do not change |
| Builder.LookupMissing | index.js:4-5 | A key is missing from a props object exactly when no entry has that name |
| Builder.LookupAt | index.js:4-5 | A key the props hold sits at exactly one position, and that entry holds the looked-up value |
| Builder.EventName | index.js:12 | The event name is the key without its first two characters, lower-cased character by character |
| Builder.Classify | index.js:6-15 | A `Data` prop binds, and only a `Data` prop does. An `on…` function registers the lower-cased event, and only such a prop does. Any other prop writes `String(value)`. A bound attribute starts at the cell's current text |
| Builder.ChildrenOfAt | index.js:18-20 | One node per child, in order: a node child as given, any other value as a text node of `String(child)` |
| Builder.ChildrenOfConcat | index.js:18-20 | Children given in two runs produce the concatenation of the two runs' nodes |
| Builder.AttrsAfterKeys | index.js:4-16 | The attribute names are exactly the names of the props that are not event listeners |
| Builder.AttrsAfterLastWrite | index.js:4-16 | An attribute holds the text of the last prop that wrote it |
| Builder.AttrsAfterAbsent | index.js:11-15 | A name no prop writes is not an attribute |
| Builder.EventsAfterMembers | index.js:11-12 | The registrations are exactly the `on…` functions' event/handler pairs, each once |
| Builder.EventsAfterNone | index.js:11-12 | Actions that add no listener leave the element without registrations |
| Builder.BindingsForSingle | index.js:6-10 | A cell bound by exactly one prop gets exactly one listener, which rebinds that prop's attribute |
| Builder.BindingsForNone | index.js:6-10 | A cell that no prop binds gets no listener |
| Builder.PropAttr | index.js:4-16 | The element has attribute `key` iff the props hold `key` with something other than an `on…` function, and then it holds that prop's text |
| Builder.PropListener | index.js:11-12 | An `on…` function prop is registered for the event its name gives |
| Builder.NoListeners | index.js:11-12 | Props without an `on…` function register no listener |
| Builder.ApplyBound | index.js:6-10 | One pass for a `Data` prop: the attribute takes the cell's text and the cell gains one rebinder; the children are untouched |
| Builder.ApplyPlain | index.js:11-15 | One pass for any other prop: a listener or an attribute is added, and no cell changes |
| Builder.CreateElement | index.js:2-23 | The result is a new element with the given tag. Its attributes and listeners are those the props' dispatch gives, in order, and its children are the children's nodes. Every bound cell keeps its value and history and gains exactly the rebinders its props call for |
| Builder.AppendChildren | index.js:18-20 | The children loop appends each child's node in order and changes nothing else |
| Widgets.Put | index.js:115 | Assigning a key keeps every existing key in place, replaces the value of an existing key, and appends a new key last; no other key's value changes |
| Widgets.PutUnique | index.js:115 | Assigning a key keeps the object's keys unique |
| Widgets.Spread | index.js:113-116 | Spreading options keeps the base keys first, in their order |
| Widgets.SpreadUnique | index.js:113-116 | Spreading options keeps the object's keys unique |
| Widgets.SpreadLookup | index.js:113-116 | After a spread, a key holds the option's value when the options hold it and the base's value otherwise |
| Widgets.SpreadAttr | index.js:113-116 | The attribute a spread props object produces is the option's when the options hold the key and the default's otherwise |
| Widgets.OptsAttrsLookup | index.js:77-79 | After the options loop, each option's key holds `String(option)`, every other attribute is unchanged, and none is removed |
| Widgets.SetOpts | index.js:77-79 | The options loop writes the options' attributes over the element's and touches neither listeners nor children |
| Widgets.Button | index.js:60-82 | `Button` is `createElement('button', {onclick, style}, text, ...children)` with the options then written as attributes |
| Widgets.ButtonClick | index.js:62-72 | A function `onClick` registers a `click` listener and writes no `onclick` attribute. An omitted one registers nothing and writes `onclick="undefined"` |
| Widgets.ButtonStyleAttr | index.js:64-79 | The button's `style` is the `style` option when there is one, the default style otherwise |
| Widgets.Input | index.js:84-107 | `Input` is `createElement('input', {type, value, oninput, style}, '')` with the options then written as attributes |
| Widgets.InputDefaults | index.js:85-99 | A default input has `type="text"`, an empty value and the default style. Its `input` listener forwards to a no-op, and it has no `oninput` attribute |
| Widgets.InputBoundValue | index.js:86-95 | A `Data` value shows the cell's text in `value` and gives the cell one rebinder for `value` |
| Widgets.Link | index.js:109-121 | `Link` is `createElement('a', {href, style, ...opts}, text)` |
| Widgets.A | index.js:143-155 | `A` builds exactly what `Link` builds |
| Widgets.LinkAttrs | index.js:109-118 | The default link style applies unless a `style` option replaces it. A literal `href` is written as given unless an option replaces it |
| Widgets.Image | index.js:123-132 | `Image` is `createElement('img', {src, alt, style, ...opts})` with no children |
| Widgets.ImageDefaults | index.js:123-129 | An image with `alt` and `style` left out and not among the options has an empty `alt` and the default style |
| Widgets.Div | index.js:134-141 | `Div` is `createElement('div', {style, ...opts})` with no children |
| Widgets.DivAttrs | index.js:134-138 | A div's attributes other than `style` are exactly its non-listener options. `style` is the default unless an option replaces it |
| Widgets.HeadingLevel | index.js:158-161 | A level in 1..6 is kept and any other level becomes 1 |
| Widgets.HeadingTagShape | index.js:162-163 | The heading tag is `h` followed by the digit of the clamped level, one of `h1` to `h6` |
| Widgets.H | index.js:157-172 | `H` warns exactly for an out-of-range level and builds `createElement('h<level>', {style, ...opts}, text)` with the clamped level and with `''` as the text when it is `undefined` |
| ControlFlow.If.constructor | index.js:216-221 | A new `<ux-if>` has no attributes and shows nothing |
| ControlFlow.If.SetCondition | index.js:223-230 | Assigning a condition clears the container and shows exactly one text node, chosen by the condition the setter reads back |
| ControlFlow.If.ShowsElse | index.js:223-230 | Whatever is assigned, the `else` text is shown, because the read-back condition is always `undefined` |
| ControlFlow.UXIf | index.js:235-241 | `UXIf` sets `then` and `else` to `String(text)` (`''` when the text is `undefined`) and shows the empty string |
| ControlFlow.UXFor | index.js:284-288 | `UXFor` makes a new `<ux-for>` bound to the cell, appends one re-render listener (for a render function without effects) and renders once. It raises exactly when a render function is in place (given, or the default when omitted) and the cell holds a non-array; with a `null` render function it only reports an error |
| Scenarios.BuildBound | index.js:6-10 | A new cell bound to `key` shows its value in attribute `key` and has exactly one listener, which rebinds `key` |
| Scenarios.BindLast | index.js:4-10 | Props that bind nothing followed by one bound prop: the cell is the only bound cell, and the attributes are the others' plus `key` |
| Scenarios.BindLastListener | index.js:8-10 | That cell gets exactly one listener, for `key` |
| Scenarios.PlanIgnoresValues | index.js:6-15 | Props that bind no cell produce the same actions whatever the cells hold |
| Scenarios.BoundAttributeFollowsCell | index.js:6-10 | After `set(w)`, the bound attribute holds `String(w)` and every other attribute is what the other props gave |
| Scenarios.ListFollowsCell | index.js:263-278 | After `set(items)`, a `UXFor` list shows exactly the rendering of `items`, one child per item, and nothing of the previous array |

## Left out

- `displayElement`, `css` and `srcCss` (index.js:25-37) are left out. They only append to the live document body.
- `setTitle`, `setMeta`, `setFavicon` and their getters (index.js:174-212) are left out. They read and write global document state outside the elements the library builds.
- `customElements.define` and the shadow roots are left out. Each control-flow element's private container is the field `shown`.
- Event dispatch is not modelled. A handler is an opaque token whose only visible trait is its source text, and `Input`'s `(e) => onInput(e.target.value)` wrapper is the token `ForwardValue(onInput)`.
- Console output is a ghost flag: `warned` for `H`, and `errored` for `<ux-for>` when `render` runs unconfigured.
- Values are integers, strings, booleans, `null`, `undefined` and arrays. Floating-point numbers, `NaN` and plain objects are not modelled. A `Data` cell used where the library calls `String` on it becomes `"[object Object]"`.
- `for..in` order is the order of the props sequence. JavaScript's rule that integer-like keys come first is not modelled, and neither are inherited enumerable properties.
- `Dom.Element.Append`: `append` and `appendChild` move a node that already has a parent, and raise `HierarchyRequestError` for an ancestor of the element. The model always adds the node at the end of the list. So a node passed twice to `createElement` counts as two children (`Builder.ChildrenOfAt`), where the document keeps one. Likewise, a custom render function that returns the same node for every item shows one child, not one per item (`Reactive.For.Render`, `Reactive.RenderingAt`). The earlier parent of a moved node is not updated either.
- `Dom.Element.SetAttribute`: in an HTML document `setAttribute` lower-cases the ASCII letters of the attribute name, and it raises `InvalidCharacterError` for a name that is not valid (`''`, `'a b'`). The model keeps the name as given and never raises. So props `Style` and `style` give two attributes in the model and one in the document, and `className` stays `className`. `Builder.PropAttr`, `Builder.AttrsAfterKeys`, `Widgets.DivAttrs` and `Widgets.ButtonStyleAttr` hold for names as the model stores them.
- `Dom.Element.constructor`: in an HTML document `document.createElement` lower-cases the ASCII letters of the tag, and it raises `InvalidCharacterError` for an invalid name. The model keeps the tag as given. Every tag the widgets use is already lower case.
- `Builder.EventName`: `toLowerCase` lower-cases every Unicode letter and can change the length of the string (`'İ'` becomes two code units). `JsValue.LowerChar` and `JsValue.AsciiLower` lower-case only `A` to `Z`, so an `on…` key with a non-ASCII letter gives a different event name (`onÉv` gives `Év`, not `év`).
- `JsValue.IntStringRoundTrip`: `Value.Int` is an unbounded integer. A JavaScript number holds integers exactly only up to 2^53, and `String(n)` uses exponent notation from 10^21 on (`1e+21`). The decimal text and the round trip are only those of JavaScript for integers of magnitude below 10^21 that a number holds exactly.
- `Reactive.RenderItem`: the default renderer's `<p>` is a value holding its text, so the freshness and identity of each paragraph are not modelled. A custom render function is assumed to return a node; `appendChild` of a non-node would raise.
- `Reactive.For.SetData`: a `data` argument that is not a `Data` cell (so `data.listen` is not a function) is not modelled; the parameter has type `Data`. A custom render function is a pure function of item and index. It binds no cell, calls no `set`, registers no listener and does not touch the container. The listener-list clauses hold only for such functions.
- `Reactive.Data.Set`: only a re-render over a non-array can raise. A rebinder never raises, and custom render functions are treated as total. A custom render function is a pure function of item and index. It binds no cell, calls no `set`, registers no listener and does not touch the container. The listener-list clauses hold only for such functions.
- `Widgets.H`: the level is an integer. A string level (which `h${level}` would print as given) and an `undefined` level (which the default turns into 1) are not modelled.
- `Widgets.Input`: `setAttribute('value', …)` sets the attribute. The field's live value is not modelled.
- `ControlFlow.UXIf` and `ControlFlow.UXFor`: `createElement('ux-if')` and `createElement('ux-for')` take no props and no children, so they are modelled by the element constructors.
- `ControlFlow.UXFor`: the clause that the cell gains exactly one re-render listener holds only when the render function has no effects. A custom render function is a pure function of item and index. It binds no cell, calls no `set`, registers no listener and does not touch the container. The listener-list clauses hold only for such functions.
