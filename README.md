# CSS selector builder, modelled in Dafny

This project models the CSS selector builder of `src/06-objects-tasks.js`. The builder has three parts:

- `CssSelector` is a mutable accumulator with six slots. Element, id and pseudo-element hold one value each. Class, attribute and pseudo-class are append-only lists.
- The mutators for element, id and pseudo-element first run a duplicate check. Every mutator except `pseudoElement` then runs an order check, which uses the fixed ranks element < id < class < attribute < pseudo-class < pseudo-element. A mutator writes only after its checks pass.
- `stringify` renders the slots in rank order with the prefixes `#`, `.`, `[..]`, `:` and `::`.
- `combine` renders two selectors and joins them as `A + " " + combinator + " " + B`. The result is an immutable combined selector whose `stringify` returns that string.
- The `cssSelectorBuilder` facade creates a fresh `CssSelector` for every entry point.

Layout:

- `selector_parts.dfy` (module `SelectorParts`) is the value-level specification:
  - `Parts` holds the six slots.
  - `Call` is one mutator call with its argument.
  - `Apply` is the effect of one call. It returns either the new state or `Duplicate` / `Order`.
  - `Run` is a chain of calls, which aborts at the first error.
  - `Render` is `stringify`.
  - `Fragment` is the text one accepted call adds to the rendering.
- `css_selector.dfy` (module `CssSelectors`) holds the class `CssSelector`. Its six fields are updated in place by `Element`, `Id`, `Class`, `Attr`, `PseudoClass` and `PseudoElement`, each proved against `Apply`. `CheckIsNotSetted` is the order check, written as a loop over the ranks. The module also holds the immutable `CombinedSelector` and `Combine`.
- `selector_laws.dfy` (module `SelectorLaws`) holds the properties of the model.
- `builder.dfy` (module `CssSelectorBuilder`) is the facade. It also holds `IdClassScenario`, `AttrScenario` and `ErrorScenarios`, which run the documented example chains on real builder objects.

The model keeps the builder's two notions of "already set":

- The duplicate checks and `stringify` test a singleton slot for truthiness: present and non-empty (`Truthy`).
- The order check tests `!== undefined`: present at all (`IsSet`).

So an empty-string element may be set a second time, but an empty-string id still blocks a later element (`SelectorLaws.EmptyStringQuirk`). A list slot is undefined exactly when it is empty, because the builder creates each list with its first entry.

Two consequences of the code:

- The "too many parts" error (src/06-objects-tasks.js:149 says a part "should not occur more then one time") fires only when the stored value is truthy. An empty value already stored does not trigger it.
- A list part may follow itself (`class` after `class`), as the comment at src/06-objects-tasks.js:69-71 allows. Only a strictly higher-ranked part already set causes the order error.

## Model

| member | source | states |
|---|---|---|
| SelectorParts.Apply | src/06-objects-tasks.js:154-206 | A call raises the duplicate error iff its part is a singleton whose slot is truthy. It raises the order error iff that does not hold and some slot of higher rank is defined. Otherwise it succeeds: a singleton slot becomes `[value]`, a list slot gets `value` appended after its earlier entries, and every other slot is unchanged |
| SelectorLaws.SlotsDetermineParts | src/06-objects-tasks.js:147-152 | The six slots determine the builder state, so the slot-wise contract of `Apply` fixes the new state completely |
| SelectorLaws.PseudoElementNeverOutOfOrder | src/06-objects-tasks.js:201-206 | Setting the pseudo-element never raises the order error. It fails exactly when a truthy pseudo-element is already set |
| SelectorLaws.ApplyOnlyAdds | src/06-objects-tasks.js:159-206 | A successful call keeps every defined slot defined and defines its own slot |
| CssSelectors.CssSelector.constructor | src/06-objects-tasks.js:147-152 | A new builder has all six slots undefined |
| CssSelectors.CssSelector.CheckIsNotSetted | src/06-objects-tasks.js:154-157 | Reports the order error iff some slot of rank `from` or higher is defined, and reports success otherwise |
| CssSelectors.CssSelector.Element | src/06-objects-tasks.js:167-173 | Duplicate check on a truthy element, then order check on id and all later slots, then stores the element. The outcome and the new fields are those `Apply` gives. On either error no field changes |
| CssSelectors.CssSelector.Id | src/06-objects-tasks.js:175-181 | Duplicate check on a truthy id, then order check on class and all later slots, then stores the id, as `Apply` says. On error no field changes |
| CssSelectors.CssSelector.Class | src/06-objects-tasks.js:183-187 | Order check on attribute, pseudo-class and pseudo-element, then appends to the classes, as `Apply` says. On error no field changes |
| CssSelectors.CssSelector.Attr | src/06-objects-tasks.js:189-193 | Order check on pseudo-class and pseudo-element, then appends to the attributes, as `Apply` says. On error no field changes |
| CssSelectors.CssSelector.PseudoClass | src/06-objects-tasks.js:195-199 | Order check on the pseudo-element, then appends to the pseudo-classes, as `Apply` says. On error no field changes |
| CssSelectors.CssSelector.PseudoElement | src/06-objects-tasks.js:201-206 | Duplicate check on a truthy pseudo-element only, then stores it, as `Apply` says. On error no field changes |
| SelectorParts.Run | src/06-objects-tasks.js:154-206 | A chain of mutator calls on one builder, stopping at the first error as a thrown exception does. An empty chain leaves the state as it is. A successful chain never undefines a slot and keeps every truthy element, id and pseudo-element as it was. Only a non-empty chain can fail |
| SelectorParts.Render | src/06-objects-tasks.js:208-223 | `stringify` as a function of the state: the element, `#id`, each `.class`, each `[attr]`, each `:pseudoClass`, then `::pseudoElement`, in that rank order; element, id and pseudo-element appear only when truthy. Its contract: the result starts with a truthy element, ends with `::` and a truthy pseudo-element, and is empty for a fresh builder. Its properties are `RenderAfter` and `RenderOfRun` |
| CssSelectors.CssSelector.Stringify | src/06-objects-tasks.js:208-223 | Reads the six fields, changes none of them, and returns `Render` of the current state. So two calls with no mutation between them return the same string |
| CssSelectors.CombinedSelector.Stringify | src/06-objects-tasks.js:231-235 | Returns the stored combined string unchanged |
| SelectorLaws.WrapSnoc | src/06-objects-tasks.js:214-219 | Rendering a list with one more entry appends that entry, wrapped in its prefix and suffix, to the list's rendering |
| SelectorLaws.RenderAfter | src/06-objects-tasks.js:208-223 | After any successful call, `stringify` returns what it returned before, followed by exactly that call's fragment (`v`, `#v`, `.v`, `[v]`, `:v`, `::v`; empty id and pseudo-element values add nothing) |
| SelectorLaws.RenderAfterLead | src/06-objects-tasks.js:208-213 | The `RenderAfter` property for element and id calls |
| SelectorLaws.RenderAfterClass | src/06-objects-tasks.js:183-187 | The `RenderAfter` property for class calls: an accepted class call appends `.v` |
| SelectorLaws.RenderAfterAttr | src/06-objects-tasks.js:189-193 | The `RenderAfter` property for attribute calls: an accepted attribute call appends `[v]` |
| SelectorLaws.RenderAfterPseudoClass | src/06-objects-tasks.js:195-199 | The `RenderAfter` property for pseudo-class calls: an accepted pseudo-class call appends `:v` |
| SelectorLaws.RenderLeadOnly | src/06-objects-tasks.js:208-213 | With no class, attribute, pseudo-class or pseudo-element, `stringify` is the element followed by `#id` |
| SelectorLaws.RenderAddClass | src/06-objects-tasks.js:214-215 | Appending a class when no later part is set appends `.class` to the rendering |
| SelectorLaws.RenderAddAttr | src/06-objects-tasks.js:216-217 | Appending an attribute when no later part is set appends `[attr]` to the rendering |
| SelectorLaws.RenderAddPseudoClass | src/06-objects-tasks.js:218-219 | Appending a pseudo-class when no pseudo-element is set appends `:pseudoClass` to the rendering |
| SelectorLaws.RenderSetPseudoElement | src/06-objects-tasks.js:220-221 | Setting the pseudo-element appends `::value` to the rendering, or nothing when the value is empty |
| SelectorLaws.RenderOfRun | src/06-objects-tasks.js:208-223 | A chain of calls that completes renders as the earlier rendering followed by the fragments of its calls, in call order |
| SelectorLaws.RunSucceedsFrom | src/06-objects-tasks.js:154-206 | A chain whose parts never go back in rank, and which repeats only list parts, completes without error from any state that admits its first call |
| SelectorLaws.RunSucceeds | src/06-objects-tasks.js:154-206 | Such a chain completes without error on a fresh builder |
| SelectorLaws.RunOkIsWellOrdered | src/06-objects-tasks.js:154-206 | Suppose the starting state holds no empty element, id or pseudo-element (`NoEmptySingletons`), and every element, id and pseudo-element call of the chain has a non-empty value. Then a chain that completes is in rank order, and the starting state admitted each of its calls |
| SelectorLaws.RunSucceedsIff | src/06-objects-tasks.js:154-206 | If every element, id and pseudo-element call has a non-empty value, a chain on a fresh builder completes iff it is in rank order and sets each singleton part at most once. Class, attribute and pseudo-class values may be empty |
| SelectorLaws.RepeatedSingletonIsDuplicate | src/06-objects-tasks.js:149-181 | After a completed chain that set the element, id or pseudo-element to a non-empty value, a further call to that part raises the duplicate error, whatever other parts the chain set in between. The duplicate check runs before the order check |
| SelectorLaws.EmptyStringQuirk | src/06-objects-tasks.js:154-173 | An empty element may be followed by a second element. An empty id still makes a later element an order error |
| CssSelectors.Combine | src/06-objects-tasks.js:225-235 | The combined string is the left rendering, a space, the combinator, a space and the right rendering, with each piece at its position and of its length |
| CssSelectorBuilder.NestedCombine | src/06-objects-tasks.js:142-144 | Combining with an already combined selector on the right gives `A c1 B c2 C`, with single spaces around each combinator |
| CssSelectorBuilder.CombineAssociative | src/06-objects-tasks.js:225-235 | Nesting a combination on the left or on the right gives the same combined selector |
| CssSelectorBuilder.Start | src/06-objects-tasks.js:117-140 | A facade entry point creates a fresh builder and applies one call to it. That first call never raises an error |
| CssSelectorBuilder.Element | src/06-objects-tasks.js:118-120 | Returns a fresh builder whose only defined slot is the element |
| CssSelectorBuilder.Id | src/06-objects-tasks.js:122-124 | Returns a fresh builder whose only defined slot is the id |
| CssSelectorBuilder.Class | src/06-objects-tasks.js:126-128 | Returns a fresh builder whose only defined slot is a one-entry class list |
| CssSelectorBuilder.Attr | src/06-objects-tasks.js:130-132 | Returns a fresh builder whose only defined slot is a one-entry attribute list |
| CssSelectorBuilder.PseudoClass | src/06-objects-tasks.js:134-136 | Returns a fresh builder whose only defined slot is a one-entry pseudo-class list |
| CssSelectorBuilder.PseudoElement | src/06-objects-tasks.js:138-140 | Returns a fresh builder whose only defined slot is the pseudo-element |
| CssSelectorBuilder.IdClassScenarioRender | src/06-objects-tasks.js:93-94 | The id `main` with classes `container` and `editable` renders as `#main.container.editable` |
| CssSelectorBuilder.AttrScenarioRender | src/06-objects-tasks.js:96-97 | The element `a` with attribute `href$=".png"` and pseudo-class `focus` renders as `a[href$=".png"]:focus` |

The facade's `combine` is `CssSelectors.Combine`: the throwaway `CssSelector` it creates to call `combine` on has no effect on the result.

## Left out

- `Rectangle` and `getArea`: a product of JavaScript floating-point numbers, with no logic beyond that.
- `getJSON` and `fromJSON`: thin wrappers over the host's JSON serializer, plus a runtime prototype reassignment. Both are foreign calls.
- The wording of the two error messages. They are modelled as the error values `Duplicate` and `Order`.
- The unused local declarations inside `CssSelector` and the module export list.
- Mutator arguments that are not strings. For example, `element(undefined)` leaves the slot undefined in JavaScript. The model only takes strings.
- Chaining by returning `this`. A mutator reports `Pass` instead of returning the builder, and a thrown error becomes `Fail`. `SelectorParts.Run` gives the meaning of a chain that stops at the first throw.
- In-place `push` onto an existing array. The array never leaves the object, so it is modelled as appending to a sequence field, and no aliasing is captured.
- Concurrent use of one builder: the source is single-threaded.
