# right-menu utilities in Dafny

This project models the helper module of the right-menu context-menu widget,
`packages/core/src/utils/index.ts`, and proves properties of it. The module has
five pieces:

- **Attribute merge (`filterAttrs`).** Merges the allow-listed DOM attributes of
  a menu item's options and of the caller's parameters. A key that both supply
  gets both values joined by that key's separator.
- **Case conversion (`handleCamelCase`).** Turns a camelCase property name into
  kebab-case.
- **Style serialisation (`handleStyle`).** Turns a style object into CSS
  declaration text. CSS text passes through unchanged.
- **Value formatting (`getValue`).** Turns a number into a pixel length and
  leaves a string as it is.
- **Menu placement (`layoutMenuPositionEffect`).** Places a menu, or a submenu,
  next to its anchor and inside the window:
  - It follows the direction inherited from the anchor's parent element, otherwise the
    argument, defaulting to Right.
  - It flips to the other side at most once, and records the flip on the menu.
  - It aligns the menu with the anchor's top, otherwise with the anchor's bottom.
  - When neither fits, it caps the menu's height to the taller free region less
    5 pixels and makes it scroll.

Files:

- `wrappers.dfy` (module `Wrappers`): `Option`, `Result` and `Outcome`.
- `number_text.dfy` (module `NumberText`): how an integer becomes text
  (`n + 'px'`), with a parser that proves the text can be read back.
- `utils.dfy` (module `Utils`): the five pieces above.
  - The pure code is modelled as functions: case conversion, `getValue`, and
    the rules that `layoutToRight`, `layoutToLeft` and `layoutToTop` apply.
  - Code that updates state step by step is modelled as methods:
    - `FilterAttrs` fills a map in a loop.
    - `HandleStyle` pushes declarations in a loop.
    - `LayoutMenuPositionEffect` and its helpers update the fields of a
      `MenuElement` object: `direction`, `left`, `top`, `maxHeight` and
      `overflowY`.
  - Each method's `ensures` ties its result, or the object's new state, to the
    specification functions. Lemmas state the properties of those functions.

Conventions of the model:

- A "falsy" attribute or style value is an absent key or the empty string.
- `Direction` is `Left | Right | Unsupported`. `Unsupported` stands for any
  other value of the enum. The direction argument is an `Option`: `None` is an
  omitted argument, which defaults to Right.
- The anchor (`Base`) is a mouse point or an element, and an element has
  either no parent element (`NoParentElement`) or one (`ParentElement`). The
  parent element can be any element, menu or not. Its `direction` is an
  `Option`: `None` is a falsy or missing direction, as on a parent that is not
  a menu. A mouse point has width and height 0.
- The menu's measured `width`/`height` and its layout `offsetWidth`/
  `offsetHeight` are separate fields. The code tests overflow with the layout
  size (lines 92 and 114) and repositions with the measured size (lines 93, 101
  and 115). The model keeps that difference.
- Pixel values are integers. Style fields hold the text the code writes
  (`Px(n)`, e.g. `"630px"`).

Behaviour of the code that the model keeps:

- For an anchor with a parent element, `menu.direction` is written (line 85)
  *before* the direction is checked. So on the unsupported-direction error
  path, the direction may have changed, but no style field has.
- The error names the direction argument (line 144), not the inherited
  direction that caused it.
- When both free regions are too small, the "above" choice (a tie included)
  aligns the capped menu's bottom with the anchor's bottom, so it starts at
  `y = 5`. The "below" choice starts at the anchor's top and ends 5 pixels
  above the window's bottom edge.
- A flipped horizontal position is never checked again, so it can lie
  outside the window (`FlippedPositionNotRechecked`).
- A key listed twice in `ATTR_LIST` can have its parameter value appended
  twice (`RepeatedKeyAppendsTwice`). The closed form for values
  (`MergedValue`) is proved for a list without repetitions.

## Model

| member | source | states |
|---|---|---|
| `Utils.FilterAttrs` | packages/core/src/utils/index.ts:28-46 | The result keeps only keys of `ATTR_LIST`. A listed key is present exactly when `options` or `params` supplies a non-empty value for it, and no kept value is empty. The result equals the fold `Merged` of the loop body over the list. |
| `Utils.Supplies` | packages/core/src/utils/index.ts:34-38 | Defined as the truthiness tests `options[key]`, `params[key]` and `res[key]`: the key is present with a non-empty value. |
| `Utils.MergeKey` | packages/core/src/utils/index.ts:34-43 | One visit of the `forEach` body changes only its own key. That key is present afterwards iff it was before or either object supplies it. When neither supplies it, the object is unchanged. |
| `Utils.Merged` | packages/core/src/utils/index.ts:32-44 | The object built by visiting the keys in order holds only keys from the list. |
| `Utils.MergedKeys` | packages/core/src/utils/index.ts:32-45 | For any key list, a key is in the merged object iff it is listed and one of the two objects supplies it. Keys of `params` outside the list are dropped. Every kept value is non-empty. |
| `Utils.MergedValue` | packages/core/src/utils/index.ts:34-43 | With no repeated key in the list: a key both objects supply holds `options[key] + SPLIT_SYMBOL[key] + params[key]`; a key only one supplies holds that value unchanged. |
| `Utils.RepeatedKeyAppendsTwice` | packages/core/src/utils/index.ts:33-43 | A key listed twice that only `params` supplies ends up as `value + sep + value`, because the second visit appends again. |
| `Utils.ToLower` | packages/core/src/utils/index.ts:51 | `toLowerCase` on a matched capital gives a lower-case letter that converts back to that capital. Any other character is kept. |
| `Utils.KebabTail` | packages/core/src/utils/index.ts:49-52 | Rewriting every character after index 0 leaves no `A`-`Z`. The length grows by exactly one `-` per capital. |
| `Utils.KebabTailCons` | packages/core/src/utils/index.ts:49-52 | The replacement works one character at a time: a capital becomes `-` and its lower case, and any other character is kept. |
| `Utils.KebabTailAppend` | packages/core/src/utils/index.ts:49-52 | The replacement is a homomorphism: converting `a + b` gives the conversion of `a` followed by that of `b`. |
| `Utils.HandleCamelCase` | packages/core/src/utils/index.ts:48-53 | The output has no `A`-`Z`. Its length is the input's plus one per capital not at index 0. The empty string maps to itself. |
| `Utils.HandleCamelCaseOfLower` | packages/core/src/utils/index.ts:48-53 | A string without `A`-`Z` is returned unchanged, because the regex matches nothing. |
| `Utils.HandleCamelCaseIdempotent` | packages/core/src/utils/index.ts:48-53 | Applying the conversion twice equals applying it once. |
| `Utils.HandleCamelCaseRoundTrip` | packages/core/src/utils/index.ts:48-53 | On a camelCase identifier (no `-`, no leading capital), `CamelFromKebab` undoes the conversion: every capital was lower-cased and prefixed with `-`, and every other character was kept. |
| `Utils.HandleCamelCaseInjective` | packages/core/src/utils/index.ts:48-53 | Two camelCase identifiers with the same kebab-case form are equal. |
| `Utils.HandleCamelCaseExample` | packages/core/src/utils/index.ts:48-53 | `"zIndex"` becomes `"z-index"`. |
| `Utils.HandleStyle` | packages/core/src/utils/index.ts:55-65 | CSS text is returned unchanged. A style object gives the declarations `kebab(key): value` of its non-empty entries, in key order, joined by `"; "`. The result is `""` exactly when every value is empty. |
| `Utils.Declaration` | packages/core/src/utils/index.ts:62 | A declaration is `kebab(key)`, then `": "`, then the value, with nothing else. |
| `Utils.Declarations` | packages/core/src/utils/index.ts:59-63 | Defined as the declarations of the entries with a non-empty value, in entry order. Its contract states that there are at most as many declarations as entries. |
| `Utils.StyleTextEmpty` | packages/core/src/utils/index.ts:59-64 | The serialised text of a style object is `""` exactly when every value is empty. |
| `Utils.DeclarationsNonEmpty` | packages/core/src/utils/index.ts:59-63 | There is one declaration per entry with a non-empty value, and no declaration is empty. |
| `Utils.DeclarationsEmpty` | packages/core/src/utils/index.ts:59-63 | There are no declarations exactly when every value is empty. |
| `Utils.DeclarationsAppend` | packages/core/src/utils/index.ts:60-63 | Declarations follow the entry order: those of `a + b` are those of `a` followed by those of `b`. |
| `Utils.Join` | packages/core/src/utils/index.ts:64 | Defined as `Array.prototype.join`: `""` for no parts, the part itself for one, and otherwise the first part, the separator and the join of the rest. `JoinEmpty` and `JoinAppend` state its properties. |
| `Utils.JoinEmpty` | packages/core/src/utils/index.ts:64 | Joining non-empty parts gives `""` only when there are no parts. |
| `Utils.JoinAppend` | packages/core/src/utils/index.ts:64 | Joining `a + b` (both non-empty) is joining `a`, then the separator, then joining `b`. |
| `Utils.StyleConcat` | packages/core/src/utils/index.ts:55-65 | When each of two style objects renders at least one declaration (has at least one non-empty value), the text of the two in sequence is the text of each, separated by `"; "`. |
| `Utils.GetValue` | packages/core/src/utils/index.ts:150-156 | A string is returned unchanged. A number becomes a pixel length that parses back to that number. |
| `NumberText.DecimalString` | packages/core/src/utils/index.ts:154 | The text of a negative integer is `-` followed by digits. The text of any other integer is digits only. |
| `NumberText.Px` | packages/core/src/utils/index.ts:19-20 | The pixel text `n + 'px'` (also `` `${n}px` `` at line 128) ends in `px` and has at least one character before it. |
| `NumberText.DecimalStringRoundTrip` | packages/core/src/utils/index.ts:154 | The decimal text of an integer, as `val + 'px'` produces it, parses back to the integer. |
| `NumberText.PxRoundTrip` | packages/core/src/utils/index.ts:19-20 | A pixel length written as `n + 'px'` reads back as `n`. |
| `NumberText.PxInjective` | packages/core/src/utils/index.ts:128 | Distinct pixel values are written as distinct style texts. |
| `Utils.BaseWidth` | packages/core/src/utils/index.ts:77 | The anchor's width is the element's width, and defaults to 0 for a mouse point, which has none. |
| `Utils.BaseHeight` | packages/core/src/utils/index.ts:78 | The anchor's height is the element's height, and defaults to 0 for a mouse point, which has none. |
| `Utils.ArgumentDirection` | packages/core/src/utils/index.ts:70 | An omitted direction argument defaults to Right. A given one is used as it is. |
| `Utils.InheritedDirection` | packages/core/src/utils/index.ts:83-87 | A direction is written to `menu.direction` iff the anchor is an element with a parent element, whether or not that parent is a menu. It is the parent's direction when that is truthy, and otherwise the argument after its default. |
| `Utils.EffectiveDirection` | packages/core/src/utils/index.ts:81-87 | The direction the placement follows is the parent element's direction when the anchor has a parent element whose direction is truthy. Otherwise it is the argument after its default. |
| `Utils.PlaceRight` | packages/core/src/utils/index.ts:89-98 | No flip happens iff `offsetWidth + baseX + baseW <= innerWidth`. Then `x = baseX + baseW` and the menu ends inside the window. Otherwise the menu flips once to Left with `x + width = baseX`. |
| `Utils.PlaceLeft` | packages/core/src/utils/index.ts:100-109 | No flip happens iff `baseX - width >= 0`. Then the menu ends at the anchor's left edge, with `x >= 0`. Otherwise the menu flips once to Right with `x = baseX + baseW`. |
| `Utils.PlaceVertically` | packages/core/src/utils/index.ts:111-133 | Three cases: `y = baseY` when `offsetHeight + baseY <= innerHeight`; otherwise bottom-aligned (`y + height = baseY + baseH`) when that is `>= 0`; in both, no cap. A cap is set iff neither fits. The cap is `max(innerHeight - baseY, baseY + baseH) - 5`. With a cap, `y = baseY` when the space below is strictly larger, otherwise the capped menu ends at `baseY + baseH`. |
| `Utils.Placement` | packages/core/src/utils/index.ts:81-147 | The placement fails iff the effective direction is neither Left nor Right. The error names the direction argument. A flip always records the direction opposite to the effective one: Right when placing by Left, and Left when placing by Right. |
| `Utils.FallbackWithinViewport` | packages/core/src/utils/index.ts:121-130 | For an anchor inside the window, the capped menu lies within `[0, innerHeight]`. It is at `y = 5` when placed above, and ends at `innerHeight - 5` when placed below. |
| `Utils.PlacementFitsViewport` | packages/core/src/utils/index.ts:89-133 | Take an anchor inside the window and a menu whose layout size equals its measured size. If no flip and no cap were needed, the menu lies entirely inside the window. |
| `Utils.NestedMenuInheritsDirection` | packages/core/src/utils/index.ts:83-109 | Under a parent element whose direction is Left, a submenu writes Left to its direction before placing and is placed by the Left rule, whatever direction it was asked for. That rule still flips it to Right exactly when `x - width < 0`; otherwise no flip happens. |
| `Utils.ScenarioFlipToLeft` | packages/core/src/utils/index.ts:89-98 | Window 800x600, anchor (750, 100) of height 20, menu 120x50, Right: the result is `x = 630`, `y = 100`, flipped to Left. |
| `Utils.ScenarioBottomAligned` | packages/core/src/utils/index.ts:111-120 | Window height 600, anchor at `y = 580` of height 20, menu height 100: bottom-aligned at `y = 500`, no cap. |
| `Utils.FlippedPositionNotRechecked` | packages/core/src/utils/index.ts:92-96 | A menu flipped from Right can start left of the window (`x = -70`), because the flipped position is not tested again. |
| `Utils.NestedMenusScenario` | packages/core/src/utils/index.ts:83-96 | A menu opened at (750, 100) in an 800x600 window flips to the left (`left` = `630px`). A submenu opened from one of its items reads the recorded Left, ignores its own Right, and is placed at `left` = `530px` with direction Left. |
| `Utils.MenuElement.constructor` | packages/core/src/utils/index.ts:67-73 | A new menu element has the given measured and layout sizes, no direction and empty style fields. |
| `Utils.UpdatePosition` | packages/core/src/utils/index.ts:18-21 | `left` and `top` become the pixel texts of `x` and `y`. |
| `Utils.LayoutToRight` | packages/core/src/utils/index.ts:89-98 | Returns the `x` of `PlaceRight`. Writes `Left` to `menu.direction` exactly when it flips, and otherwise leaves the direction unchanged. |
| `Utils.LayoutToLeft` | packages/core/src/utils/index.ts:100-109 | Returns the `x` of `PlaceLeft`. Writes `Right` to `menu.direction` exactly when it flips, and otherwise leaves the direction unchanged. |
| `Utils.LayoutToTop` | packages/core/src/utils/index.ts:111-133 | Returns the `y` of `PlaceVertically`. Sets `maxHeight` to the cap's pixel text and `overflowY` to `auto` exactly when there is a cap, and otherwise leaves both unchanged. |
| `Utils.LayoutMenuPositionEffect` | packages/core/src/utils/index.ts:67-148 | The menu's direction becomes the flip if any, else the inherited direction if any, else it is unchanged. On an unsupported direction: fails with that error and leaves `left`, `top`, `maxHeight` and `overflowY` unchanged. Otherwise: writes `left`/`top` from `Placement`, and the cap and `overflowY = 'auto'` exactly when `Placement` has a cap. |

## Left out

- `preventDefault` (lines 10-17): event-propagation plumbing with no computable result.
- `computeRectPosition` (from `./getInfo`) is not part of this model. The sizes it measures are inputs: the menu's `width`/`height` fields and the anchor's coordinates in `Base`.
- `window.innerWidth`/`window.innerHeight` are the `Viewport` parameter.
- The runtime test `'parentElement' in base` is replaced by the two cases of `Base`.
- Fractional pixel coordinates are not modelled: pixels are integers, so `Math.floor` at line 126 is the identity.
- `getValue` is modelled for integer numbers only. JavaScript's formatting of non-integer numbers is not modelled.
- `ATTR_LIST` and `SPLIT_SYMBOL` (from `../config`) are not part of this model. They are the parameters `attrList` and `splitSymbol`.
- Utils.FilterAttrs: requires every listed key to have a separator. Without one, the code would insert the text `undefined`.
- `LayoutMenuDirection` (from `../config`) is not part of this model. It is assumed to be a string-valued enum, so Left and Right are both truthy at line 86. With a numeric enum where `Left = 0`, a parent's Left would be skipped in favour of the argument.
- Utils.HandleStyle: assumes the entries have distinct keys, as the keys of a JavaScript object do. With a repeated key, the model emits one declaration per entry, while an object would hold only one value.
- JavaScript truthiness is modelled only as "absent or empty string". Attribute and style values are strings.
- Utils.HandleStyle: takes the style object's keys in the order of its entry sequence. It does not model `Object.keys` moving integer-like keys first.
- Utils.PlacementFitsViewport: states the in-window guarantee only when the layout size equals the measured size. The code itself gives no guarantee when they differ, or after a flip.
- JavaScript numbers are doubles. The model uses unbounded integers, which agree with them for pixel values of any realistic size.
