/**
 * The helpers of the context-menu core (`packages/core/src/utils/index.ts`):
 * merging allow-listed DOM attributes, camelCase-to-kebab-case conversion,
 * inline-style serialisation, CSS value formatting and the placement of a
 * menu inside the viewport.
 *
 * The DOM is replaced by plain values: attribute objects are maps from names
 * to strings, a style object is the sequence of its entries in key order, the
 * anchor of a menu is a `Base` value, the viewport size is a parameter, and a
 * menu element is a `MenuElement` object whose fields the placement updates.
 */
module Utils {
  import opened Wrappers
  import opened NumberText

  // ---------------------------------------------------------------------------
  // filterAttrs
  // ---------------------------------------------------------------------------

  /** An attribute object with string values. */
  type AttrMap = map<string, string>

  /** JavaScript truthiness of `m[key]`: the key is present with a non-empty value. */
  predicate Supplies(m: AttrMap, key: string) {
    key in m && m[key] != ""
  }

  /** One pass of the `forEach` body: copy the option, then add or append the parameter. */
  function MergeKey(res: AttrMap, key: string, splitSymbol: map<string, string>,
                    options: AttrMap, params: AttrMap): (r: AttrMap)
    requires key in splitSymbol
    ensures forall k :: k != key ==> (k in r <==> k in res) && (k in res ==> r[k] == res[k])
    ensures key in r <==> key in res || Supplies(options, key) || Supplies(params, key)
    ensures !Supplies(options, key) && !Supplies(params, key) ==> r == res
  {
    var withOption := if Supplies(options, key) then res[key := options[key]] else res;
    if !Supplies(params, key) then withOption
    else if Supplies(withOption, key) then withOption[key := withOption[key] + splitSymbol[key] + params[key]]
    else withOption[key := params[key]]
  }

  /** The object `filterAttrs` has built after visiting `keys` in order. */
  function Merged(keys: seq<string>, splitSymbol: map<string, string>,
                  options: AttrMap, params: AttrMap): (r: AttrMap)
    requires forall k :: k in keys ==> k in splitSymbol
    ensures forall k :: k in r ==> k in keys
  {
    if keys == [] then map[]
    else MergeKey(Merged(keys[..|keys| - 1], splitSymbol, options, params),
                  keys[|keys| - 1], splitSymbol, options, params)
  }

  /** The value a listed key receives: both values joined by its separator, or the one supplied. */
  function CombinedValue(key: string, splitSymbol: map<string, string>,
                         options: AttrMap, params: AttrMap): string
    requires key in splitSymbol
  {
    if Supplies(options, key) && Supplies(params, key) then options[key] + splitSymbol[key] + params[key]
    else if Supplies(options, key) then options[key]
    else if Supplies(params, key) then params[key]
    else ""
  }

  /**
   * `filterAttrs(options, params)` with `ATTR_LIST` as `attrList` and
   * `SPLIT_SYMBOL` as `splitSymbol`: only listed keys survive, and a listed
   * key is present exactly when one of the two objects supplies it.
   */
  method FilterAttrs(attrList: seq<string>, splitSymbol: map<string, string>,
                     options: AttrMap, params: AttrMap) returns (res: AttrMap)
    requires forall k :: k in attrList ==> k in splitSymbol
    ensures res == Merged(attrList, splitSymbol, options, params)
    ensures forall k :: k in res <==> k in attrList && (Supplies(options, k) || Supplies(params, k))
    ensures forall k :: k in res ==> res[k] != ""
  {
    res := map[];
    for i := 0 to |attrList|
      invariant res == Merged(attrList[..i], splitSymbol, options, params)
    {
      assert attrList[..i + 1][..i] == attrList[..i];
      var key := attrList[i];
      if Supplies(options, key) {
        res := res[key := options[key]];
      }
      if Supplies(params, key) {
        if Supplies(res, key) {
          res := res[key := res[key] + splitSymbol[key] + params[key]];
        } else {
          res := res[key := params[key]];
        }
      }
    }
    assert attrList[..|attrList|] == attrList;
    MergedKeys(attrList, splitSymbol, options, params);
  }

  /** Only listed keys appear, exactly those that some object supplies, and never with an empty value. */
  lemma {:induction false} MergedKeys(keys: seq<string>, splitSymbol: map<string, string>,
                                      options: AttrMap, params: AttrMap)
    requires forall k :: k in keys ==> k in splitSymbol
    ensures forall k :: k in Merged(keys, splitSymbol, options, params) <==>
                          k in keys && (Supplies(options, k) || Supplies(params, k))
    ensures forall k :: k in Merged(keys, splitSymbol, options, params) ==>
                          Merged(keys, splitSymbol, options, params)[k] != ""
  {
    if keys != [] {
      var prefix := keys[..|keys| - 1];
      assert keys == prefix + [keys[|keys| - 1]];
      MergedKeys(prefix, splitSymbol, options, params);
    }
  }

  /**
   * With no repeated key in the list, a listed key holds
   * `options[key] + SPLIT_SYMBOL[key] + params[key]` when both objects supply
   * it, and the single supplied value otherwise.
   */
  lemma {:induction false} MergedValue(keys: seq<string>, splitSymbol: map<string, string>,
                                       options: AttrMap, params: AttrMap, key: string)
    requires forall k :: k in keys ==> k in splitSymbol
    requires forall i, j :: 0 <= i < j < |keys| ==> keys[i] != keys[j]
    requires key in keys
    ensures key in Merged(keys, splitSymbol, options, params) ==>
              Merged(keys, splitSymbol, options, params)[key] == CombinedValue(key, splitSymbol, options, params)
  {
    var prefix, last := keys[..|keys| - 1], keys[|keys| - 1];
    MergedKeys(prefix, splitSymbol, options, params);
    assert keys == prefix + [last];
    if last == key {
      assert key !in prefix by {
        forall i | 0 <= i < |prefix| ensures prefix[i] != key {
          assert keys[i] != keys[|keys| - 1];
        }
      }
    } else {
      MergedValue(prefix, splitSymbol, options, params, key);
    }
  }

  /**
   * A key listed twice that only `params` supplies gets the parameter twice:
   * the second visit finds the key already set and appends again.
   */
  lemma RepeatedKeyAppendsTwice(key: string, sep: string, value: string)
    requires value != ""
    ensures Merged([key, key], map[key := sep], map[], map[key := value]) == map[key := value + sep + value]
  {
    var sep', params := map[key := sep], map[key := value];
    assert [key, key][..1] == [key];
    assert [key][..0] == [];
    assert Merged([key], sep', map[], params) == map[key := value];
  }

  // ---------------------------------------------------------------------------
  // handleCamelCase
  // ---------------------------------------------------------------------------

  predicate IsUpper(c: char) {
    'A' <= c <= 'Z'
  }

  predicate IsLower(c: char) {
    'a' <= c <= 'z'
  }

  /** `toLowerCase` on one ASCII character. */
  function ToLower(c: char): (l: char)
    ensures !IsUpper(l)
    ensures IsUpper(c) ==> IsLower(l) && ToUpper(l) == c
    ensures !IsUpper(c) ==> l == c
  {
    if IsUpper(c) then (c as int + 32) as char else c
  }

  /** `toUpperCase` on one ASCII character. */
  function ToUpper(c: char): char {
    if IsLower(c) then (c as int - 32) as char else c
  }

  predicate NoUpper(s: string) {
    forall i :: 0 <= i < |s| ==> !IsUpper(s[i])
  }

  /** How many characters of `s` are `A`-`Z`. */
  function CountUpper(s: string): nat {
    if s == [] then 0 else (if IsUpper(s[0]) then 1 else 0) + CountUpper(s[1..])
  }

  /** The replacement of the characters after index 0: `A`-`Z` becomes `-` and its lower case. */
  function KebabTail(s: string): (r: string)
    ensures NoUpper(r)
    ensures |r| == |s| + CountUpper(s)
  {
    if s == [] then []
    else (if IsUpper(s[0]) then ['-', ToLower(s[0])] else [s[0]]) + KebabTail(s[1..])
  }

  /**
   * `handleCamelCase`: every `A`-`Z` is lower-cased and, unless it is at
   * index 0, preceded by `-`; every other character is kept.
   */
  function HandleCamelCase(s: string): (r: string)
    ensures NoUpper(r)
    ensures s != [] ==> |r| == |s| + CountUpper(s[1..])
    ensures s == [] ==> r == []
  {
    if s == [] then [] else [ToLower(s[0])] + KebabTail(s[1..])
  }

  /** Text without `A`-`Z` is left as it is. */
  lemma {:induction false} KebabTailOfLower(s: string)
    requires NoUpper(s)
    ensures KebabTail(s) == s
  {
    if s != [] {
      KebabTailOfLower(s[1..]);
    }
  }

  lemma HandleCamelCaseOfLower(s: string)
    requires NoUpper(s)
    ensures HandleCamelCase(s) == s
  {
    if s != [] {
      KebabTailOfLower(s[1..]);
    }
  }

  /** Converting twice is converting once. */
  lemma HandleCamelCaseIdempotent(s: string)
    ensures HandleCamelCase(HandleCamelCase(s)) == HandleCamelCase(s)
  {
    HandleCamelCaseOfLower(HandleCamelCase(s));
  }

  /** Reverses the conversion: `-` followed by a lower-case letter becomes that letter in upper case. */
  function CamelFromKebab(r: string): string {
    if r == [] then []
    else if |r| >= 2 && r[0] == '-' && IsLower(r[1]) then [ToUpper(r[1])] + CamelFromKebab(r[2..])
    else [r[0]] + CamelFromKebab(r[1..])
  }

  /** A camelCase identifier: no `-`, and no capital at the start. */
  predicate IsCamelIdentifier(s: string) {
    (forall i :: 0 <= i < |s| ==> s[i] != '-') && (s != [] ==> !IsUpper(s[0]))
  }

  lemma {:induction false} KebabTailRoundTrip(s: string)
    requires forall i :: 0 <= i < |s| ==> s[i] != '-'
    ensures CamelFromKebab(KebabTail(s)) == s
  {
    if s != [] {
      var rest := KebabTail(s[1..]);
      KebabTailRoundTrip(s[1..]);
      if IsUpper(s[0]) {
        var r := ['-', ToLower(s[0])] + rest;
        assert r[2..] == rest;
      } else {
        var r := [s[0]] + rest;
        assert r[1..] == rest;
      }
    }
  }

  /** On camelCase identifiers the conversion loses nothing: it can be undone. */
  lemma HandleCamelCaseRoundTrip(s: string)
    requires IsCamelIdentifier(s)
    ensures CamelFromKebab(HandleCamelCase(s)) == s
  {
    if s != [] {
      var r := HandleCamelCase(s);
      KebabTailRoundTrip(s[1..]);
      assert r[1..] == KebabTail(s[1..]);
    }
  }

  /** Two camelCase identifiers with the same kebab-case form are equal. */
  lemma HandleCamelCaseInjective(s: string, t: string)
    requires IsCamelIdentifier(s) && IsCamelIdentifier(t)
    requires HandleCamelCase(s) == HandleCamelCase(t)
    ensures s == t
  {
    HandleCamelCaseRoundTrip(s);
    HandleCamelCaseRoundTrip(t);
  }

  /** The conversion of the characters after index 0 works one character at a time. */
  lemma KebabTailCons(c: char, t: string)
    ensures KebabTail([c] + t) == (if IsUpper(c) then ['-', ToLower(c)] else [c]) + KebabTail(t)
  {
    assert ([c] + t)[0] == c && ([c] + t)[1..] == t;
  }

  /** The conversion is a homomorphism: converting `a + b` converts `a` and `b` separately. */
  lemma {:induction false} KebabTailAppend(a: string, b: string)
    ensures KebabTail(a + b) == KebabTail(a) + KebabTail(b)
    decreases |a|
  {
    if a == [] {
      assert a + b == b;
    } else {
      assert (a + b)[0] == a[0] && (a + b)[1..] == a[1..] + b;
      KebabTailAppend(a[1..], b);
    }
  }

  lemma HandleCamelCaseExample()
    ensures HandleCamelCase("zIndex") == "z-index"
  {
    var tail := "ndex";
    KebabTailOfLower(tail);
    KebabTailCons('I', tail);
    assert "Index" == ['I'] + tail;
    assert "zIndex"[0] == 'z' && "zIndex"[1..] == "Index";
    assert ['z'] + (['-', 'i'] + tail) == "z-index";
  }

  // ---------------------------------------------------------------------------
  // handleStyle
  // ---------------------------------------------------------------------------

  /** The argument of `handleStyle`: CSS text, or a style object as its entries in key order. */
  datatype StyleParam = CssText(text: string) | StyleObject(entries: seq<(string, string)>)

  /** One CSS declaration, `kebab-key: value`. */
  function Declaration(entry: (string, string)): (r: string)
    ensures var name := HandleCamelCase(entry.0);
            && |r| == |name| + 2 + |entry.1|
            && r[..|name|] == name && r[|name|..|name| + 2] == ": " && r[|name| + 2..] == entry.1
  {
    HandleCamelCase(entry.0) + ": " + entry.1
  }

  /** The declarations of the entries with a non-empty value, in entry order. */
  function Declarations(entries: seq<(string, string)>): (r: seq<string>)
    ensures |r| <= |entries|
  {
    if entries == [] then []
    else
      var last := entries[|entries| - 1];
      Declarations(entries[..|entries| - 1]) + (if last.1 == "" then [] else [Declaration(last)])
  }

  /** `Array.prototype.join`. */
  function Join(parts: seq<string>, sep: string): string
  {
    if parts == [] then ""
    else if |parts| == 1 then parts[0]
    else parts[0] + sep + Join(parts[1..], sep)
  }

  /** How many entries have a non-empty value. */
  function CountKept(entries: seq<(string, string)>): nat {
    if entries == [] then 0
    else CountKept(entries[..|entries| - 1]) + (if entries[|entries| - 1].1 == "" then 0 else 1)
  }

  /**
   * `handleStyle`: CSS text is returned as it is; a style object becomes its
   * non-empty entries as declarations joined by `"; "`, which is empty exactly
   * when no entry has a value.
   */
  method HandleStyle(param: StyleParam) returns (css: string)
    ensures param.CssText? ==> css == param.text
    ensures param.StyleObject? ==> css == Join(Declarations(param.entries), "; ")
    ensures param.StyleObject? ==> (css == "" <==> forall i :: 0 <= i < |param.entries| ==> param.entries[i].1 == "")
  {
    match param
    case CssText(text) =>
      css := text;
    case StyleObject(entries) =>
      var res: seq<string> := [];
      for i := 0 to |entries|
        invariant res == Declarations(entries[..i])
      {
        if entries[i].1 != "" {
          res := res + [Declaration(entries[i])];
        }
        assert res == Declarations(entries[..i + 1]) by {
          assert entries[..i + 1][..i] == entries[..i];
        }
      }
      assert res == Declarations(entries) by {
        assert entries[..|entries|] == entries;
      }
      css := Join(res, "; ");
      StyleTextEmpty(entries);
  }

  /** The serialised text of a style object is empty exactly when every value is. */
  lemma StyleTextEmpty(entries: seq<(string, string)>)
    ensures Join(Declarations(entries), "; ") == "" <==> forall i :: 0 <= i < |entries| ==> entries[i].1 == ""
  {
    DeclarationsNonEmpty(entries);
    JoinEmpty(Declarations(entries), "; ");
    DeclarationsEmpty(entries);
  }

  /** Every declaration is non-empty and there is one per kept entry. */
  lemma {:induction false} DeclarationsNonEmpty(entries: seq<(string, string)>)
    ensures |Declarations(entries)| == CountKept(entries)
    ensures forall i :: 0 <= i < |Declarations(entries)| ==> Declarations(entries)[i] != ""
  {
    if entries != [] {
      DeclarationsNonEmpty(entries[..|entries| - 1]);
    }
  }

  /** There are no declarations exactly when every value is empty. */
  lemma {:induction false} DeclarationsEmpty(entries: seq<(string, string)>)
    ensures Declarations(entries) == [] <==> forall i :: 0 <= i < |entries| ==> entries[i].1 == ""
  {
    if entries != [] {
      var prefix := entries[..|entries| - 1];
      DeclarationsEmpty(prefix);
      assert forall i :: 0 <= i < |prefix| ==> prefix[i] == entries[i];
    }
  }

  /** Joining non-empty parts gives the empty string only for no parts. */
  lemma JoinEmpty(parts: seq<string>, sep: string)
    requires forall i :: 0 <= i < |parts| ==> parts[i] != ""
    ensures Join(parts, sep) == "" <==> parts == []
  {
  }

  /** Declarations keep the order of the entries: those of a concatenation are concatenated. */
  lemma {:induction false} DeclarationsAppend(a: seq<(string, string)>, b: seq<(string, string)>)
    ensures Declarations(a + b) == Declarations(a) + Declarations(b)
  {
    if b == [] {
      assert a + b == a;
    } else {
      var b' := b[..|b| - 1];
      assert (a + b)[..|a + b| - 1] == a + b';
      DeclarationsAppend(a, b');
    }
  }

  lemma {:induction false} JoinAppend(a: seq<string>, b: seq<string>, sep: string)
    requires a != [] && b != []
    ensures Join(a + b, sep) == Join(a, sep) + sep + Join(b, sep)
  {
    var ab := a + b;
    assert ab[0] == a[0];
    if |a| > 1 {
      assert ab[1..] == a[1..] + b;
      JoinAppend(a[1..], b, sep);
    } else {
      assert ab[1..] == b;
    }
  }

  /**
   * Serialising two style objects one after the other is serialising each
   * and separating the two texts by `"; "` (when both say something).
   */
  lemma StyleConcat(a: seq<(string, string)>, b: seq<(string, string)>)
    requires Declarations(a) != [] && Declarations(b) != []
    ensures Join(Declarations(a + b), "; ") == Join(Declarations(a), "; ") + "; " + Join(Declarations(b), "; ")
  {
    DeclarationsAppend(a, b);
    JoinAppend(Declarations(a), Declarations(b), "; ");
  }

  // ---------------------------------------------------------------------------
  // getValue
  // ---------------------------------------------------------------------------

  /** The argument of `getValue`: a string, or an integer number of pixels. */
  datatype CssValue = Text(text: string) | Number(n: int)

  /** `getValue`: a string is kept; a number becomes a pixel length that reads back as that number. */
  function GetValue(v: CssValue): (r: string)
    ensures v.Text? ==> r == v.text
    ensures v.Number? ==> ParsePx(r) == Some(v.n)
  {
    match v
    case Text(s) => s
    case Number(n) => PxRoundTrip(n); Px(n)
  }

  // ---------------------------------------------------------------------------
  // layoutMenuPositionEffect
  // ---------------------------------------------------------------------------

  /** `LayoutMenuDirection`; `Unsupported` stands for any value other than Left and Right. */
  datatype Direction = Left | Right | Unsupported

  /**
   * The `parentElement` of an anchor element: none, or any parent element
   * with its `direction` property. `None` is a falsy or missing direction,
   * as on a parent that is not a menu; the code writes `menu.direction`
   * for every parent element, menu or not.
   */
  datatype Parent = NoParentElement | ParentElement(direction: Option<Direction>)

  /**
   * The anchor, as `computeRectPosition` measures it: the point of a mouse
   * event, or the rectangle of an element together with its parent.
   */
  datatype Base =
    | MousePoint(x: int, y: int)
    | Element(x: int, y: int, width: int, height: int, parent: Parent)

  /** Width of the anchor; 0 for a mouse point. */
  function BaseWidth(base: Base): (w: int)
    ensures base.MousePoint? ==> w == 0
    ensures base.Element? ==> w == base.width
  {
    if base.Element? then base.width else 0
  }

  /** Height of the anchor; 0 for a mouse point. */
  function BaseHeight(base: Base): (h: int)
    ensures base.MousePoint? ==> h == 0
    ensures base.Element? ==> h == base.height
  {
    if base.Element? then base.height else 0
  }

  /** The inner width and height of the window. */
  datatype Viewport = Viewport(width: int, height: int)

  /**
   * The geometry of the menu: its size as `computeRectPosition` measures it,
   * and its layout size (`offsetWidth`, `offsetHeight`), which the overflow
   * tests use.
   */
  datatype MenuBox = MenuBox(width: int, height: int, offsetWidth: int, offsetHeight: int)

  /** The error thrown for a direction other than Left and Right; it names the argument. */
  datatype LayoutError = UnsupportedDirection(direction: Direction)

  /** The direction argument after its default, `LayoutMenuDirection.Right`, is applied. */
  function ArgumentDirection(direction: Option<Direction>): (d: Direction)
    ensures direction == None ==> d == Right
    ensures direction != None ==> d == direction.value
  {
    if direction.Some? then direction.value else Right
  }

  /**
   * What is written to `menu.direction` before placing: for an element anchor
   * with a parent, the parent's direction when set, else the argument.
   */
  function InheritedDirection(base: Base, direction: Option<Direction>): (r: Option<Direction>)
    ensures r != None <==> base.Element? && base.parent.ParentElement?
    ensures r != None && base.parent.direction != None ==> r == base.parent.direction
    ensures r != None && base.parent.direction == None ==> r == Some(ArgumentDirection(direction))
  {
    if base.Element? && base.parent.ParentElement? then
      Some(if base.parent.direction.Some? then base.parent.direction.value else ArgumentDirection(direction))
    else None
  }

  /** The direction the placement follows. */
  function EffectiveDirection(base: Base, direction: Option<Direction>): (d: Direction)
    ensures base.Element? && base.parent.ParentElement? && base.parent.direction != None ==> d == base.parent.direction.value
    ensures !(base.Element? && base.parent.ParentElement? && base.parent.direction != None) ==> d == ArgumentDirection(direction)
  {
    var inherited := InheritedDirection(base, direction);
    if inherited.Some? then inherited.value else ArgumentDirection(direction)
  }

  /** A horizontal position, and the direction recorded on the menu when the side was flipped. */
  datatype Horizontal = Horizontal(x: int, flippedTo: Option<Direction>)

  /**
   * `layoutToRight`: the menu starts at the anchor's right edge unless its
   * layout width then crosses the viewport's right edge; in that case it
   * flips once, ending at the anchor's left edge, and records Left.
   */
  function PlaceRight(baseX: int, baseW: int, box: MenuBox, viewport: Viewport): (h: Horizontal)
    ensures h.flippedTo == None <==> box.offsetWidth + baseX + baseW <= viewport.width
    ensures h.flippedTo == None ==> h.x == baseX + baseW && h.x + box.offsetWidth <= viewport.width
    ensures h.flippedTo != None ==> h.flippedTo == Some(Left) && h.x + box.width == baseX
  {
    var x := baseX + baseW;
    if box.offsetWidth + x > viewport.width then Horizontal(baseX - box.width, Some(Left))
    else Horizontal(x, None)
  }

  /**
   * `layoutToLeft`: the menu ends at the anchor's left edge unless it then
   * starts left of 0; in that case it flips once, starting at the anchor's
   * right edge, and records Right.
   */
  function PlaceLeft(baseX: int, baseW: int, box: MenuBox): (h: Horizontal)
    ensures h.flippedTo == None <==> baseX - box.width >= 0
    ensures h.flippedTo == None ==> h.x >= 0 && h.x + box.width == baseX
    ensures h.flippedTo != None ==> h.flippedTo == Some(Right) && h.x == baseX + baseW
  {
    var x := baseX - box.width;
    if x < 0 then Horizontal(baseX + baseW, Some(Right)) else Horizontal(x, None)
  }

  /** A vertical position, and the capped height when the menu scrolls (`overflowY = 'auto'`). */
  datatype Vertical = Vertical(y: int, maxHeight: Option<int>)

  function Max(a: int, b: int): int {
    if a >= b then a else b
  }

  /**
   * `layoutToTop`: top-aligned with the anchor when the layout height fits
   * below; otherwise bottom-aligned with the anchor when that stays at or
   * below 0; otherwise capped to the taller free region less 5 pixels, placed
   * below the anchor's top when that region is strictly taller and above the
   * anchor's bottom otherwise.
   */
  function PlaceVertically(baseY: int, baseH: int, box: MenuBox, viewport: Viewport): (v: Vertical)
    ensures box.offsetHeight + baseY <= viewport.height ==> v == Vertical(baseY, None)
    ensures box.offsetHeight + baseY > viewport.height && baseY + baseH - box.height >= 0 ==>
              v.maxHeight == None && v.y + box.height == baseY + baseH
    ensures v.maxHeight != None <==> box.offsetHeight + baseY > viewport.height && baseY + baseH < box.height
    ensures v.maxHeight != None ==>
              && v.maxHeight.value == Max(viewport.height - baseY, baseY + baseH) - 5
              && (viewport.height - baseY > baseY + baseH ==> v.y == baseY)
              && (viewport.height - baseY <= baseY + baseH ==> v.y + v.maxHeight.value == baseY + baseH)
  {
    var y := baseY;
    if box.offsetHeight + y > viewport.height then
      var topY := baseY + baseH - box.height;
      if topY >= 0 then Vertical(topY, None)
      else
        var bottomHeight := viewport.height - baseY;
        var topHeight := baseY + baseH;
        var isBottom := bottomHeight > topHeight;
        var menuMaxHeight := Max(bottomHeight, topHeight) - 5;
        Vertical(if isBottom then baseY else baseY + baseH - menuMaxHeight, Some(menuMaxHeight))
    else Vertical(y, None)
  }

  /** Where the menu goes: its position, a flip of its direction, and a height cap. */
  datatype Position = Position(x: int, y: int, flippedTo: Option<Direction>, maxHeight: Option<int>)

  /**
   * The whole placement: the horizontal rule of the effective direction,
   * then the vertical rule; an unsupported direction throws.
   */
  function Placement(base: Base, direction: Option<Direction>, box: MenuBox, viewport: Viewport): (p: Result<Position, LayoutError>)
    ensures p.Err? <==> EffectiveDirection(base, direction) == Unsupported
    ensures p.Err? ==> p.error == UnsupportedDirection(ArgumentDirection(direction))
    ensures p.Ok? && p.value.flippedTo != None ==>
              p.value.flippedTo == Some(if EffectiveDirection(base, direction) == Left then Right else Left)
  {
    var h :=
      match EffectiveDirection(base, direction)
      case Left => Ok(PlaceLeft(base.x, BaseWidth(base), box))
      case Right => Ok(PlaceRight(base.x, BaseWidth(base), box, viewport))
      case Unsupported => Err(UnsupportedDirection(ArgumentDirection(direction)));
    if h.Err? then Err(h.error)
    else
      var v := PlaceVertically(base.y, BaseHeight(base), box, viewport);
      Ok(Position(h.value.x, v.y, h.value.flippedTo, v.maxHeight))
  }

  /** The scroll fallback keeps the capped menu inside the viewport, 5 pixels from the far edge. */
  lemma FallbackWithinViewport(baseY: int, baseH: int, box: MenuBox, viewport: Viewport)
    requires 0 <= baseY && 0 <= baseH && baseY + baseH <= viewport.height
    requires PlaceVertically(baseY, baseH, box, viewport).maxHeight != None
    ensures var v := PlaceVertically(baseY, baseH, box, viewport);
            && 0 <= v.y && v.y + v.maxHeight.value <= viewport.height
            && (viewport.height - baseY > baseY + baseH ==> v.y + v.maxHeight.value == viewport.height - 5)
            && (viewport.height - baseY <= baseY + baseH ==> v.y == 5)
  {
  }

  /**
   * A menu whose layout size equals its measured size, anchored inside the
   * viewport, lies inside the viewport whenever no flip and no scroll cap
   * was needed.
   */
  lemma PlacementFitsViewport(base: Base, direction: Option<Direction>, box: MenuBox, viewport: Viewport)
    requires box.offsetWidth == box.width && box.offsetHeight == box.height
    requires 0 <= base.x && 0 <= BaseWidth(base) && base.x + BaseWidth(base) <= viewport.width
    requires 0 <= base.y && 0 <= BaseHeight(base) && base.y + BaseHeight(base) <= viewport.height
    requires Placement(base, direction, box, viewport).Ok?
    requires Placement(base, direction, box, viewport).value.flippedTo == None
    requires Placement(base, direction, box, viewport).value.maxHeight == None
    ensures var p := Placement(base, direction, box, viewport).value;
            && 0 <= p.x && p.x + box.width <= viewport.width
            && 0 <= p.y && p.y + box.height <= viewport.height
  {
  }

  /**
   * A submenu under a parent menu laid out to the left records Left and is
   * placed by the Left rule whatever it was asked for; that rule still flips
   * it to Right when it would start left of 0.
   */
  lemma NestedMenuInheritsDirection(x: int, y: int, w: int, h: int, direction: Option<Direction>,
                                    box: MenuBox, viewport: Viewport)
    ensures var base := Element(x, y, w, h, ParentElement(Some(Left)));
            && InheritedDirection(base, direction) == Some(Left)
            && Placement(base, direction, box, viewport).Ok?
            && Placement(base, direction, box, viewport).value.x == PlaceLeft(x, w, box).x
            && Placement(base, direction, box, viewport).value.flippedTo ==
                 (if x - box.width < 0 then Some(Right) else None)
  {
  }

  /** Viewport 800x600, anchor (750, 100) of height 20, menu 120x50, Right: flips to x = 630, y = 100. */
  lemma ScenarioFlipToLeft()
    ensures Placement(Element(750, 100, 0, 20, NoParentElement), Some(Right), MenuBox(120, 50, 120, 50), Viewport(800, 600))
            == Ok(Position(630, 100, Some(Left), None))
  {
  }

  /** Viewport height 600, anchor at y = 580 of height 20, menu height 100: bottom-aligned at y = 500. */
  lemma ScenarioBottomAligned()
    ensures Placement(Element(100, 580, 0, 20, NoParentElement), None, MenuBox(120, 100, 120, 100), Viewport(800, 600))
            == Ok(Position(100, 500, None, None))
  {
  }

  /** The flipped position is not checked again: it may start left of the viewport. */
  lemma FlippedPositionNotRechecked()
    ensures Placement(MousePoint(50, 0), Some(Right), MenuBox(120, 50, 120, 50), Viewport(100, 600))
            == Ok(Position(-70, 0, Some(Left), None))
  {
  }

  /**
   * A menu element. `width` and `height` are what `computeRectPosition`
   * measures; the style fields hold CSS text.
   */
  class MenuElement {
    var direction: Option<Direction>
    var offsetWidth: int
    var offsetHeight: int
    var width: int
    var height: int
    var styleLeft: string
    var styleTop: string
    var maxHeight: string
    var overflowY: string

    constructor (width: int, height: int, offsetWidth: int, offsetHeight: int)
      ensures this.width == width && this.height == height
      ensures this.offsetWidth == offsetWidth && this.offsetHeight == offsetHeight
      ensures direction == None
      ensures styleLeft == "" && styleTop == "" && maxHeight == "" && overflowY == ""
    {
      this.width, this.height := width, height;
      this.offsetWidth, this.offsetHeight := offsetWidth, offsetHeight;
      direction := None;
      styleLeft, styleTop, maxHeight, overflowY := "", "", "", "";
    }

    function Box(): MenuBox
      reads this
    {
      MenuBox(width, height, offsetWidth, offsetHeight)
    }
  }

  /** `updatePosition`: writes the position as pixel lengths into `left` and `top`. */
  method UpdatePosition(el: MenuElement, x: int, y: int)
    modifies el`styleLeft, el`styleTop
    ensures el.styleLeft == Px(x) && el.styleTop == Px(y)
  {
    el.styleLeft := Px(x);
    el.styleTop := Px(y);
  }

  method LayoutToRight(menu: MenuElement, baseX: int, baseW: int, viewport: Viewport) returns (x: int)
    modifies menu`direction
    ensures var h := PlaceRight(baseX, baseW, menu.Box(), viewport);
            && x == h.x
            && menu.direction == (if h.flippedTo != None then h.flippedTo else old(menu.direction))
  {
    x := baseX + baseW;
    if menu.offsetWidth + x > viewport.width {
      x := baseX - menu.width;
      menu.direction := Some(Left);
    }
  }

  method LayoutToLeft(menu: MenuElement, baseX: int, baseW: int) returns (x: int)
    modifies menu`direction
    ensures var h := PlaceLeft(baseX, baseW, menu.Box());
            && x == h.x
            && menu.direction == (if h.flippedTo != None then h.flippedTo else old(menu.direction))
  {
    x := baseX - menu.width;
    if x < 0 {
      x := baseX + baseW;
      menu.direction := Some(Right);
    }
  }

  method LayoutToTop(menu: MenuElement, baseY: int, baseH: int, viewport: Viewport) returns (y: int)
    modifies menu`maxHeight, menu`overflowY
    ensures var v := PlaceVertically(baseY, baseH, menu.Box(), viewport);
            && y == v.y
            && (v.maxHeight != None ==> menu.maxHeight == Px(v.maxHeight.value) && menu.overflowY == "auto")
            && (v.maxHeight == None ==> menu.maxHeight == old(menu.maxHeight) && menu.overflowY == old(menu.overflowY))
  {
    y := baseY;
    if menu.offsetHeight + y > viewport.height {
      var topY := baseY + baseH - menu.height;
      if topY >= 0 {
        y := topY;
        return;
      }
      var bottomHeight := viewport.height - baseY;
      var topHeight := baseY + baseH;
      var isBottom := bottomHeight > topHeight;
      var menuHeight := Max(bottomHeight, topHeight);
      var menuMaxHeight := menuHeight - 5;
      y := if isBottom then baseY else baseY + baseH - menuMaxHeight;
      menu.maxHeight := Px(menuMaxHeight);
      menu.overflowY := "auto";
    }
  }

  /**
   * `layoutMenuPositionEffect`: places `menu` next to `base` inside the
   * viewport. It records the inherited direction on the menu, then either
   * throws for an unsupported direction, leaving every style untouched, or
   * writes the position of `Placement`, the flipped direction and the height
   * cap.
   */
  method LayoutMenuPositionEffect(base: Base, menu: MenuElement, direction: Option<Direction>, viewport: Viewport)
    returns (outcome: Outcome<LayoutError>)
    modifies menu`direction, menu`styleLeft, menu`styleTop, menu`maxHeight, menu`overflowY
    ensures var p := Placement(base, direction, menu.Box(), viewport);
            var inherited := InheritedDirection(base, direction);
            && menu.direction == (if p.Ok? && p.value.flippedTo != None then p.value.flippedTo
                                  else if inherited != None then inherited
                                  else old(menu.direction))
            && (p.Err? ==> && outcome == Fail(p.error)
                           && menu.styleLeft == old(menu.styleLeft) && menu.styleTop == old(menu.styleTop)
                           && menu.maxHeight == old(menu.maxHeight) && menu.overflowY == old(menu.overflowY))
            && (p.Ok? ==> && outcome == Pass
                          && menu.styleLeft == Px(p.value.x) && menu.styleTop == Px(p.value.y)
                          && (p.value.maxHeight != None ==>
                                menu.maxHeight == Px(p.value.maxHeight.value) && menu.overflowY == "auto")
                          && (p.value.maxHeight == None ==>
                                menu.maxHeight == old(menu.maxHeight) && menu.overflowY == old(menu.overflowY)))
  {
    var baseX, baseY, baseW, baseH := base.x, base.y, BaseWidth(base), BaseHeight(base);
    var currentDirection := ArgumentDirection(direction);
    if base.Element? && base.parent.ParentElement? {
      currentDirection := if base.parent.direction.Some? then base.parent.direction.value else currentDirection;
      menu.direction := Some(currentDirection);
    }
    var x;
    match currentDirection {
      case Left =>
        x := LayoutToLeft(menu, baseX, baseW);
      case Right =>
        x := LayoutToRight(menu, baseX, baseW, viewport);
      case Unsupported =>
        return Fail(UnsupportedDirection(ArgumentDirection(direction)));
    }
    var y := LayoutToTop(menu, baseY, baseH, viewport);
    UpdatePosition(menu, x, y);
    outcome := Pass;
  }

  /**
   * A submenu opened from an item of a menu that flipped to the left reads
   * the parent's recorded direction and opens to the left as well.
   */
  method NestedMenusScenario() returns (parentLeft: string, childLeft: string, childDirection: Option<Direction>)
    ensures parentLeft == Px(630) && childLeft == Px(530) && childDirection == Some(Left)
  {
    var viewport := Viewport(800, 600);
    var parent := new MenuElement(120, 50, 120, 50);
    var o1 := LayoutMenuPositionEffect(MousePoint(750, 100), parent, None, viewport);
    assert o1 == Pass && parent.direction == Some(Left) && parent.styleLeft == Px(630);
    var child := new MenuElement(100, 40, 100, 40);
    var item := Element(630, 110, 120, 20, ParentElement(parent.direction));
    var o2 := LayoutMenuPositionEffect(item, child, Some(Right), viewport);
    assert o2 == Pass;
    parentLeft, childLeft, childDirection := parent.styleLeft, child.styleLeft, child.direction;
  }
}
