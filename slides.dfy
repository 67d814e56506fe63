/** The slide deck behind the document facade, as values: a sequence of
    draw pages, each a sequence of shapes, plus the controller's current
    page. A page's `id` stands for the identity of the page object, which is
    what the facade compares when it looks for the current page. The
    functions here state what each facade operation does to the deck. */
module Slides {
  import opened Values

  /** The character and paragraph properties a text cursor exposes.
      `weight` is CharWeight (150 bold, 100 normal), `posture` CharPosture,
      `paraAdjust` the paragraph alignment code. */
  datatype CharProps = CharProps(
    fontName: string,
    height: int,
    color: int,
    weight: int,
    posture: int,
    strikeout: int,
    paraAdjust: int)

  const BoldWeight := 150
  const NormalWeight := 100

  /** A table shape's model: its row and column counts and the cells that
      can be read, keyed by (column, row); any other cell reads as "". */
  datatype TableModel = TableModel(rows: nat, cols: nat, cells: map<(nat, nat), string>)

  /** The text of a cell, "" when it cannot be read. */
  function CellText(m: TableModel, col: nat, row: nat): string {
    if (col, row) in m.cells then m.cells[(col, row)] else ""
  }

  const TextShapeType := "com.sun.star.drawing.TextShape"

  /** A shape on a page. `hasText` says whether it supports `setString`;
      `table` is the model of a table shape, if it has one. */
  datatype Shape = Shape(
    shapeType: string,
    hasText: bool,
    text: string,
    x: int,
    y: int,
    width: int,
    height: int,
    chars: CharProps,
    table: Option<TableModel>)

  datatype Slide = Slide(id: nat, shapes: seq<Shape>)

  /** The open presentation. `current` is the id of the controller's current
      page; `nextId` the id the next inserted page gets; `defaults` the
      character properties a new text shape starts with. */
  datatype Deck = Deck(slides: seq<Slide>, current: Option<nat>, nextId: nat, defaults: CharProps)

  /** The JSON replies of the facade functions. */
  datatype Reply =
    | NewSlideAdded(slideIndex: int, totalSlides: nat)
    | SlideDeleted(totalSlides: nat)
    | TextShapeAdded(shapeIndex: int)
    | ShapeTextUpdated
    | PresentationInfo(totalSlides: nat, currentSlideIndex: int, presentationName: string)
    | ErrorReply(message: string)

  datatype Outcome = Outcome(deck: Deck, reply: Reply)

  const NoPresentation := "No presentation available"
  const NoSlide := "No slide provided"
  const InvalidSlideIndex := "Invalid slide index"
  const InvalidShapeIndex := "Invalid shape index"
  const NoTextSupport := "Shape does not support text"

  /** Page identities are distinct and below `nextId`. */
  predicate Valid(d: Deck) {
    && (forall i, j :: 0 <= i < j < |d.slides| ==> d.slides[i].id != d.slides[j].id)
    && (forall i :: 0 <= i < |d.slides| ==> d.slides[i].id < d.nextId)
  }

  /** The position of the first page with identity `id`, or -1. */
  function IndexOfId(slides: seq<Slide>, id: nat): (r: int)
    ensures -1 <= r < |slides|
    ensures r == -1 <==> forall k :: 0 <= k < |slides| ==> slides[k].id != id
    ensures r >= 0 ==> slides[r].id == id && forall k :: 0 <= k < r ==> slides[k].id != id
  {
    if slides == [] then -1
    else if slides[0].id == id then 0
    else
      var r := IndexOfId(slides[1..], id);
      if r == -1 then -1 else r + 1
  }

  /** The index of the controller's current page among the draw pages, or
      -1 when it is not one of them. */
  function CurrentIndex(d: Deck): int {
    if d.current.None? then -1 else IndexOfId(d.slides, d.current.value)
  }

  /** `get_slide_by_index`: the page at `index`, or `None` exactly when the
      index is negative or past the last page. */
  function SlideAt(d: Deck, index: int): (r: Option<Slide>)
    ensures r.None? <==> index < 0 || index >= |d.slides|
    ensures r.Some? ==> r.value == d.slides[index]
  {
    if index < 0 || index >= |d.slides| then None else Some(d.slides[index])
  }

  /** The position `add_new_slide` inserts at: -1 stands for the end. */
  function InsertPosition(d: Deck, position: int): int {
    if position == -1 then |d.slides| else position
  }

  /** `add_new_slide`: a blank page with a fresh identity is inserted at the
      position, everything else keeps its order, and the reply carries the
      position and the new count. A position outside [0, count] makes the
      insertion raise. */
  function InsertNewSlide(d: Deck, position: int): (o: Outcome)
    ensures var p := InsertPosition(d, position);
      if 0 <= p <= |d.slides| then
        && |o.deck.slides| == |d.slides| + 1
        && o.deck.slides[..p] == d.slides[..p]
        && o.deck.slides[p] == Slide(d.nextId, [])
        && o.deck.slides[p + 1..] == d.slides[p..]
        && o.deck.current == d.current && o.deck.defaults == d.defaults
        && o.deck.nextId == d.nextId + 1
        && o.reply == NewSlideAdded(p, |d.slides| + 1)
      else o.deck == d && o.reply.ErrorReply?
  {
    var p := InsertPosition(d, position);
    if 0 <= p <= |d.slides| then
      var slides := d.slides[..p] + [Slide(d.nextId, [])] + d.slides[p..];
      assert slides[p + 1..] == d.slides[p..];
      Outcome(d.(slides := slides, nextId := d.nextId + 1), NewSlideAdded(p, |slides|))
    else Outcome(d, ErrorReply("insertNewByIndex: index out of range"))
  }

  /** Appending keeps every page where it was and adds one at the end. */
  lemma AppendSlide(d: Deck)
    ensures InsertNewSlide(d, -1).deck.slides == d.slides + [Slide(d.nextId, [])]
    ensures InsertNewSlide(d, -1).reply == NewSlideAdded(|d.slides|, |d.slides| + 1)
  {
    var s := InsertNewSlide(d, -1).deck.slides;
    assert d.slides[..|d.slides|] == d.slides;
    assert s == s[..|d.slides|] + [s[|d.slides|]];
  }

  lemma InsertNewSlideValid(d: Deck, position: int)
    requires Valid(d)
    ensures Valid(InsertNewSlide(d, position).deck)
  {
    var p := InsertPosition(d, position);
    if 0 <= p <= |d.slides| {
      var s := InsertNewSlide(d, position).deck.slides;
      assert s == d.slides[..p] + [Slide(d.nextId, [])] + d.slides[p..];
      assert forall i :: 0 <= i < |s| ==> s[i] == (if i < p then d.slides[i] else if i == p then Slide(d.nextId, []) else d.slides[i - 1]);
    }
  }

  /** The current page after a removal: unchanged unless it was the removed
      page, in which case the page that moved into its place (or the new last
      page) becomes current. */
  function CurrentAfterRemove(d: Deck, index: nat, rest: seq<Slide>): Option<nat>
    requires index < |d.slides|
  {
    if d.current != Some(d.slides[index].id) then d.current
    else if rest == [] then None
    else if index < |rest| then Some(rest[index].id)
    else Some(rest[|rest| - 1].id)
  }

  /** `delete_slide`: an index outside [0, count) is refused and nothing
      changes; otherwise exactly that page goes, the others keep their order,
      and the reply carries the new count. */
  function RemoveSlide(d: Deck, index: int): (o: Outcome)
    ensures index < 0 || index >= |d.slides| ==> o == Outcome(d, ErrorReply(InvalidSlideIndex))
    ensures 0 <= index < |d.slides| ==>
      && |o.deck.slides| == |d.slides| - 1
      && (forall k :: 0 <= k < index ==> o.deck.slides[k] == d.slides[k])
      && (forall k :: index <= k < |o.deck.slides| ==> o.deck.slides[k] == d.slides[k + 1])
      && o.deck.nextId == d.nextId && o.deck.defaults == d.defaults
      && (d.current != Some(d.slides[index].id) ==> o.deck.current == d.current)
      && o.reply == SlideDeleted(|d.slides| - 1)
  {
    if index < 0 || index >= |d.slides| then Outcome(d, ErrorReply(InvalidSlideIndex))
    else
      var rest := d.slides[..index] + d.slides[index + 1..];
      Outcome(d.(slides := rest, current := CurrentAfterRemove(d, index, rest)), SlideDeleted(|rest|))
  }

  lemma RemoveSlideValid(d: Deck, index: int)
    requires Valid(d)
    ensures Valid(RemoveSlide(d, index).deck)
  {
    if 0 <= index < |d.slides| {
      var s := RemoveSlide(d, index).deck.slides;
      forall i, j | 0 <= i < j < |s|
        ensures s[i].id != s[j].id
      {
        var i' := if i < index then i else i + 1;
        var j' := if j < index then j else j + 1;
        assert s[i] == d.slides[i'] && s[j] == d.slides[j'];
      }
    }
  }

  /** The reset steps of the generator (append a page, then delete page 0)
      keep the number of pages: they drop the original first page and add a
      blank one at the end. */
  lemma {:induction false} ResetKeepsCount(d: Deck)
    requires |d.slides| >= 1
    ensures var e := RemoveSlide(InsertNewSlide(d, -1).deck, 0).deck;
      && e.slides == d.slides[1..] + [Slide(d.nextId, [])]
      && |e.slides| == |d.slides|
  {
    AppendSlide(d);
    var a := InsertNewSlide(d, -1).deck;
    var e := RemoveSlide(a, 0).deck;
    assert e.slides == a.slides[1..];
    assert a.slides[1..] == d.slides[1..] + [Slide(d.nextId, [])];
  }

  /** Only a one-page deck ends up as a single blank page, and a two-page deck
      still has two pages afterwards. */
  lemma ResetLeavesOneOnlyFromOne(d: Deck)
    requires |d.slides| >= 1
    ensures var e := RemoveSlide(InsertNewSlide(d, -1).deck, 0).deck;
      |e.slides| == 1 <==> |d.slides| == 1
    ensures |d.slides| == 1 ==> RemoveSlide(InsertNewSlide(d, -1).deck, 0).deck.slides == [Slide(d.nextId, [])]
  {
    ResetKeepsCount(d);
  }

  /** The deck with the shapes of page `i` replaced. */
  function WithShapes(d: Deck, i: nat, shapes: seq<Shape>): Deck
    requires i < |d.slides|
  {
    d.(slides := d.slides[i := Slide(d.slides[i].id, shapes)])
  }

  lemma WithShapesValid(d: Deck, i: nat, shapes: seq<Shape>)
    requires Valid(d) && i < |d.slides|
    ensures Valid(WithShapes(d, i, shapes))
  {
    var s := WithShapes(d, i, shapes).slides;
    assert forall k :: 0 <= k < |s| ==> s[k].id == d.slides[k].id;
  }

  /** A formatting value as the numeric conversion `float(v)` / `int(v)`
      sees it: integers and booleans convert, anything else raises. */
  function AsNumber(j: Json): (r: Option<int>)
    ensures j.JInt? ==> r == Some(j.i)
    ensures j.JBool? ==> r == Some(if j.b then 1 else 0)
    ensures !j.JInt? && !j.JBool? ==> r.None?
  {
    match j
    case JInt(i) => Some(i)
    case JBool(b) => Some(if b then 1 else 0)
    case _ => None
  }

  /** The keys `apply_text_formatting` reads. */
  const FormattingKeys: set<string> := {"font", "font_size", "color", "bold", "italic"}

  /** No key before "bold" makes its assignment raise. */
  predicate AppliesCleanly(m: map<string, Json>) {
    && ("font" in m ==> m["font"].JStr?)
    && ("font_size" in m ==> AsNumber(m["font_size"]).Some?)
    && ("color" in m ==> AsNumber(m["color"]).Some?)
  }

  /** `apply_text_formatting`: font, size, color, bold and italic are set in
      that order inside one `try`, so the first assignment that raises ends
      the formatting and keeps what was set before it. A formatting value that
      is not a dictionary changes nothing. */
  function ApplyTextFormatting(c: CharProps, f: Json): (r: CharProps)
    ensures r.strikeout == c.strikeout && r.paraAdjust == c.paraAdjust
    ensures !f.JObj? ==> r == c
  {
    match f
    case JObj(m) =>
      if "font" in m && !m["font"].JStr? then c
      else
        var c1 := if "font" in m then c.(fontName := m["font"].s) else c;
        if "font_size" in m && AsNumber(m["font_size"]).None? then c1
        else
          var c2 := if "font_size" in m then c1.(height := AsNumber(m["font_size"]).value) else c1;
          if "color" in m && AsNumber(m["color"]).None? then c2
          else
            var c3 := if "color" in m then c2.(color := AsNumber(m["color"]).value) else c2;
            var c4 := if "bold" in m then c3.(weight := if Truthy(m["bold"]) then BoldWeight else NormalWeight) else c3;
            if "italic" in m then c4.(posture := if Truthy(m["italic"]) then 1 else 0) else c4
    case _ => c
  }

  /** What `extract_formatting` reports for a text cursor. */
  datatype FormattingInfo = FormattingInfo(
    font: string,
    fontSize: int,
    color: int,
    bold: bool,
    italic: bool,
    strikeout: bool,
    alignment: string)

  /** The alignment names of the paragraph adjust codes 0 to 3. */
  function AlignmentName(code: int): (r: string)
    ensures 0 <= code <= 3 ==> r == ["left", "right", "center", "justify"][code]
    ensures (code < 0 || code > 3) <==> r == "unknown"
  {
    if code == 0 then "left"
    else if code == 1 then "right"
    else if code == 2 then "center"
    else if code == 3 then "justify"
    else "unknown"
  }

  /** `extract_formatting`: bold is weight 150, italic any non-zero posture,
      strikeout any non-zero strikeout code. */
  function ExtractFormatting(c: CharProps): (r: FormattingInfo)
    ensures r.bold <==> c.weight == BoldWeight
    ensures r.italic <==> c.posture != 0
    ensures r.strikeout <==> c.strikeout != 0
    ensures r.alignment == AlignmentName(c.paraAdjust)
    ensures r.font == c.fontName && r.fontSize == c.height && r.color == c.color
  {
    FormattingInfo(c.fontName, c.height, c.color, c.weight == BoldWeight, c.posture != 0,
                   c.strikeout != 0, AlignmentName(c.paraAdjust))
  }

  /** Bold and italic round-trip through apply and extract: a formatting
      dictionary whose earlier keys apply cleanly reads back the truthiness
      of its "bold" and "italic" values. */
  lemma BoldItalicRoundTrip(c: CharProps, m: map<string, Json>)
    requires AppliesCleanly(m)
    ensures "bold" in m ==> ExtractFormatting(ApplyTextFormatting(c, JObj(m))).bold == Truthy(m["bold"])
    ensures "italic" in m ==> ExtractFormatting(ApplyTextFormatting(c, JObj(m))).italic == Truthy(m["italic"])
    ensures "bold" !in m ==> ExtractFormatting(ApplyTextFormatting(c, JObj(m))).bold == ExtractFormatting(c).bold
    ensures "italic" !in m ==> ExtractFormatting(ApplyTextFormatting(c, JObj(m))).italic == ExtractFormatting(c).italic
  {
  }

  /** Font, size and colour also read back as given. */
  lemma FontSizeColorRoundTrip(c: CharProps, m: map<string, Json>)
    requires AppliesCleanly(m)
    ensures "font" in m ==> ExtractFormatting(ApplyTextFormatting(c, JObj(m))).font == m["font"].s
    ensures "font_size" in m ==> ExtractFormatting(ApplyTextFormatting(c, JObj(m))).fontSize == AsNumber(m["font_size"]).value
    ensures "color" in m ==> ExtractFormatting(ApplyTextFormatting(c, JObj(m))).color == AsNumber(m["color"]).value
  {
  }

  /** A font that is not a string stops everything: not even "bold" or
      "italic" are applied. */
  lemma BadFontStopsFormatting(c: CharProps, m: map<string, Json>)
    requires "font" in m && !m["font"].JStr?
    ensures ApplyTextFormatting(c, JObj(m)) == c
  {
  }

  /** Only the five keys matter: alignment, strikethrough and any other key
      are ignored, so alignment and strikeout read back unchanged. */
  lemma OtherKeysIgnored(c: CharProps, m: map<string, Json>, m': map<string, Json>)
    requires forall k :: k in FormattingKeys ==> (k in m <==> k in m')
    requires forall k :: k in FormattingKeys && k in m ==> m[k] == m'[k]
    ensures ApplyTextFormatting(c, JObj(m)) == ApplyTextFormatting(c, JObj(m'))
    ensures ExtractFormatting(ApplyTextFormatting(c, JObj(m))).alignment == ExtractFormatting(c).alignment
    ensures ExtractFormatting(ApplyTextFormatting(c, JObj(m))).strikeout == ExtractFormatting(c).strikeout
  {
    assert "font" in FormattingKeys && "font_size" in FormattingKeys && "color" in FormattingKeys;
    assert "bold" in FormattingKeys && "italic" in FormattingKeys;
  }

  /** `add_text_shape` on page `slideIndex` (an index outside the deck stands
      for a missing page). The geometry must be integers; the shape is added
      before its text is set, so a text that is not a string leaves an empty
      shape behind; a truthy formatting is applied to the new text. */
  function AddTextShape(d: Deck, slideIndex: int, text: Json, x: Json, y: Json, width: Json, height: Json,
                        formatting: Json): (o: Outcome)
    ensures slideIndex < 0 || slideIndex >= |d.slides| ==> o == Outcome(d, ErrorReply(NoSlide))
    ensures 0 <= slideIndex < |d.slides| && !(x.JInt? && y.JInt? && width.JInt? && height.JInt?)
            ==> o.deck == d && o.reply.ErrorReply?
  {
    if slideIndex < 0 || slideIndex >= |d.slides| then Outcome(d, ErrorReply(NoSlide))
    else if !(x.JInt? && y.JInt? && width.JInt? && height.JInt?) then
      Outcome(d, ErrorReply("Point/Size: integer expected"))
    else
      var before := d.slides[slideIndex].shapes;
      var blank := Shape(TextShapeType, true, "", x.i, y.i, width.i, height.i, d.defaults, None);
      if !text.JStr? then
        Outcome(WithShapes(d, slideIndex, before + [blank]), ErrorReply("setString: string expected"))
      else
        var chars := if Truthy(formatting) then ApplyTextFormatting(d.defaults, formatting) else d.defaults;
        var after := before + [blank.(text := text.s, chars := chars)];
        Outcome(WithShapes(d, slideIndex, after), TextShapeAdded(|after| - 1))
  }

  /** Adding a text shape keeps page identities distinct. */
  lemma AddTextShapeValid(d: Deck, slideIndex: int, text: Json, x: Json, y: Json, width: Json, height: Json,
                          formatting: Json)
    requires Valid(d)
    ensures Valid(AddTextShape(d, slideIndex, text, x, y, width, height, formatting).deck)
  {
    if 0 <= slideIndex < |d.slides| && x.JInt? && y.JInt? && width.JInt? && height.JInt? {
      var before := d.slides[slideIndex].shapes;
      var blank := Shape(TextShapeType, true, "", x.i, y.i, width.i, height.i, d.defaults, None);
      WithShapesValid(d, slideIndex, before + [blank]);
      if text.JStr? {
        var chars := if Truthy(formatting) then ApplyTextFormatting(d.defaults, formatting) else d.defaults;
        WithShapesValid(d, slideIndex, before + [blank.(text := text.s, chars := chars)]);
      }
    }
  }

  /** With a page and integer geometry, exactly one text shape is appended
      to that page, after the shapes it had, with the requested geometry; the
      reply's `shape_index` is the index of that shape, i.e. the new count
      minus one. Every other page is untouched. */
  lemma AddTextShapeAppends(d: Deck, slideIndex: int, text: Json, x: Json, y: Json, width: Json, height: Json,
                            formatting: Json)
    requires 0 <= slideIndex < |d.slides| && x.JInt? && y.JInt? && width.JInt? && height.JInt?
    ensures var o := AddTextShape(d, slideIndex, text, x, y, width, height, formatting);
      && |o.deck.slides| == |d.slides|
      && var before := d.slides[slideIndex].shapes;
      && var after := o.deck.slides[slideIndex].shapes;
      && (forall k :: 0 <= k < |d.slides| && k != slideIndex ==> o.deck.slides[k] == d.slides[k])
      && o.deck.slides[slideIndex].id == d.slides[slideIndex].id
      && o.deck.current == d.current && o.deck.nextId == d.nextId
      && |after| == |before| + 1 && after[..|before|] == before
      && after[|before|].shapeType == TextShapeType && after[|before|].hasText
      && after[|before|].x == x.i && after[|before|].y == y.i
      && after[|before|].width == width.i && after[|before|].height == height.i
      && after[|before|].text == (if text.JStr? then text.s else "")
      && after[|before|].chars == (if text.JStr? && Truthy(formatting) then ApplyTextFormatting(d.defaults, formatting) else d.defaults)
      && (text.JStr? ==> o.reply == TextShapeAdded(|after| - 1))
      && (!text.JStr? ==> o.reply.ErrorReply?)
  {
  }

  /** `update_shape_text`: the shape index must lie in [0, count) and the
      shape must take text; then only that shape's text (and, for a truthy
      formatting, its character properties) change. */
  function UpdateShapeText(d: Deck, slideIndex: int, shapeIndex: int, newText: Json, formatting: Json): (o: Outcome)
    ensures slideIndex < 0 || slideIndex >= |d.slides| ==> o == Outcome(d, ErrorReply(NoSlide))
    ensures 0 <= slideIndex < |d.slides| && (shapeIndex < 0 || shapeIndex >= |d.slides[slideIndex].shapes|)
            ==> o == Outcome(d, ErrorReply(InvalidShapeIndex))
    ensures 0 <= slideIndex < |d.slides| && 0 <= shapeIndex < |d.slides[slideIndex].shapes|
            && !d.slides[slideIndex].shapes[shapeIndex].hasText
            ==> o == Outcome(d, ErrorReply(NoTextSupport))
    ensures o.reply == ShapeTextUpdated ==>
      && 0 <= slideIndex < |d.slides| && 0 <= shapeIndex < |d.slides[slideIndex].shapes|
      && newText.JStr?
      && var old_ := d.slides[slideIndex].shapes[shapeIndex];
      && o.deck == WithShapes(d, slideIndex, d.slides[slideIndex].shapes[shapeIndex :=
           old_.(text := newText.s,
                 chars := if Truthy(formatting) then ApplyTextFormatting(old_.chars, formatting) else old_.chars)])
    ensures o.reply != ShapeTextUpdated ==> o.deck == d
  {
    if slideIndex < 0 || slideIndex >= |d.slides| then Outcome(d, ErrorReply(NoSlide))
    else
      var shapes := d.slides[slideIndex].shapes;
      if shapeIndex < 0 || shapeIndex >= |shapes| then Outcome(d, ErrorReply(InvalidShapeIndex))
      else if !shapes[shapeIndex].hasText then Outcome(d, ErrorReply(NoTextSupport))
      else if !newText.JStr? then Outcome(d, ErrorReply("setString: string expected"))
      else
        var s := shapes[shapeIndex];
        var chars := if Truthy(formatting) then ApplyTextFormatting(s.chars, formatting) else s.chars;
        Outcome(WithShapes(d, slideIndex, shapes[shapeIndex := s.(text := newText.s, chars := chars)]),
                ShapeTextUpdated)
  }

  /** After an update, every other shape and page is as before, and the
      updated shape keeps its kind and geometry. */
  lemma UpdateShapeTextLocal(d: Deck, slideIndex: int, shapeIndex: int, newText: Json, formatting: Json)
    requires UpdateShapeText(d, slideIndex, shapeIndex, newText, formatting).reply == ShapeTextUpdated
    ensures var e := UpdateShapeText(d, slideIndex, shapeIndex, newText, formatting).deck;
      && |e.slides| == |d.slides|
      && (forall k :: 0 <= k < |d.slides| && k != slideIndex ==> e.slides[k] == d.slides[k])
      && |e.slides[slideIndex].shapes| == |d.slides[slideIndex].shapes|
      && (forall k :: 0 <= k < |d.slides[slideIndex].shapes| && k != shapeIndex ==>
            e.slides[slideIndex].shapes[k] == d.slides[slideIndex].shapes[k])
      && e.slides[slideIndex].shapes[shapeIndex].text == newText.s
      && var s := d.slides[slideIndex].shapes[shapeIndex];
      && var t := e.slides[slideIndex].shapes[shapeIndex];
      && t.shapeType == s.shapeType && t.x == s.x && t.y == s.y && t.width == s.width && t.height == s.height
  {
  }

  /** The add-text request body with the handler's defaults filled in. */
  datatype AddTextRequest = AddTextRequest(
    text: Json, slideIndex: Json, x: Json, y: Json, width: Json, height: Json, formatting: Json)

  /** The `data.get(...)` calls of the add-text handler: each field is the
      body's value for its key, or the default when the key is absent. */
  function ReadAddTextRequest(body: map<string, Json>): (q: AddTextRequest)
    ensures q.text == (if "text" in body then body["text"] else JStr(""))
    ensures q.slideIndex == (if "slide_index" in body then body["slide_index"] else JNull)
    ensures q.x == (if "x" in body then body["x"] else JInt(1000))
    ensures q.y == (if "y" in body then body["y"] else JInt(1000))
    ensures q.width == (if "width" in body then body["width"] else JInt(10000))
    ensures q.height == (if "height" in body then body["height"] else JInt(2000))
    ensures q.formatting == (if "formatting" in body then body["formatting"] else JNull)
  {
    AddTextRequest(Get(body, "text", JStr("")), Get(body, "slide_index", JNull),
                   Get(body, "x", JInt(1000)), Get(body, "y", JInt(1000)),
                   Get(body, "width", JInt(10000)), Get(body, "height", JInt(2000)),
                   Get(body, "formatting", JNull))
  }

  /** The page an add-text request addresses: the current page when no
      `slide_index` is given, otherwise the page at that position; -1 when
      there is no such page (a position that is not an integer makes the
      lookup raise, which it reports as no page). */
  function RequestedSlide(d: Deck, slideIndex: Json): (k: int)
    ensures k == -1 || 0 <= k < |d.slides|
    ensures slideIndex.JNull? ==> k == CurrentIndex(d)
    ensures slideIndex.JInt? ==> k == (if 0 <= slideIndex.i < |d.slides| then slideIndex.i else -1)
    ensures !slideIndex.JNull? && !slideIndex.JInt? ==> k == -1
  {
    match slideIndex
    case JNull => CurrentIndex(d)
    case JInt(i) => if 0 <= i < |d.slides| then i else -1
    case _ => -1
  }

  /** Updating a shape's text keeps page identities distinct. */
  lemma UpdateShapeTextValid(d: Deck, slideIndex: int, shapeIndex: int, newText: Json, formatting: Json)
    requires Valid(d)
    ensures Valid(UpdateShapeText(d, slideIndex, shapeIndex, newText, formatting).deck)
  {
    var o := UpdateShapeText(d, slideIndex, shapeIndex, newText, formatting);
    if o.reply == ShapeTextUpdated {
      var s := d.slides[slideIndex].shapes[shapeIndex];
      var chars := if Truthy(formatting) then ApplyTextFormatting(s.chars, formatting) else s.chars;
      WithShapesValid(d, slideIndex, d.slides[slideIndex].shapes[shapeIndex := s.(text := newText.s, chars := chars)]);
    }
  }

  /** An HTTP response of the facade: status, the deck afterwards, and the
      JSON body. */
  datatype ApiOutcome = ApiOutcome(status: int, deck: Deck, reply: Reply)

  const MissingText := "Missing 'text' parameter"
  const SlideNotFound := "Slide not found"

  /** `api_add_text_to_slide` on an open presentation: a body that is not an
      object fails in the global handler (500); empty or missing text is
      refused with 400; a request for a page that does not exist gives 404;
      otherwise whatever `add_text_shape` replies is sent with 200. Only a
      200 response can change the deck. */
  function ApiAddText(d: Deck, body: Json): (r: ApiOutcome)
    ensures !body.JObj? ==> r.status == 500 && r.deck == d
    ensures body.JObj? && !Truthy(ReadAddTextRequest(body.fields).text) ==>
      r == ApiOutcome(400, d, ErrorReply(MissingText))
    ensures body.JObj? && Truthy(ReadAddTextRequest(body.fields).text)
            && RequestedSlide(d, ReadAddTextRequest(body.fields).slideIndex) == -1 ==>
      r == ApiOutcome(404, d, ErrorReply(SlideNotFound))
    ensures r.status == 200 <==>
      && body.JObj? && Truthy(ReadAddTextRequest(body.fields).text)
      && RequestedSlide(d, ReadAddTextRequest(body.fields).slideIndex) >= 0
    ensures r.status == 200 ==>
      var q := ReadAddTextRequest(body.fields);
      Outcome(r.deck, r.reply) ==
        AddTextShape(d, RequestedSlide(d, q.slideIndex), q.text, q.x, q.y, q.width, q.height, q.formatting)
    ensures r.status != 200 ==> r.deck == d
  {
    if !body.JObj? then ApiOutcome(500, d, ErrorReply("'data' has no attribute 'get'"))
    else
      var q := ReadAddTextRequest(body.fields);
      if !Truthy(q.text) then ApiOutcome(400, d, ErrorReply(MissingText))
      else
        var k := RequestedSlide(d, q.slideIndex);
        if k < 0 then ApiOutcome(404, d, ErrorReply(SlideNotFound))
        else
          var o := AddTextShape(d, k, q.text, q.x, q.y, q.width, q.height, q.formatting);
          ApiOutcome(200, o.deck, o.reply)
  }

  /** Whatever the request, the deck afterwards keeps page identities
      distinct. */
  lemma ApiAddTextValid(d: Deck, body: Json)
    requires Valid(d)
    ensures Valid(ApiAddText(d, body).deck)
  {
    if body.JObj? {
      var q := ReadAddTextRequest(body.fields);
      var k := RequestedSlide(d, q.slideIndex);
      AddTextShapeValid(d, k, q.text, q.x, q.y, q.width, q.height, q.formatting);
    }
  }
}
