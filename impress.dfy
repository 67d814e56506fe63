/** The document facade's functions over the live presentation. The open
    document is an object whose page list and current page change in place;
    each function that changes it is proved to leave the deck that the
    matching function of `Slides` describes. A `null` document is
    `get_current_presentation()` returning `None`. */
module Impress {
  import opened Values
  import opened Slides

  /** The open presentation document. */
  class Presentation {
    var slides: seq<Slide>
    var current: Option<nat>
    var nextId: nat
    const defaults: CharProps
    /** `doc.getTitle()`, `None` when the document has no title accessor. */
    const title: Option<string>

    /** The deck this document currently holds. */
    function State(): Deck
      reads this
    {
      Deck(slides, current, nextId, defaults)
    }

    constructor (title: Option<string>, defaults: CharProps)
      ensures State() == Deck([Slide(0, [])], Some(0), 1, defaults) && this.title == title
      ensures Valid(State())
    {
      this.slides := [Slide(0, [])];
      this.current := Some(0);
      this.nextId := 1;
      this.defaults := defaults;
      this.title := title;
    }
  }

  /** `add_new_slide(doc, position)`. */
  method AddNewSlide(doc: Presentation?, position: int) returns (reply: Reply)
    modifies doc
    ensures doc == null ==> reply == ErrorReply(NoPresentation)
    ensures doc != null ==> Outcome(doc.State(), reply) == InsertNewSlide(old(doc.State()), position)
    ensures doc != null && Valid(old(doc.State())) ==> Valid(doc.State())
  {
    if doc == null {
      return ErrorReply(NoPresentation);
    }
    if Valid(doc.State()) {
      InsertNewSlideValid(doc.State(), position);
    }
    var pos := position;
    if pos == -1 {
      pos := |doc.slides|;
    }
    if pos < 0 || pos > |doc.slides| {
      return ErrorReply("insertNewByIndex: index out of range");
    }
    doc.slides := doc.slides[..pos] + [Slide(doc.nextId, [])] + doc.slides[pos..];
    doc.nextId := doc.nextId + 1;
    reply := NewSlideAdded(pos, |doc.slides|);
  }

  /** `delete_slide(doc, slide_index)`. */
  method DeleteSlide(doc: Presentation?, slideIndex: int) returns (reply: Reply)
    modifies doc
    ensures doc == null ==> reply == ErrorReply(NoPresentation)
    ensures doc != null ==> Outcome(doc.State(), reply) == RemoveSlide(old(doc.State()), slideIndex)
    ensures doc != null && Valid(old(doc.State())) ==> Valid(doc.State())
  {
    if doc == null {
      return ErrorReply(NoPresentation);
    }
    if Valid(doc.State()) {
      RemoveSlideValid(doc.State(), slideIndex);
    }
    if slideIndex < 0 || slideIndex >= |doc.slides| {
      return ErrorReply(InvalidSlideIndex);
    }
    var before := doc.State();
    var rest := doc.slides[..slideIndex] + doc.slides[slideIndex + 1..];
    doc.current := CurrentAfterRemove(before, slideIndex, rest);
    doc.slides := rest;
    reply := SlideDeleted(|doc.slides|);
  }

  /** `get_slide_by_index(doc, index)`. */
  method GetSlideByIndex(doc: Presentation?, index: int) returns (slide: Option<Slide>)
    ensures doc == null ==> slide.None?
    ensures doc != null ==> (slide.None? <==> index < 0 || index >= |doc.slides|)
    ensures doc != null && slide.Some? ==> slide.value == doc.slides[index]
  {
    if doc == null || index < 0 || index >= |doc.slides| {
      return None;
    }
    return Some(doc.slides[index]);
  }

  /** `get_current_slide(doc)`, as the position of the controller's current
      page among the draw pages. */
  method GetCurrentSlide(doc: Presentation?) returns (index: Option<nat>)
    ensures doc == null ==> index.None?
    ensures doc != null && index.Some? ==> index.value == CurrentIndex(doc.State())
    ensures doc != null && index.Some? ==> index.value < |doc.slides| && Some(doc.slides[index.value].id) == doc.current
    ensures doc != null && index.None? ==> CurrentIndex(doc.State()) == -1
  {
    if doc == null {
      return None;
    }
    var k := CurrentIndex(doc.State());
    if k < 0 {
      return None;
    }
    return Some(k);
  }

  /** `get_presentation_info(doc)`: the page count, the position of the first
      draw page that is the current page (-1 when none is), and the title. */
  method GetPresentationInfo(doc: Presentation?) returns (reply: Reply)
    ensures doc == null ==> reply == ErrorReply(NoPresentation)
    ensures doc != null ==> reply.PresentationInfo? && reply.totalSlides == |doc.slides|
    ensures doc != null ==> reply.presentationName == doc.title.GetOr("Untitled")
    ensures doc != null ==> reply.currentSlideIndex == CurrentIndex(doc.State())
    ensures doc != null && reply.currentSlideIndex >= 0 ==>
      doc.current == Some(doc.slides[reply.currentSlideIndex].id)
  {
    if doc == null {
      return ErrorReply(NoPresentation);
    }
    var pages := doc.slides;
    var currentIndex := -1;
    var i := 0;
    while i < |pages|
      invariant 0 <= i <= |pages|
      invariant currentIndex == -1
      invariant forall k :: 0 <= k < i ==> Some(pages[k].id) != doc.current
    {
      if Some(pages[i].id) == doc.current {
        currentIndex := i;
        break;
      }
      i := i + 1;
    }
    reply := PresentationInfo(|pages|, currentIndex, doc.title.GetOr("Untitled"));
  }

  /** The `extract_table_info` reply: the table's counts and the text of
      every cell, row by row, or an error. */
  datatype TableInfo =
    | TableData(rows: nat, columns: nat, data: seq<seq<string>>)
    | TableError(message: string)

  /** `extract_table_info(shape)`: `data` has exactly `rows` rows of
      `columns` entries, entry [r][c] being cell (c, r); a cell that cannot be
      read contributes "". */
  method ExtractTableInfo(shape: Shape) returns (info: TableInfo)
    ensures shape.table.None? <==> info == TableError("TableShape has no Model")
    ensures shape.table.Some? ==>
      var m := shape.table.value;
      && info.TableData? && info.rows == m.rows && info.columns == m.cols
      && |info.data| == m.rows
      && (forall r :: 0 <= r < m.rows ==> |info.data[r]| == m.cols)
      && (forall r, c :: 0 <= r < m.rows && 0 <= c < m.cols ==> info.data[r][c] == CellText(m, c, r))
  {
    if shape.table.None? {
      return TableError("TableShape has no Model");
    }
    var model := shape.table.value;
    var data: seq<seq<string>> := [];
    for r := 0 to model.rows
      invariant |data| == r
      invariant forall r' :: 0 <= r' < r ==> |data[r']| == model.cols
      invariant forall r', c :: 0 <= r' < r && 0 <= c < model.cols ==> data[r'][c] == CellText(model, c, r')
    {
      var rowVals: seq<string> := [];
      for c := 0 to model.cols
        invariant |rowVals| == c
        invariant forall c' :: 0 <= c' < c ==> rowVals[c'] == CellText(model, c', r)
      {
        var cell := if (c, r) in model.cells then model.cells[(c, r)] else "";
        rowVals := rowVals + [cell];
      }
      data := data + [rowVals];
    }
    info := TableData(model.rows, model.cols, data);
  }

  /** `add_text_shape(slide, ...)` on the page at `slideIndex`. */
  method AddTextShape(doc: Presentation, slideIndex: int, text: Json, x: Json, y: Json,
                      width: Json, height: Json, formatting: Json) returns (reply: Reply)
    modifies doc
    ensures Outcome(doc.State(), reply) ==
            Slides.AddTextShape(old(doc.State()), slideIndex, text, x, y, width, height, formatting)
    ensures Valid(old(doc.State())) ==> Valid(doc.State())
  {
    if Valid(doc.State()) {
      AddTextShapeValid(doc.State(), slideIndex, text, x, y, width, height, formatting);
    }
    ghost var expected := Slides.AddTextShape(doc.State(), slideIndex, text, x, y, width, height, formatting);
    if slideIndex < 0 || slideIndex >= |doc.slides| {
      return ErrorReply(NoSlide);
    }
    if !(x.JInt? && y.JInt? && width.JInt? && height.JInt?) {
      return ErrorReply("Point/Size: integer expected");
    }
    ghost var before := doc.State();
    var shape := Shape(TextShapeType, true, "", x.i, y.i, width.i, height.i, doc.defaults, None);
    var page := doc.slides[slideIndex];
    doc.slides := doc.slides[slideIndex := Slide(page.id, page.shapes + [shape])];
    if !text.JStr? {
      assert expected == Outcome(WithShapes(before, slideIndex, page.shapes + [shape]), ErrorReply("setString: string expected"));
      assert doc.State() == WithShapes(before, slideIndex, page.shapes + [shape]);
      return ErrorReply("setString: string expected");
    }
    shape := shape.(text := text.s);
    if Truthy(formatting) {
      shape := shape.(chars := ApplyTextFormatting(shape.chars, formatting));
    }
    var shapes := page.shapes + [shape];
    doc.slides := doc.slides[slideIndex := Slide(page.id, shapes)];
    assert expected == Outcome(WithShapes(before, slideIndex, shapes), TextShapeAdded(|shapes| - 1));
    assert doc.State() == WithShapes(before, slideIndex, shapes);
    reply := TextShapeAdded(|shapes| - 1);
  }

  /** `update_shape_text(slide, shape_index, new_text, formatting)` on the
      page at `slideIndex`. */
  method UpdateShapeText(doc: Presentation, slideIndex: int, shapeIndex: int, newText: Json,
                         formatting: Json) returns (reply: Reply)
    modifies doc
    ensures Outcome(doc.State(), reply) ==
            Slides.UpdateShapeText(old(doc.State()), slideIndex, shapeIndex, newText, formatting)
    ensures Valid(old(doc.State())) ==> Valid(doc.State())
  {
    if Valid(doc.State()) {
      UpdateShapeTextValid(doc.State(), slideIndex, shapeIndex, newText, formatting);
    }
    if slideIndex < 0 || slideIndex >= |doc.slides| {
      return ErrorReply(NoSlide);
    }
    var page := doc.slides[slideIndex];
    if shapeIndex < 0 || shapeIndex >= |page.shapes| {
      return ErrorReply(InvalidShapeIndex);
    }
    var shape := page.shapes[shapeIndex];
    if !shape.hasText {
      return ErrorReply(NoTextSupport);
    }
    if !newText.JStr? {
      return ErrorReply("setString: string expected");
    }
    shape := shape.(text := newText.s);
    if Truthy(formatting) {
      shape := shape.(chars := ApplyTextFormatting(shape.chars, formatting));
    }
    doc.slides := doc.slides[slideIndex := Slide(page.id, page.shapes[shapeIndex := shape])];
    reply := ShapeTextUpdated;
  }

  /** An HTTP reply: status code and JSON body. */
  datatype HttpReply = HttpReply(status: int, body: Reply)

  /** `api_add_text_to_slide`. Without a presentation the text check still
      comes first (400) and then the 404; with one, the response and the new
      state are those `Slides.ApiAddText` gives, and only a 200 response
      touches the document. */
  method ApiAddTextToSlide(doc: Presentation?, body: Json) returns (reply: HttpReply)
    modifies doc
    ensures !body.JObj? ==> reply.status == 500
    ensures body.JObj? && !Truthy(ReadAddTextRequest(body.fields).text) ==>
      reply == HttpReply(400, ErrorReply(MissingText))
    ensures body.JObj? && Truthy(ReadAddTextRequest(body.fields).text) && doc == null ==>
      reply == HttpReply(404, ErrorReply(NoPresentation))
    ensures doc != null ==>
      ApiOutcome(reply.status, doc.State(), reply.body) == ApiAddText(old(doc.State()), body)
    ensures reply.status != 200 && doc != null ==> unchanged(doc)
    ensures doc != null && Valid(old(doc.State())) ==> Valid(doc.State())
  {
    if doc != null && Valid(doc.State()) {
      ApiAddTextValid(doc.State(), body);
    }
    if !body.JObj? {
      return HttpReply(500, ErrorReply("'data' has no attribute 'get'"));
    }
    var q := ReadAddTextRequest(body.fields);
    if !Truthy(q.text) {
      return HttpReply(400, ErrorReply(MissingText));
    }
    if doc == null {
      return HttpReply(404, ErrorReply(NoPresentation));
    }
    var k: int;
    if q.slideIndex.JNull? {
      var cur := GetCurrentSlide(doc);
      k := if cur.Some? then cur.value else -1;
    } else if q.slideIndex.JInt? {
      var s := GetSlideByIndex(doc, q.slideIndex.i);
      k := if s.Some? then q.slideIndex.i else -1;
    } else {
      k := -1;
    }
    if k < 0 {
      return HttpReply(404, ErrorReply(SlideNotFound));
    }
    var r := AddTextShape(doc, k, q.text, q.x, q.y, q.width, q.height, q.formatting);
    reply := HttpReply(200, r);
  }
}
