/** What the setup actions of a generated task do to the slide deck when the
    environment runs them against the facade: each shell command names one
    facade request, whose effect on the deck is the corresponding function of
    `Slides`. This ties the assembled `config` lists to the deck the task's
    verifier later inspects. */
module Replay {
  import opened Values
  import opened Tasks
  import opened Slides
  import opened Assembly

  /** The JSON object the curl command of an add-text step sends: text and
      position always, formatting and size when the assembler set them. */
  function PayloadBody(p: TextboxPayload): map<string, Json> {
    var m := map["text" := p.text, "x" := JInt(p.x), "y" := JInt(p.y)];
    var m1 := if p.formatting.Some? then m["formatting" := JObj(p.formatting.value)] else m;
    var m2 := if p.width.Some? then m1["width" := JInt(p.width.value)] else m1;
    if p.height.Some? then m2["height" := JInt(p.height.value)] else m2
  }

  /** The request `p` becomes, as the add-text handler reads it. */
  lemma PayloadRequest(p: TextboxPayload)
    ensures var q := ReadAddTextRequest(PayloadBody(p));
      && q.text == p.text && q.slideIndex == JNull
      && q.x == JInt(p.x) && q.y == JInt(p.y)
      && q.width == JInt(p.width.GetOr(10000)) && q.height == JInt(p.height.GetOr(2000))
      && q.formatting == (if p.formatting.Some? then JObj(p.formatting.value) else JNull)
  {
    var m := PayloadBody(p);
    assert "slide_index" !in m;
  }

  /** One setup action. Slide creation reads `position` (default -1, the
      end) from its body; deleting and adding text are the facade functions;
      launching, connecting, sleeping, downloading and key presses leave the
      deck as it is. */
  function RunAction(d: Deck, a: Action): Deck {
    match a
    case Execute(NewSlideCmd(body), _) =>
      var position := Get(body, "position", JInt(-1));
      if position.JInt? then InsertNewSlide(d, position.i).deck else d
    case Execute(DeleteSlideCmd(index), _) => RemoveSlide(d, index).deck
    case Execute(AddTextCmd(p), _) => ApiAddText(d, JObj(PayloadBody(p))).deck
    case _ => d
  }

  /** The actions run one after another, first to last. */
  function RunActions(d: Deck, actions: seq<Action>): Deck
    decreases |actions|
  {
    if actions == [] then d else RunActions(RunAction(d, actions[0]), actions[1..])
  }

  lemma {:induction false} RunActionsAppend(d: Deck, a: seq<Action>, b: seq<Action>)
    ensures RunActions(d, a + b) == RunActions(RunActions(d, a), b)
    decreases |a|
  {
    if a == [] {
      assert a + b == b;
    } else {
      assert (a + b)[0] == a[0];
      assert (a + b)[1..] == a[1..] + b;
      RunActionsAppend(RunAction(d, a[0]), a[1..], b);
    }
  }

  /** A step followed by its sleep acts as the step alone. */
  lemma StepThenSleep(d: Deck, a: Action, seconds: nat)
    ensures RunActions(d, [a, Sleep(seconds)]) == RunAction(d, a)
  {
    var t := [a, Sleep(seconds)];
    assert t[1..] == [Sleep(seconds)];
    assert t[1..][1..] == [];
    assert RunActions(RunAction(d, a), [Sleep(seconds)]) == RunActions(RunAction(d, a), []);
  }

  /** Launching, waiting and connecting do not touch the deck. */
  lemma ReplayBaseConfig(d: Deck)
    ensures RunActions(d, BaseConfig()) == d
  {
    var c := BaseConfig();
    assert c[1..][1..][1..] == [];
  }

  /** The reset steps drop the original first page and append a blank page
      with a fresh identity, so the deck keeps its number of pages; the
      current page stays put unless it was the first page, when the page that
      moved into its place becomes current. */
  lemma ReplayReset(d: Deck)
    requires |d.slides| >= 1
    ensures var e := RunActions(d, ResetSteps());
      && e == RemoveSlide(InsertNewSlide(d, -1).deck, 0).deck
      && e.slides == d.slides[1..] + [Slide(d.nextId, [])]
      && |e.slides| == |d.slides|
      && e.nextId == d.nextId + 1 && e.defaults == d.defaults
  {
    ResetKeepsCount(d);
    var r := ResetSteps();
    assert r[1..][1..][1..][1..] == [];
    assert Get(map[], "position", JInt(-1)) == JInt(-1);
  }

  /** The text shape an add-text step places: the payload's geometry with
      the handler's default size where the payload has none, its text when it
      is a string (an empty text box otherwise) and its formatting applied to
      the deck's default character properties. */
  function PayloadShape(defaults: CharProps, p: TextboxPayload): Shape {
    Shape(TextShapeType, true, if p.text.JStr? then p.text.s else "",
          p.x, p.y, p.width.GetOr(10000), p.height.GetOr(2000),
          if p.text.JStr? && p.formatting.Some? then ApplyTextFormatting(defaults, JObj(p.formatting.value))
          else defaults,
          None)
  }

  /** The shapes a sequence of add-text steps places, in order: a payload
      with empty text is refused by the handler and places nothing. */
  function PlacedShapes(defaults: CharProps, ps: seq<TextboxPayload>): seq<Shape> {
    if ps == [] then []
    else
      var last := ps[|ps| - 1];
      PlacedShapes(defaults, ps[..|ps| - 1]) + (if Truthy(last.text) then [PayloadShape(defaults, last)] else [])
  }

  /** With non-empty texts, every payload places exactly one shape, the
      i-th payload the i-th shape. */
  lemma {:induction false} PlacedShapesAll(defaults: CharProps, ps: seq<TextboxPayload>)
    requires forall i :: 0 <= i < |ps| ==> Truthy(ps[i].text)
    ensures |PlacedShapes(defaults, ps)| == |ps|
    ensures forall i :: 0 <= i < |ps| ==> PlacedShapes(defaults, ps)[i] == PayloadShape(defaults, ps[i])
  {
    if ps != [] {
      var front := ps[..|ps| - 1];
      PlacedShapesAll(defaults, front);
      assert forall i :: 0 <= i < |front| ==> front[i] == ps[i];
    }
  }

  /** Pages with the same identities in the same order give the same
      position for every identity. */
  lemma {:induction false} IndexOfIdSameIds(s: seq<Slide>, t: seq<Slide>, id: nat)
    requires |s| == |t| && forall k :: 0 <= k < |s| ==> s[k].id == t[k].id
    ensures IndexOfId(s, id) == IndexOfId(t, id)
  {
    if s != [] {
      IndexOfIdSameIds(s[1..], t[1..], id);
    }
  }

  /** Replacing a page's shapes keeps the current page where it was. */
  lemma CurrentWithShapes(d: Deck, i: nat, shapes: seq<Shape>)
    requires i < |d.slides|
    ensures CurrentIndex(WithShapes(d, i, shapes)) == CurrentIndex(d)
  {
    var e := WithShapes(d, i, shapes);
    if d.current.Some? {
      IndexOfIdSameIds(d.slides, e.slides, d.current.value);
    }
  }

  /** One add-text step on the current page `k` appends the shape of its
      payload there, or nothing for an empty text. */
  lemma ReplayAddText(d: Deck, k: nat, p: TextboxPayload)
    requires k < |d.slides| && CurrentIndex(d) == k
    ensures RunAction(d, AddTextExec(p)) ==
      WithShapes(d, k, d.slides[k].shapes + (if Truthy(p.text) then [PayloadShape(d.defaults, p)] else []))
  {
    PayloadRequest(p);
    if Truthy(p.text) {
      assert RunAction(d, AddTextExec(p)) ==
        AddTextShape(d, k, p.text, JInt(p.x), JInt(p.y), JInt(p.width.GetOr(10000)), JInt(p.height.GetOr(2000)),
                     if p.formatting.Some? then JObj(p.formatting.value) else JNull).deck;
      if p.text.JStr? && p.formatting.Some? && p.formatting.value == map[] {
        assert ApplyTextFormatting(d.defaults, JObj(p.formatting.value)) == d.defaults;
      }
    } else {
      assert d.slides[k].shapes + [] == d.slides[k].shapes;
      assert d.slides[k := Slide(d.slides[k].id, d.slides[k].shapes)] == d.slides;
    }
  }

  /** The add-text loop of an assembler, replayed with the current page at
      `k`: the payloads' shapes land on that page after the shapes it held,
      in payload order, and nothing else changes. */
  lemma {:induction false} ReplayAddTextSteps(d: Deck, k: nat, ps: seq<TextboxPayload>)
    requires k < |d.slides| && CurrentIndex(d) == k
    ensures RunActions(d, AddTextSteps(ps)) == WithShapes(d, k, d.slides[k].shapes + PlacedShapes(d.defaults, ps))
  {
    if ps == [] {
      assert d.slides[k].shapes + [] == d.slides[k].shapes;
      assert d.slides[k := Slide(d.slides[k].id, d.slides[k].shapes)] == d.slides;
    } else {
      var front := ps[..|ps| - 1];
      var last := ps[|ps| - 1];
      var placed := if Truthy(last.text) then [PayloadShape(d.defaults, last)] else [];
      ReplayAddTextSteps(d, k, front);
      var e := WithShapes(d, k, d.slides[k].shapes + PlacedShapes(d.defaults, front));
      CurrentWithShapes(d, k, d.slides[k].shapes + PlacedShapes(d.defaults, front));
      RunActionsAppend(d, AddTextSteps(front), [AddTextExec(last), Sleep(1)]);
      ReplayAddText(e, k, last);
      StepThenSleep(e, AddTextExec(last), 1);
      assert e.slides[k].shapes + placed == d.slides[k].shapes + PlacedShapes(d.defaults, ps);
    }
  }

  /** The setup of a text-box task (select_box, select_content,
      text_formatting_textbox) on a presentation with one page that is also
      the current one: afterwards the deck holds a single fresh page, current,
      carrying exactly the placed shapes of the payloads. */
  lemma ReplayTextboxSetup(d: Deck, ps: seq<TextboxPayload>)
    requires |d.slides| == 1 && d.current == Some(d.slides[0].id)
    ensures RunActions(d, BaseConfig() + ResetSteps() + AddTextSteps(ps)) ==
      Deck([Slide(d.nextId, PlacedShapes(d.defaults, ps))], Some(d.nextId), d.nextId + 1, d.defaults)
  {
    RunActionsAppend(d, BaseConfig() + ResetSteps(), AddTextSteps(ps));
    RunActionsAppend(d, BaseConfig(), ResetSteps());
    ReplayBaseConfig(d);
    ReplayReset(d);
    var e := RunActions(d, ResetSteps());
    assert e.slides == [Slide(d.nextId, [])];
    assert e.current == Some(d.nextId);
    assert CurrentIndex(e) == 0;
    ReplayAddTextSteps(e, 0, ps);
    assert [] + PlacedShapes(d.defaults, ps) == PlacedShapes(d.defaults, ps);
  }

  /** Whatever the deck, the setup of a text-box task keeps its number of
      pages. */
  lemma ReplayKeepsPageCount(d: Deck, ps: seq<TextboxPayload>)
    requires |d.slides| >= 1
    ensures |RunActions(d, BaseConfig() + ResetSteps() + AddTextSteps(ps)).slides| == |d.slides|
  {
    RunActionsAppend(d, BaseConfig() + ResetSteps(), AddTextSteps(ps));
    RunActionsAppend(d, BaseConfig(), ResetSteps());
    ReplayBaseConfig(d);
    ReplayReset(d);
    AddTextStepsKeepCount(RunActions(d, ResetSteps()), ps);
  }

  lemma {:induction false} AddTextStepsKeepCount(d: Deck, ps: seq<TextboxPayload>)
    ensures |RunActions(d, AddTextSteps(ps)).slides| == |d.slides|
  {
    if ps != [] {
      var front := ps[..|ps| - 1];
      AddTextStepsKeepCount(d, front);
      var e := RunActions(d, AddTextSteps(front));
      RunActionsAppend(d, AddTextSteps(front), [AddTextExec(ps[|ps| - 1]), Sleep(1)]);
      StepThenSleep(e, AddTextExec(ps[|ps| - 1]), 1);
      var r := ApiAddText(e, JObj(PayloadBody(ps[|ps| - 1])));
      assert |r.deck.slides| == |e.slides|;
    }
  }

  /** The select_box target reads back as drawn: at the default size, with
      its bold, italic and font size; the drawn alignment is not applied, so
      the shape keeps the default alignment. */
  lemma SelectBoxTargetReadsBack(defaults: CharProps, p: TextboxPayload, t: string)
    requires SelectBoxTargetOk(p, JStr(t))
    ensures var s := PayloadShape(defaults, p);
      var f := p.formatting.value;
      var info := ExtractFormatting(s.chars);
      && s.text == t && s.x == p.x && s.y == p.y && s.width == 10000 && s.height == 2000
      && info.bold == f["bold"].b && info.italic == f["italic"].b && info.fontSize == f["font_size"].i
      && info.alignment == AlignmentName(defaults.paraAdjust)
  {
    var f := p.formatting.value;
    BoldItalicRoundTrip(defaults, f);
    FontSizeColorRoundTrip(defaults, f);
  }

  /** A select_box distractor keeps its drawn size. */
  lemma DistractorKeepsSize(defaults: CharProps, p: TextboxPayload, t: string)
    requires SelectBoxDistractorOk(p, JStr(t))
    ensures var s := PayloadShape(defaults, p);
      && s.width == p.width.value && s.height == p.height.value
      && 8000 <= s.width <= 12000 && 1500 <= s.height <= 4000
  {
  }

  /** The select_content box's drawn width and height travel inside its
      formatting, which ignores them: the shape gets the handler's default
      size instead, and its bold, italic and font size read back. */
  lemma SelectContentSizeIgnored(defaults: CharProps, p: TextboxPayload, t: string)
    requires SelectContentBoxOk(p, JStr(t))
    ensures var s := PayloadShape(defaults, p);
      var f := p.formatting.value;
      var info := ExtractFormatting(s.chars);
      && s.text == t && s.width == 10000 && s.height == 2000
      && info.bold == f["bold"].b && info.italic == f["italic"].b && info.fontSize == f["font_size"].i
  {
    var f := p.formatting.value;
    var g := f - {"width", "height"};
    assert "font" !in f && "color" !in f by {
      assert "font" in f ==> "font" in g;
      assert "color" in f ==> "color" in g;
    }
    assert f["bold"] == (f - {"width", "height"})["bold"];
    assert f["italic"] == (f - {"width", "height"})["italic"];
    assert f["font_size"] == (f - {"width", "height"})["font_size"];
    BoldItalicRoundTrip(defaults, f);
    FontSizeColorRoundTrip(defaults, f);
  }

  /** The text_formatting_textbox box starts with the default character
      properties, which is what the task then asks to change. */
  lemma TextFormattingBoxPlain(defaults: CharProps, p: TextboxPayload, t: string)
    requires TextFormattingBoxOk(p, JStr(t))
    ensures var s := PayloadShape(defaults, p);
      && s.text == t && s.chars == defaults
      && s.width == p.width.value && s.height == p.height.value
  {
  }

  /** select_box, end to end: replayed on a one-page deck, the setup leaves
      one page whose first shape shows the target text, drawn as formatted,
      and one further shape per element that iterating the evaluator's
      `other_textboxes` value visits, in order. When that value is a list
      the shapes show exactly its texts; when it is a string, the setup
      draws one box per character, while the rules hold the whole string. */
  lemma SelectBoxSetupMatchesRules(d: Deck, boxes: seq<TextboxPayload>, target: string, rules: Json)
    requires |d.slides| == 1 && d.current == Some(d.slides[0].id)
    requires Iterate(rules).Some? && |boxes| == 1 + |Iterate(rules).value| && target != ""
    requires SelectBoxTargetOk(boxes[0], JStr(target))
    requires forall i :: 0 <= i < |Iterate(rules).value| ==>
      SelectBoxDistractorOk(boxes[i + 1], Iterate(rules).value[i])
    requires rules.JArr? ==> forall i :: 0 <= i < |rules.items| ==> rules.items[i].JStr? && rules.items[i].s != ""
    ensures var e := RunActions(d, BaseConfig() + ResetSteps() + AddTextSteps(boxes));
      && |e.slides| == 1 && |e.slides[0].shapes| == |boxes|
      && e.slides[0].shapes[0].text == target
      && ExtractFormatting(e.slides[0].shapes[0].chars).bold == boxes[0].formatting.value["bold"].b
      && ExtractFormatting(e.slides[0].shapes[0].chars).italic == boxes[0].formatting.value["italic"].b
    ensures var e := RunActions(d, BaseConfig() + ResetSteps() + AddTextSteps(boxes));
      rules.JArr? ==> forall i :: 0 <= i < |rules.items| ==> JStr(e.slides[0].shapes[i + 1].text) == rules.items[i]
    ensures var e := RunActions(d, BaseConfig() + ResetSteps() + AddTextSteps(boxes));
      rules.JStr? ==> |e.slides[0].shapes| == 1 + |rules.s|
                      && forall i :: 0 <= i < |rules.s| ==> e.slides[0].shapes[i + 1].text == [rules.s[i]]
  {
    var others := Iterate(rules).value;
    ReplayTextboxSetup(d, boxes);
    forall i | 0 <= i < |boxes|
      ensures Truthy(boxes[i].text)
    {
      if i > 0 {
        assert SelectBoxDistractorOk(boxes[(i - 1) + 1], others[i - 1]);
      }
    }
    PlacedShapesAll(d.defaults, boxes);
    SelectBoxTargetReadsBack(d.defaults, boxes[0], target);
    forall i | 0 <= i < |others|
      ensures JStr(PlacedShapes(d.defaults, boxes)[i + 1].text) == others[i]
    {
      assert SelectBoxDistractorOk(boxes[i + 1], others[i]);
    }
  }

  /** text_formatting_textbox, end to end: the one page holds one shape
      with the text the evaluator names and the default character
      properties, so any formatting the verifier finds was applied by the
      agent. */
  lemma TextFormattingSetupMatchesRules(d: Deck, box: TextboxPayload, target: string)
    requires |d.slides| == 1 && d.current == Some(d.slides[0].id)
    requires target != "" && TextFormattingBoxOk(box, JStr(target))
    ensures var e := RunActions(d, BaseConfig() + ResetSteps() + AddTextSteps([box]));
      && |e.slides| == 1 && |e.slides[0].shapes| == 1
      && e.slides[0].shapes[0].text == target && e.slides[0].shapes[0].chars == d.defaults
  {
    ReplayTextboxSetup(d, [box]);
    PlacedShapesAll(d.defaults, [box]);
    TextFormattingBoxPlain(d.defaults, box, target);
  }

  /** select_content, end to end: the one page holds one shape with the
      full text at the default size. */
  lemma SelectContentSetup(d: Deck, box: TextboxPayload, full: string)
    requires |d.slides| == 1 && d.current == Some(d.slides[0].id)
    requires full != "" && SelectContentBoxOk(box, JStr(full))
    ensures var e := RunActions(d, BaseConfig() + ResetSteps() + AddTextSteps([box]));
      && |e.slides| == 1 && |e.slides[0].shapes| == 1
      && e.slides[0].shapes[0].text == full
      && e.slides[0].shapes[0].width == 10000 && e.slides[0].shapes[0].height == 2000
  {
    ReplayTextboxSetup(d, [box]);
    PlacedShapesAll(d.defaults, [box]);
    SelectContentSizeIgnored(d.defaults, box, full);
  }
}
