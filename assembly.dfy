/** The per-type assemblers of the task generator and the dispatch that
    picks one. Each assembler grows a copy of the bootstrap `config` with the
    task's setup actions and sets the evaluator from the same `content`.
    The random draws are the nondeterministic methods at the top. */
module Assembly {
  import opened Values
  import opened Text
  import opened Tasks

  /** `random.randint(lo, hi)`: any integer of the closed range. */
  method RandInt(lo: int, hi: int) returns (n: int)
    requires lo <= hi
    ensures lo <= n <= hi
  {
    n :| lo <= n <= hi;
  }

  /** `random.choice(options)`: any element of a non-empty list. */
  method Choice<T(==)>(options: seq<T>) returns (c: T)
    requires |options| > 0
    ensures c in options
  {
    var k :| 0 <= k < |options|;
    c := options[k];
  }

  const TargetBoxKey := "text_in_textbox"
  const EnvKey := "environment_excluding_the_target_textbox"
  const OtherBoxesKey := "other_textboxes"
  const VerificationKey := "verification_type"
  const Alignments: seq<string> := ["left", "right", "center"]

  /** The random formatting of a select_box / select_content textbox. */
  predicate BoxFormattingOk(f: map<string, Json>) {
    && f.Keys == {"bold", "italic", "font_size", "alignment"}
    && f["bold"].JBool? && f["italic"].JBool?
    && f["font_size"].JInt? && 10 <= f["font_size"].i <= 50
    && f["alignment"].JStr? && f["alignment"].s in Alignments
  }

  predicate InRange(v: Option<int>, lo: int, hi: int) {
    v.Some? && lo <= v.value <= hi
  }

  /** The target textbox of a select_box task: placed in [1000,18000] x
      [1000,14000], random formatting, no size keys. */
  predicate SelectBoxTargetOk(p: TextboxPayload, text: Json) {
    && p.text == text
    && 1000 <= p.x <= 18000 && 1000 <= p.y <= 14000
    && p.formatting.Some? && BoxFormattingOk(p.formatting.value)
    && p.width.None? && p.height.None?
  }

  /** A distractor textbox: as the target, plus a size of
      [8000,12000] x [1500,4000]. */
  predicate SelectBoxDistractorOk(p: TextboxPayload, text: Json) {
    && p.text == text
    && 1000 <= p.x <= 18000 && 1000 <= p.y <= 14000
    && p.formatting.Some? && BoxFormattingOk(p.formatting.value)
    && InRange(p.width, 8000, 12000) && InRange(p.height, 1500, 4000)
  }

  /** The single textbox of a select_content task: placed in [1000,16000] x
      [1000,10000]; the drawn width and height sit inside `formatting`. */
  predicate SelectContentBoxOk(p: TextboxPayload, text: Json) {
    && p.text == text
    && 1000 <= p.x <= 16000 && 1000 <= p.y <= 10000
    && p.formatting.Some?
    && var f := p.formatting.value;
    && "width" in f && "height" in f
    && BoxFormattingOk(f - {"width", "height"})
    && InRange(AsInt(f["width"]), 8000, 12000) && InRange(AsInt(f["height"]), 1500, 4000)
    && p.width.None? && p.height.None?
  }

  /** The single textbox of a text_formatting_textbox task: placed like the
      select_content box, with a size and no formatting. */
  predicate TextFormattingBoxOk(p: TextboxPayload, text: Json) {
    && p.text == text
    && 1000 <= p.x <= 16000 && 1000 <= p.y <= 10000
    && p.formatting.None?
    && InRange(p.width, 8000, 12000) && InRange(p.height, 1500, 4000)
  }

  method DrawBoxFormatting() returns (f: map<string, Json>)
    ensures BoxFormattingOk(f)
  {
    var bold := Choice([true, false]);
    var italic := Choice([true, false]);
    var size := RandInt(10, 50);
    var align := Choice(Alignments);
    f := map["bold" := JBool(bold), "italic" := JBool(italic),
             "font_size" := JInt(size), "alignment" := JStr(align)];
  }

  method DrawSelectBoxTarget(text: Json) returns (p: TextboxPayload)
    ensures SelectBoxTargetOk(p, text)
  {
    var x := RandInt(1000, 18000);
    var y := RandInt(1000, 14000);
    var f := DrawBoxFormatting();
    p := TextboxPayload(text, x, y, Some(f), None, None);
  }

  method DrawDistractor(text: Json) returns (p: TextboxPayload)
    ensures SelectBoxDistractorOk(p, text)
  {
    var x := RandInt(1000, 18000);
    var y := RandInt(1000, 14000);
    var f := DrawBoxFormatting();
    var w := RandInt(8000, 12000);
    var h := RandInt(1500, 4000);
    p := TextboxPayload(text, x, y, Some(f), Some(w), Some(h));
  }

  /** The postconfig of a select_box task: press the delete key. */
  function PressDelete(): seq<Action> {
    [Execute(PressDeleteCmd, false)]
  }

  /** The distractor texts the setup loop iterates over: `other_textboxes`,
      defaulting to `[]` when the key is absent. */
  function SetupOthers(env: map<string, Json>): Option<seq<Json>> {
    Iterate(Get(env, OtherBoxesKey, JArr([])))
  }

  /** Every lookup of `_create_select_box_task` succeeds. */
  predicate SelectBoxReady(d: TaskData) {
    && Lookup(d.content, TargetBoxKey).Ok?
    && Lookup(d.content, EnvKey).Ok?
    && d.content.fields[EnvKey].JObj?
    && SetupOthers(d.content.fields[EnvKey].fields).Some?
    && Lookup(d.expectedResult, VerificationKey).Ok?
    && OtherBoxesKey in d.content.fields[EnvKey].fields
  }

  /** `_create_select_box_task`: reset to one slide, add the target textbox
      and then each distractor, and check the distractors in the evaluator.
      `boxes` are the add-text request bodies it generated. */
  method SelectBoxTask(base: Task, data: TaskData) returns (r: Result<Task, Failure>, boxes: seq<TextboxPayload>)
    ensures r.Ok? <==> SelectBoxReady(data)
    ensures data.content.JObj? && TargetBoxKey !in data.content.fields ==> r == Err(KeyError(TargetBoxKey))
    ensures
      && Lookup(data.content, TargetBoxKey).Ok? && Lookup(data.content, EnvKey).Ok?
      && data.content.fields[EnvKey].JObj?
      && OtherBoxesKey !in data.content.fields[EnvKey].fields
      && Lookup(data.expectedResult, VerificationKey).Ok?
      ==> r == Err(KeyError(OtherBoxesKey))
    ensures r.Ok? ==>
      var env := data.content.fields[EnvKey].fields;
      var others := SetupOthers(env).value;
      && |boxes| == 1 + |others|
      && SelectBoxTargetOk(boxes[0], data.content.fields[TargetBoxKey])
      && (forall i :: 0 <= i < |others| ==> SelectBoxDistractorOk(boxes[i + 1], others[i]))
      && r.value == base.(
           config := base.config + ResetSteps() + AddTextSteps(boxes),
           evaluator := Some(Evaluator(Some(PressDelete()), "textbox_selection_verification",
                                       "current_content", data.expectedResult.fields[VerificationKey],
                                       map[OtherBoxesKey := env[OtherBoxesKey]])))
  {
    boxes := [];
    var config := base.config + ResetSteps();
    var target := Lookup(data.content, TargetBoxKey);
    if target.Err? {
      return Err(target.error), boxes;
    }
    var envR := Lookup(data.content, EnvKey);
    if envR.Err? {
      return Err(envR.error), boxes;
    }
    if !envR.value.JObj? {
      return Err(AttributeError("get")), boxes;
    }
    var env := envR.value.fields;
    var first := DrawSelectBoxTarget(target.value);
    boxes := [first];
    var items := SetupOthers(env);
    if items.None? {
      return Err(TypeError("not iterable")), boxes;
    }
    var others := items.value;
    for i := 0 to |others|
      invariant |boxes| == 1 + i
      invariant SelectBoxTargetOk(boxes[0], target.value)
      invariant forall k :: 0 <= k < i ==> SelectBoxDistractorOk(boxes[k + 1], others[k])
    {
      var p := DrawDistractor(others[i]);
      boxes := boxes + [p];
    }
    for j := 0 to |boxes|
      invariant config == base.config + ResetSteps() + AddTextSteps(boxes[..j])
    {
      assert boxes[..j + 1][..j] == boxes[..j];
      config := config + [AddTextExec(boxes[j]), Sleep(1)];
    }
    assert boxes[..|boxes|] == boxes;
    var ver := Lookup(data.expectedResult, VerificationKey);
    if ver.Err? {
      return Err(ver.error), boxes;
    }
    var rules := Lookup(envR.value, OtherBoxesKey);
    if rules.Err? {
      return Err(rules.error), boxes;
    }
    r := Ok(base.(config := config,
                  evaluator := Some(Evaluator(Some(PressDelete()), "textbox_selection_verification",
                                              "current_content", ver.value,
                                              map[OtherBoxesKey := rules.value]))));
  }

  method DrawSelectContentBox(text: Json) returns (p: TextboxPayload)
    ensures SelectContentBoxOk(p, text)
  {
    var x := RandInt(1000, 16000);
    var y := RandInt(1000, 10000);
    var f := DrawBoxFormatting();
    var w := RandInt(8000, 12000);
    var h := RandInt(1500, 4000);
    var g := f["width" := JInt(w)]["height" := JInt(h)];
    assert g - {"width", "height"} == f;
    p := TextboxPayload(text, x, y, Some(g), None, None);
  }

  predicate SelectContentReady(d: TaskData) {
    && Lookup(d.content, "full_text").Ok?
    && Lookup(d.content, "target_text").Ok?
    && Lookup(d.expectedResult, VerificationKey).Ok?
  }

  /** `_create_select_content_task`: reset to one slide, add one textbox
      holding the full text, and check the target text in the evaluator. */
  method SelectContentTask(base: Task, data: TaskData) returns (r: Result<Task, Failure>, box: TextboxPayload)
    ensures r.Ok? <==> SelectContentReady(data)
    ensures data.content.JObj? && "full_text" !in data.content.fields ==> r == Err(KeyError("full_text"))
    ensures r.Ok? ==>
      && SelectContentBoxOk(box, data.content.fields["full_text"])
      && r.value == base.(
           config := base.config + ResetSteps() + AddTextSteps([box]),
           evaluator := Some(Evaluator(None, "content_selection_verification", "selected_content",
                                       data.expectedResult.fields[VerificationKey],
                                       map["target_text" := data.content.fields["target_text"]])))
  {
    var config := base.config + ResetSteps();
    var full := Lookup(data.content, "full_text");
    box := TextboxPayload(JNull, 0, 0, None, None, None);
    if full.Err? {
      return Err(full.error), box;
    }
    var target := Lookup(data.content, "target_text");
    if target.Err? {
      return Err(target.error), box;
    }
    box := DrawSelectContentBox(full.value);
    var boxes := [box];
    for j := 0 to |boxes|
      invariant config == base.config + ResetSteps() + AddTextSteps(boxes[..j])
    {
      assert boxes[..j + 1][..j] == boxes[..j];
      config := config + [AddTextExec(boxes[j]), Sleep(1)];
    }
    assert boxes[..|boxes|] == boxes;
    var ver := Lookup(data.expectedResult, VerificationKey);
    if ver.Err? {
      return Err(ver.error), box;
    }
    r := Ok(base.(config := config,
                  evaluator := Some(Evaluator(None, "content_selection_verification", "selected_content",
                                              ver.value, map["target_text" := target.value]))));
  }

  method DrawTextFormattingBox(text: Json) returns (p: TextboxPayload)
    ensures TextFormattingBoxOk(p, text)
  {
    var x := RandInt(1000, 16000);
    var y := RandInt(1000, 10000);
    var w := RandInt(8000, 12000);
    var h := RandInt(1500, 4000);
    p := TextboxPayload(text, x, y, None, Some(w), Some(h));
  }

  const FormattingTargetKey := "text_in_target_textbox"

  predicate TextFormattingReady(d: TaskData) {
    && Lookup(d.content, FormattingTargetKey).Ok?
    && Lookup(d.expectedResult, VerificationKey).Ok?
    && Lookup(d.content, "formatting").Ok?
  }

  /** `_create_text_formatting_task`: reset to one slide, add the target
      textbox without formatting, and expect `content["formatting"]`. */
  method TextFormattingTask(base: Task, data: TaskData) returns (r: Result<Task, Failure>, box: TextboxPayload)
    ensures r.Ok? <==> TextFormattingReady(data)
    ensures data.content.JObj? && FormattingTargetKey in data.content.fields
            && Lookup(data.expectedResult, VerificationKey).Ok?
            && "formatting" !in data.content.fields
            ==> r == Err(KeyError("formatting"))
    ensures r.Ok? ==>
      && TextFormattingBoxOk(box, data.content.fields[FormattingTargetKey])
      && r.value == base.(
           config := base.config + ResetSteps() + AddTextSteps([box]),
           evaluator := Some(Evaluator(None, "text_formatting_verification", "current_content",
                                       data.expectedResult.fields[VerificationKey],
                                       map[FormattingTargetKey := data.content.fields[FormattingTargetKey],
                                           "expected_formatting" := data.content.fields["formatting"]])))
  {
    var config := base.config + ResetSteps();
    box := TextboxPayload(JNull, 0, 0, None, None, None);
    var target := Lookup(data.content, FormattingTargetKey);
    if target.Err? {
      return Err(target.error), box;
    }
    box := DrawTextFormattingBox(target.value);
    var boxes := [box];
    for j := 0 to |boxes|
      invariant config == base.config + ResetSteps() + AddTextSteps(boxes[..j])
    {
      assert boxes[..j + 1][..j] == boxes[..j];
      config := config + [AddTextExec(boxes[j]), Sleep(1)];
    }
    assert boxes[..|boxes|] == boxes;
    var ver := Lookup(data.expectedResult, VerificationKey);
    if ver.Err? {
      return Err(ver.error), box;
    }
    var fmt := Lookup(data.content, "formatting");
    if fmt.Err? {
      return Err(fmt.error), box;
    }
    r := Ok(base.(config := config,
                  evaluator := Some(Evaluator(None, "text_formatting_verification", "current_content",
                                              ver.value, map[FormattingTargetKey := target.value,
                                                             "expected_formatting" := fmt.value]))));
  }

  /** `_create_insert_table_task`: no setup beyond the bootstrap; the
      evaluator carries `content["table_structure"]`. */
  function InsertTableTask(base: Task, data: TaskData): (r: Result<Task, Failure>)
    ensures r.Ok? <==> Lookup(data.expectedResult, VerificationKey).Ok? && Lookup(data.content, "table_structure").Ok?
    ensures r.Ok? ==> r.value.config == base.config
    ensures r.Ok? ==> r.value.evaluator.Some?
                      && r.value.evaluator.value.func == "table_insertion_verification"
                      && r.value.evaluator.value.rules == map["table_structure" := data.content.fields["table_structure"]]
  {
    var ver := Lookup(data.expectedResult, VerificationKey);
    if ver.Err? then Err(ver.error)
    else
      var table := Lookup(data.content, "table_structure");
      if table.Err? then Err(table.error)
      else Ok(base.(evaluator := Some(Evaluator(None, "table_insertion_verification", "current_content",
                                                ver.value, map["table_structure" := table.value]))))
  }

  const ImageUrlPrefix: string :=
    "https://agent-files.deva.msh.team/osworld/scaling_files/libreoffice_impress_gym_images/impress_gym_images/"
  const ImagePath: string := "/home/user/Desktop/image_to_insert.jpg"

  function ImageUrl(n: nat): string {
    ImageUrlPrefix + NatToString(n) + ".jpg"
  }

  predicate InsertImageReady(d: TaskData) {
    && Lookup(d.expectedResult, VerificationKey).Ok?
    && Lookup(d.content, "image_path").Ok?
    && Lookup(d.content, "resize_dimensions").Ok?
  }

  /** `_create_insert_resize_image_task`: download one of the 100 stock
      images to the fixed desktop path; the evaluator carries the content's
      image path and dimensions. `image` is the drawn image number. */
  method InsertResizeImageTask(base: Task, data: TaskData) returns (r: Result<Task, Failure>, image: nat)
    ensures 1 <= image <= 100
    ensures r.Ok? <==> InsertImageReady(data)
    ensures r.Ok? ==>
      r.value == base.(
        config := base.config + [Download(ImageUrl(image), ImagePath)],
        evaluator := Some(Evaluator(None, "image_insertion_and_resizing_verification", "current_content",
                                    data.expectedResult.fields[VerificationKey],
                                    map["image_path" := data.content.fields["image_path"],
                                        "resize_dimensions" := data.content.fields["resize_dimensions"]])))
  {
    var n := RandInt(1, 100);
    image := n;
    var config := base.config;
    config := config + [Download(ImageUrl(image), ImagePath)];
    var ver := Lookup(data.expectedResult, VerificationKey);
    if ver.Err? {
      return Err(ver.error), image;
    }
    var path := Lookup(data.content, "image_path");
    if path.Err? {
      return Err(path.error), image;
    }
    var dims := Lookup(data.content, "resize_dimensions");
    if dims.Err? {
      return Err(dims.error), image;
    }
    r := Ok(base.(config := config,
                  evaluator := Some(Evaluator(None, "image_insertion_and_resizing_verification",
                                              "current_content", ver.value,
                                              map["image_path" := path.value,
                                                  "resize_dimensions" := dims.value]))));
  }

  /** The declared types that no branch of the dispatch handles. */
  predicate Unassembled(t: TaskType) {
    t.TextFormattingContent? || t.ReplaceText? || t.InsertNote? || t.FullfillTable?
  }

  /** The types whose setup starts with the reset-to-one-slide steps. */
  predicate ResetsDeck(t: TaskType) {
    t.SelectBox? || t.SelectContent? || t.TextFormattingTextbox?
  }

  /** `create_task_from_llm_data`: the base dictionary, then the assembler of
      the task's type. `Ok(None)` is the fall-through that returns None. */
  method CreateTaskFromLlmData(id: string, t: TaskType, data: Option<TaskData>)
    returns (r: Result<Option<Task>, Failure>)
    ensures data.None? ==> r == Err(AttributeError("instruction"))
    ensures data.Some? && Unassembled(t) ==> r == Ok(None)
    ensures r == Ok(None) ==> data.Some? && Unassembled(t)
    ensures data.Some? && t.DeleteTextTextbox? ==> r == Err(AttributeError("_create_delete_text_task"))
    ensures r.Ok? && r.value.Some? ==>
      var task := r.value.value;
      && !Unassembled(t) && !t.DeleteTextTextbox?
      && task.id == id && task.instruction == data.value.instruction
      && |task.config| >= 3 && task.config[..3] == BaseConfig()
      && task.evaluator.Some?
      && (ResetsDeck(t) ==> |task.config| >= 7 && task.config[3..7] == ResetSteps())
      && (t.SelectBox? ==> SelectBoxReady(data.value))
      && (t.SelectBox? ==>
            |task.config| == 3 + 4 + 2 * (1 + |SetupOthers(data.value.content.fields[EnvKey].fields).value|))
      && ((t.SelectContent? || t.TextFormattingTextbox?) ==> |task.config| == 3 + 4 + 2)
      && (t.InsertTable? ==> task.config == BaseConfig())
      && (t.InsertResizeImage? ==> |task.config| == 4 && task.config[3].Download?
                                   && task.config[3].path == ImagePath)
    ensures data.Some? && t.SelectBox? ==> (r.Ok? <==> SelectBoxReady(data.value))
    ensures data.Some? && t.SelectContent? ==> (r.Ok? <==> SelectContentReady(data.value))
    ensures data.Some? && t.TextFormattingTextbox? ==> (r.Ok? <==> TextFormattingReady(data.value))
    ensures data.Some? && t.InsertTable? ==>
      (r.Ok? <==> Lookup(data.value.expectedResult, VerificationKey).Ok?
                  && Lookup(data.value.content, "table_structure").Ok?)
    ensures data.Some? && t.InsertResizeImage? ==> (r.Ok? <==> InsertImageReady(data.value))
    ensures r.Ok? && r.value.Some? && t.SelectBox? ==>
      var e := r.value.value.evaluator.value;
      && e.func == "textbox_selection_verification"
      && e.rules == map[OtherBoxesKey := data.value.content.fields[EnvKey].fields[OtherBoxesKey]]
    ensures r.Ok? && r.value.Some? && t.SelectContent? ==>
      var e := r.value.value.evaluator.value;
      && e.func == "content_selection_verification"
      && e.rules == map["target_text" := data.value.content.fields["target_text"]]
    ensures r.Ok? && r.value.Some? && t.TextFormattingTextbox? ==>
      var e := r.value.value.evaluator.value;
      && e.func == "text_formatting_verification"
      && e.rules == map[FormattingTargetKey := data.value.content.fields[FormattingTargetKey],
                        "expected_formatting" := data.value.content.fields["formatting"]]
    ensures r.Ok? && r.value.Some? && t.InsertTable? ==>
      var e := r.value.value.evaluator.value;
      && e.func == "table_insertion_verification"
      && e.rules == map["table_structure" := data.value.content.fields["table_structure"]]
    ensures r.Ok? && r.value.Some? && t.InsertResizeImage? ==>
      var e := r.value.value.evaluator.value;
      && e.func == "image_insertion_and_resizing_verification"
      && e.rules == map["image_path" := data.value.content.fields["image_path"],
                        "resize_dimensions" := data.value.content.fields["resize_dimensions"]]
  {
    if data.None? {
      return Err(AttributeError("instruction"));
    }
    var base := BaseTask(id, data.value);
    var built: Result<Task, Failure>;
    match t {
      case SelectBox =>
        var boxes;
        built, boxes := SelectBoxTask(base, data.value);
      case SelectContent =>
        var box;
        built, box := SelectContentTask(base, data.value);
      case TextFormattingTextbox =>
        var box;
        built, box := TextFormattingTask(base, data.value);
      case InsertTable =>
        built := InsertTableTask(base, data.value);
      case DeleteTextTextbox =>
        return Err(AttributeError("_create_delete_text_task"));
      case InsertResizeImage =>
        var image;
        built, image := InsertResizeImageTask(base, data.value);
      case _ =>
        return Ok(None);
    }
    if built.Err? {
      return Err(built.error);
    }
    r := Ok(Some(built.value));
  }
}
