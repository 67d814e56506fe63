# impress_gym task generator and slide facade, in Dafny

This project models two halves of impress_gym, a generator of benchmark tasks
for LibreOffice Impress.

- **The task generator.** A language model writes a task description: an
  instruction, a `content` dictionary and an `expected_result` dictionary.
  The generator turns this into a task record. The record holds an ordered
  `config` list of setup actions and an `evaluator` rule:
  - the bootstrap: launch Impress, wait, connect the facade;
  - for the textbox tasks, a reset pair: append a slide, then delete slide 0;
  - one add-text request plus a one-second sleep per textbox, or one image
    download.
- **The document facade.** This is the HTTP service the setup actions call.
  It works on the open presentation: insert and delete pages, add and update
  text shapes, apply and read back character formatting, read tables and
  report the current page.

Values and shared helpers:

- `Values`: JSON values, `Option`/`Result`, and the Python failures the code
  can raise (`KeyError`, `AttributeError`, `TypeError`).
- `Text`: substring search, `split`, and decimal rendering of numbers.

The generator:

- `Tasks`: the task record, its actions, the bootstrap, the reset steps and
  the per-textbox steps, and the task id format.
- `Assembly`: the five assemblers and the type dispatch. They are methods
  that grow `config` in loops. Each random draw is a method whose contract is
  the range of the draw.
- `Llm`: the cleanup of the model's reply (whitespace strip, then the
  markdown fence stripper), the retry loop of `call_llm`, the choice of
  system prompt, and the building of the `TaskData` record.
- `Generator`: `generate_single_task`.

The facade:

- `Slides`: the deck as a value. Each facade operation is a function whose
  contract says what it does to the deck.
- `Impress`: the open document as a class whose page list and current page
  change in place. Each facade method is proved to leave the state that the
  `Slides` function describes.

Linking the two:

- `Replay` runs a task's `config` against the `Slides` model. This shows
  what the setup really builds. The reset pair keeps the number of pages:
  it drops the first page and appends a blank one. Only a one-page deck
  ends up as a single fresh page. On such a deck, the pages and texts the
  setup leaves are exactly those the evaluator checks.

The source's comments and prompts promise more than its code does. The model
follows the code:

- The comment at impress_generator.py:522 says the reset adds a page and then
  deletes down to one. The code (523-542) appends one page and deletes page 0,
  so the page count stays what it was.
- The select_box prompt asks for `text_in_textbox` in `expected_result`
  (impress_generator.py:73-77). The evaluator built at 597-623 passes only
  `other_textboxes` in its rules, so the target text is not listed.
- The text_formatting prompt asks for a `formatting` object with exactly one
  property (impress_generator.py:139). The insert_table prompt asks for rows
  and columns in the range 5 to 15 (186-194). The assemblers check neither
  and copy the values through unchanged.
- The prompts suggest `strikethrough` and `alignment` keys (for example
  impress_generator.py:139). `apply_text_formatting` (impress_api.py:393-407)
  assigns only font, font_size, color, bold and italic, so those two keys
  have no effect.

Three defects of the code appear in the model as the error paths they
produce; the model does not correct them:

- The dispatch returns `None` for the four unhandled task types.
- `_create_delete_text_task` does not exist. Calling it raises
  `AttributeError`.
- `structural_prompts` is never set. Drawing a structural prompt raises
  `AttributeError`.

## Model

| member | source | states |
|---|---|---|
| Values.Lookup | impress_generator.py:545-548 | Subscripting a JSON value succeeds exactly when it is an object holding the key. A missing key is `KeyError(key)`; subscripting a non-object is a `TypeError`. |
| Values.Get | impress_generator.py:546-548 | `dict.get`: the value when the key is present, the default otherwise. |
| Values.Iterate | impress_generator.py:564 | A list yields its items in order. A string yields its characters as one-character strings, in order. Any other value is not iterable. |
| Values.Truthy | impress_api.py:523 | A value is false exactly when it is null, false, 0, "", an empty list or an empty object. |
| Text.Find | impress_generator.py:331 | The result is the first occurrence of the pattern at or after `from`, or `None` when there is none. |
| Text.SplitFirst | impress_generator.py:331 | `split(pat)[0]`: the longest prefix that holds no occurrence of the pattern. It ends where the first occurrence starts, or is the whole input when there is none. |
| Text.SplitSecond | impress_generator.py:331 | `split(pat)[1]`: the text after the first occurrence, up to the next occurrence or the end, with no occurrence inside it. |
| Text.NatToStringRoundTrip | impress_generator.py:456 | The decimal rendering of `n` is a non-empty digit string that parses back to `n`. |
| Text.FourDigits | impress_generator.py:456 | Numbers in [1000, 9999] render as four digits. |
| Text.NatToStringInjective | impress_generator.py:456 | Different numbers render differently. |
| Tasks.TypeOfValue | impress_generator.py:22-32 | `TaskType(v)`: a member is returned only if its value is `v`. |
| Tasks.ValueNamesType | impress_generator.py:22-32 | Every member's value names that member back. |
| Tasks.BaseConfig | impress_generator.py:420-438 | The bootstrap is exactly three actions: launch, sleep(5), execute connect. |
| Tasks.ResetSteps | impress_generator.py:522-542 | Four actions: a new-slide request, sleep(5), a delete of slide 0, sleep(5). Properties of the replay are in Replay.ReplayReset. |
| Tasks.AddTextSteps | impress_generator.py:580-594 | Two actions per textbox. Their order is given by Tasks.AddTextStepsAt. |
| Tasks.AddTextStepsAt | impress_generator.py:580-594 | Action 2i is textbox i's add-text request and action 2i+1 is a one-second sleep, in textbox order. |
| Tasks.AddTextStepsAppend | impress_generator.py:580-594 | The steps of two textbox lists are the concatenation of their steps. |
| Tasks.TaskId | impress_generator.py:456 | The id is the type's value, then "_", then the decimal number. Its properties are in TaskIdRoundTrip and TaskIdInjective. |
| Tasks.TaskIdRoundTrip | impress_generator.py:456 | A task id `value_n` parses back into its type and number. |
| Tasks.TaskIdInjective | impress_generator.py:456 | Equal ids imply equal type and number. |
| Tasks.TaskIdShape | impress_generator.py:456 | With n in [1000, 9999], the id is the type's value, an underscore and four digits. |
| Tasks.BaseTask | impress_generator.py:465-475 | The base dictionary carries the id, the instruction and the metadata. Its config equals the bootstrap, which is a fresh value and not the shared list. It has no evaluator yet. |
| Assembly.RandInt | impress_generator.py:456 | `random.randint(lo, hi)` draws from the closed range [lo, hi]. |
| Assembly.Choice | impress_generator.py:557-560 | `random.choice` draws one of the options. This includes the bold and italic draws from `[True, False]`. |
| Assembly.DrawBoxFormatting | impress_generator.py:556-561 | The drawn formatting has exactly the keys bold, italic, font_size and alignment. bold and italic are booleans, font_size is in [10, 50] and alignment is left, right or center. |
| Assembly.DrawSelectBoxTarget | impress_generator.py:551-563 | The target box has the target text, x in [1000, 18000], y in [1000, 14000], the drawn formatting and no size keys. |
| Assembly.DrawDistractor | impress_generator.py:564-579 | A distractor box is placed like the target and also has width in [8000, 12000] and height in [1500, 4000]. |
| Assembly.SelectBoxTask | impress_generator.py:490-624 | Succeeds exactly when every lookup succeeds. A missing target key is a `KeyError`. A missing `other_textboxes` key fails in the evaluator even though the setup defaulted it to `[]`. On success: the config is the old config, then the reset steps, then two steps per box; the boxes are the target followed by one box per distractor, in order and within range; the evaluator carries the verification type and only `other_textboxes`. |
| Assembly.DrawSelectContentBox | impress_generator.py:672-689 | The box holds the full text, with x in [1000, 16000] and y in [1000, 10000]. Its width and height in [8000, 12000] x [1500, 4000] sit inside `formatting`, and the box has no size keys of its own. |
| Assembly.SelectContentTask | impress_generator.py:626-720 | Succeeds exactly when `full_text`, `target_text` and the verification type are present. A missing `full_text` is a `KeyError`. On success the config is the reset steps plus one box, and the evaluator carries `target_text`. |
| Assembly.DrawTextFormattingBox | impress_generator.py:769-778 | The box holds the target text, with x in [1000, 16000], y in [1000, 10000], a size in [8000, 12000] x [1500, 4000] and no `formatting` key. |
| Assembly.TextFormattingTask | impress_generator.py:722-813 | Succeeds exactly when the target text, the verification type and `formatting` are present. A missing `formatting` is a `KeyError` raised after the setup was built. On success the evaluator's `text_in_target_textbox` is the setup box's text, and `expected_formatting` is `content["formatting"]` unchanged. |
| Assembly.InsertTableTask | impress_generator.py:815-855 | Succeeds exactly when the verification type and `table_structure` are present. The config is left as it was, and the rules hold exactly `table_structure`. |
| Assembly.InsertResizeImageTask | impress_generator.py:857-937 | The image number is in [1, 100]. The config gets exactly one download, of that image's URL, to `/home/user/Desktop/image_to_insert.jpg`. The evaluator carries `image_path` and `resize_dimensions`. |
| Assembly.CreateTaskFromLlmData | impress_generator.py:460-488 | Missing task data raises. Each of the four unhandled types yields `None`, and nothing else does. delete_text_textbox raises `AttributeError`. Every assembled task starts with the bootstrap and has an evaluator. Textbox tasks follow it with the reset steps. For select_box, \|config\| = 3 + 4 + 2·(1 + \|other_textboxes\|); for the other textbox tasks it is 9. insert_table's config is the bootstrap alone. insert_resize_image's config is the bootstrap plus one download to the fixed path. Each assembled type goes to its own assembler: it succeeds exactly when that assembler's lookups do. Its evaluator function is textbox_selection_verification, content_selection_verification, text_formatting_verification, table_insertion_verification or image_insertion_and_resizing_verification, with that assembler's rules: `other_textboxes`; `target_text`; `text_in_target_textbox` and `expected_formatting`; `table_structure`; or `image_path` and `resize_dimensions`. |
| Llm.Strip | impress_generator.py:325 | `str.strip()`: the result is the input with only whitespace cut from either end, and it neither starts nor ends with whitespace. Whitespace is the `str.isspace()` set. |
| Llm.TrimLeft | impress_generator.py:325 | Drops the leading whitespace, and the result does not start with whitespace. |
| Llm.TrimRight | impress_generator.py:325 | Drops the trailing whitespace, and the result does not end with whitespace. |
| Llm.StripLeadingSpace | impress_generator.py:325 | A leading whitespace character makes no difference to the stripped reply. |
| Llm.StripFence | impress_generator.py:330-333 | Content that does not start with "```" is unchanged. The result is never longer than the input. Its properties are in StripFenceJson, StripFencePlain and StripFenceFenceFree. |
| Llm.StripIdempotent | impress_generator.py:325 | Stripping twice is stripping once. |
| Llm.StripFenceUnfenced | impress_generator.py:330-333 | Content that does not start with "```" is left unchanged. |
| Llm.StripFenceFenceFree | impress_generator.py:330-333 | The text cut out of a fence never contains "```". |
| Llm.StripFenceJson | impress_generator.py:330-331 | "```json" + body + "```" + rest reduces to exactly the body. The conditions: no "```" starts inside the body, counting the closing fence, and rest does not begin with a backtick. Single backticks inside the body are allowed. |
| Llm.StripFenceKeepsBackticks | impress_generator.py:330-331 | A fenced JSON reply whose string value contains backticks comes back whole. |
| Llm.PlainFenceNotJson | impress_generator.py:330-332 | A plain fence whose body does not start with "json" takes the second branch. |
| Llm.StripFencePlain | impress_generator.py:332-333 | "```" + body + "```" + rest reduces to exactly the body. The conditions: no "```" starts inside the body, counting the closing fence, and the body does not start with "json". A body that starts with "json" takes the "```json" branch instead. |
| Llm.Outcomes | impress_generator.py:318-354 | Entry j, for each of the first `limit` attempts, says whether attempt j answers 200 with content that parses once cleaned. |
| Llm.FirstSuccess | impress_generator.py:318-354 | The first success at or after `from`. Every earlier entry from `from` on is a failure. `None` exactly when none at or after `from` succeeds. |
| Llm.CallLlm | impress_generator.py:318-354 | With no retries the loop does not run and the result is `None`. It raises exactly when every one of the attempts fails. Otherwise the result is the decoded reply of the first attempt that answers 200 and parses: the one `FirstSuccess` finds among the `Outcomes`. |
| Llm.SystemPrompt | impress_generator.py:373-380 | A direct prompt is chosen exactly when the draw is below the ratio. A type without a direct prompt is a `KeyError`. The structural branch raises `AttributeError`. |
| Llm.RatioDecidesPrompt | impress_generator.py:373-380 | With ratio ≥ 1, every draw in [0, 1) picks the direct prompt. With ratio ≤ 0, every draw fails. With a ratio in between, some draw reaches the structural branch. |
| Llm.MergeMetadata | impress_generator.py:399-404 | The reply's metadata is merged with the three generator keys, and the generator keys win. Every other key is kept with its value. |
| Llm.TaskDataFromReply | impress_generator.py:389-405 | A record is built exactly when the reply is an object with a copyable `content`, an `instruction`, an `expected_result` and a mapping `metadata`. The record holds those values and the merged metadata. |
| Llm.GenerateTaskData | impress_generator.py:356-407 | The scenario is the given one or one of the 20 categories. The call raises exactly when the prompt choice fails. Otherwise the result is `None` when no attempt succeeds. When one does, the result is the record built from the first successful attempt's decoded reply, with the drawn scenario and `direct`. A record carries the reserved metadata keys. |
| Llm.RandUnit | impress_generator.py:373 | `random.random()` is in [0, 1). |
| Generator.GenerateSingleTask | impress_generator.py:440-458 | The type is the given one or one of the ten. The number is in [1000, 9999]. A successful call always yields a task, never `None`, and its id is `value_number`. A ratio ≤ 0 always raises `AttributeError`. |
| Slides.IndexOfId | impress_api.py:276-279 | The position of the first page with the id, or -1 exactly when no page has it. |
| Slides.SlideAt | impress_api.py:250-262 | `get_slide_by_index` returns `None` exactly when the index is below 0 or at least the count. Otherwise it returns that page. |
| Slides.InsertNewSlide | impress_api.py:409-431 | Position -1 means the end. A position in [0, count] inserts one blank page with a fresh identity there, keeps every other page in order and advances the next identity by one. The reply carries the position and count + 1. Any other position changes nothing. |
| Slides.AppendSlide | impress_api.py:418-428 | Appending adds a page after all the others. The reply is slide_index = old count and total_slides = old count + 1. |
| Slides.InsertNewSlideValid | impress_api.py:409-431 | Insertion keeps page identities distinct. |
| Slides.RemoveSlide | impress_api.py:433-454 | An index outside [0, count) replies "Invalid slide index" and changes nothing. Otherwise exactly that page goes, the rest keep their order, and the reply is count - 1. |
| Slides.RemoveSlideValid | impress_api.py:433-454 | Removal keeps page identities distinct. |
| Slides.ResetKeepsCount | impress_api.py:418-446 | Appending and then deleting page 0 drops the original first page and adds a blank page at the end. The page count is unchanged. |
| Slides.ResetLeavesOneOnlyFromOne | impress_api.py:418-446 | The reset leaves one page exactly when there was one page. That page is then the fresh blank one. |
| Slides.AddTextShapeValid | impress_api.py:333-364 | Adding a text shape keeps page identities distinct. |
| Slides.UpdateShapeTextValid | impress_api.py:366-391 | Updating a shape's text keeps page identities distinct. |
| Slides.ApiAddTextValid | impress_api.py:511-539 | The add-text route keeps page identities distinct, whatever the request. |
| Slides.WithShapesValid | impress_api.py:348-351 | Changing a page's shapes keeps identities distinct. |
| Slides.AsNumber | impress_api.py:399-401 | Integers convert to themselves and booleans to 1 or 0. Anything else fails. |
| Slides.ApplyTextFormatting | impress_api.py:393-407 | Strikeout and alignment are never changed. A non-dictionary changes nothing. |
| Slides.AlignmentName | impress_api.py:84-89 | Codes 0..3 read left, right, center and justify. Every other code reads "unknown". |
| Slides.ExtractFormatting | impress_api.py:72-93 | bold is reported exactly when the weight is 150, italic exactly when the posture is non-zero, and strikeout exactly when the strikeout is non-zero. |
| Slides.BoldItalicRoundTrip | impress_api.py:402-405 | bold and italic read back as the truthiness of the values applied, and stay as they were when absent, unless an earlier key raised. |
| Slides.FontSizeColorRoundTrip | impress_api.py:396-401 | font, font_size and color read back as applied. |
| Slides.BadFontStopsFormatting | impress_api.py:395-407 | A font that fails to assign stops the whole formatting. |
| Slides.OtherKeysIgnored | impress_api.py:396-405 | Only the five keys matter, so alignment and strikeout read back unchanged. |
| Slides.AddTextShape | impress_api.py:333-364 | A missing page replies "No slide provided" and changes nothing. Non-integer geometry changes nothing. |
| Slides.AddTextShapeAppends | impress_api.py:348-361 | Exactly one text shape is appended after the page's existing shapes, with the requested geometry. shape_index is the new count - 1, and every other page is untouched. A non-string text leaves an empty shape behind. |
| Slides.UpdateShapeText | impress_api.py:366-391 | A shape index outside [0, count) is "Invalid shape index". A shape without text support is refused. On success only that shape's text and formatting change. Every failure leaves the deck unchanged. |
| Slides.UpdateShapeTextLocal | impress_api.py:372-382 | Every other page and shape is as before, and the updated shape keeps its kind and geometry. |
| Slides.ReadAddTextRequest | impress_api.py:515-521 | Each field is the body's value or its default: text "", slide_index none, x = y = 1000, width 10000, height 2000, formatting none. |
| Slides.RequestedSlide | impress_api.py:530-536 | No slide_index means the current page; an integer means that position if it exists. Otherwise there is no page. |
| Slides.ApiAddText | impress_api.py:511-539 | A non-object body gives 500. Empty or missing text gives 400. A missing page gives 404. A response is 200 exactly when the text is non-empty and the page exists, and then it is `add_text_shape` on that page. Only a 200 changes the deck. |
| Impress.AddNewSlide | impress_api.py:409-431 | A missing presentation is an error. Otherwise the document's new state and reply are those of `Slides.InsertNewSlide`, and distinct page identities stay distinct. |
| Impress.DeleteSlide | impress_api.py:433-454 | The document's new state and reply are those of `Slides.RemoveSlide`, and distinct page identities stay distinct. |
| Impress.GetSlideByIndex | impress_api.py:250-262 | `None` exactly when there is no document or the index is out of range. Otherwise the page at the index. |
| Impress.GetCurrentSlide | impress_api.py:137-149 | The position of the controller's current page. `None` when it is not a draw page. |
| Impress.GetPresentationInfo | impress_api.py:264-289 | The page count, the position of the first draw page equal to the current page (-1 if none), and the title or "Untitled". |
| Impress.ExtractTableInfo | impress_api.py:20-70 | A shape without a table model is an error. Otherwise `data` has exactly `rows` rows of `cols` entries, entry [r][c] is cell (c, r), and cells that cannot be read are "". |
| Impress.AddTextShape | impress_api.py:333-364 | The document's new state and reply are those of `Slides.AddTextShape`, and distinct page identities stay distinct. |
| Impress.UpdateShapeText | impress_api.py:366-391 | The document's new state and reply are those of `Slides.UpdateShapeText`, and distinct page identities stay distinct. |
| Impress.ApiAddTextToSlide | impress_api.py:511-539 | Text is checked before the document: with no presentation, empty text is still a 400. With a document, the status, reply and new state are those of `Slides.ApiAddText`; any non-200 leaves the document untouched, and distinct page identities stay distinct. |
| Replay.ReplayBaseConfig | impress_generator.py:420-438 | The bootstrap leaves the deck unchanged. insert_table's setup is exactly this. |
| Replay.ReplayReset | impress_generator.py:522-542 | The reset steps, run against the facade, drop the first page and append a fresh blank page, keeping the count. |
| Replay.PlacedShapesAll | impress_generator.py:580-594 | With non-empty texts, the i-th textbox places the i-th shape. |
| Replay.ReplayAddText | impress_api.py:511-539 | One add-text step appends its payload's shape to the current page, with the defaults filled in. Empty text adds nothing. |
| Replay.ReplayAddTextSteps | impress_generator.py:580-594 | The add-text loop places the payloads' shapes on the current page in order, after the shapes it had. |
| Replay.ReplayTextboxSetup | impress_generator.py:536-594 | On a one-page deck, a textbox task's setup leaves one fresh current page carrying exactly the placed shapes. |
| Replay.ReplayKeepsPageCount | impress_generator.py:536-594 | On any deck, a textbox task's setup keeps the number of pages. |
| Replay.SelectBoxTargetReadsBack | impress_generator.py:551-563 | The target shape reads back its drawn bold, italic and font size at the default size. The drawn alignment is not applied. |
| Replay.DistractorKeepsSize | impress_generator.py:564-579 | A distractor shape keeps its drawn size. |
| Replay.SelectContentSizeIgnored | impress_generator.py:672-689 | The select_content shape gets the default size 10000 x 2000, because its drawn size sits inside `formatting`. Its bold, italic and size read back. |
| Replay.TextFormattingBoxPlain | impress_generator.py:769-778 | The text_formatting box starts with the default character properties. |
| Replay.SelectBoxSetupMatchesRules | impress_generator.py:544-624 | After the select_box setup on a one-page deck, the first shape shows the target text with its drawn bold and italic. One further shape follows per element that iterating the rules' `other_textboxes` visits. When `other_textboxes` is a list of non-empty strings, those shapes show exactly its texts, in order. When it is a string, there is one shape per character, each showing that one character, while the rules hold the whole string. |
| Replay.TextFormattingSetupMatchesRules | impress_generator.py:766-812 | After the setup there is one shape with the evaluator's `text_in_target_textbox` and default formatting. |
| Replay.SelectContentSetup | impress_generator.py:667-704 | After the setup there is one shape with the full text at the default size. |

## Left out

- The language-model HTTP request, its headers and the prompt texts. Each attempt is an `Attempt` value: a request that raised, or a status and optional content. `json.loads` is a `decode` parameter.
- Randomness. Every draw is a nondeterministic choice constrained to the draw's range, and `random.random()` is a value in [0, 1).
- `json.dumps` and `shlex.quote` of the curl commands. An add-text step carries its request body as a record, and the serialisation is taken to round-trip the strings, integers and booleans it holds.
- The UNO connection, the global desktop handle, `get_selected_text` and the other Flask routes. The `api_add_slide` and `api_delete_slide` routes appear only as the replay of the reset commands.
- Values.Iterate: iterating a dictionary yields its keys in Python. Dictionary order is not modelled, so a dictionary `other_textboxes` is treated as not iterable.
- Slides.AsNumber: `float(v)` and `int(v)` also accept numeric strings and floats. Only integers and booleans are modelled, and the weights and font sizes are integers.
- Slides.ApplyTextFormatting: assigning a non-string font is taken to raise. The cursor's `hasattr` checks are taken to always hold.
- Slides.InsertNewSlide: `insertNewByIndex(p)` is taken to put the new page at position p. LibreOffice may instead insert after page min(p, count - 1), so position 0 may not put the new page first. An index outside [0, count] is taken to raise, leaving the deck unchanged. Any non-integer `position` is treated the same way. These are unverified assumptions about LibreOffice's behaviour.
- Slides.RemoveSlide: `remove()` is taken to delete any page, even the last one. LibreOffice may refuse to delete a presentation's only page, and the model does not capture that. When the current page is deleted, the page that moves into its place, or the new last page, is taken to become current. An empty deck has no current page. These are unverified assumptions about LibreOffice's behaviour, not behaviour of the facade.
- Slides.AddTextShape: `Point` and `Size` are taken to require integers. `setString` of a non-string is taken to raise after the shape was added.
- Impress.GetCurrentSlide: a current page that is not one of the draw pages is treated as "no page". Slides.RequestedSlide then gives 404. The source's `get_current_slide` (impress_api.py:137-149) returns whatever page the controller reports, and `api_add_text_to_slide` adds the shape to that page. A shape added to a page outside the draw pages is not modelled.
- Replay.SelectBoxSetupMatchesRules: the source copies any `other_textboxes` value into the rules. A string value gives one distractor per character, and the lemma states that outcome rather than asserting that it matches. List elements that are not non-empty strings are not covered.
- Slides.RequestedSlide: a boolean `slide_index` is treated as "no such page", although Python compares booleans as 0 and 1.
- Impress.AddTextShape and Impress.UpdateShapeText: the source passes a page object, and the model passes its position. Aliasing between page objects is not modelled.
- Impress.ExtractTableInfo: a cell that cannot be read is one absent from the table model. The three text accessors and the exceptions behind them are not modelled separately.
- `get_slide_content` and the formatting it reports per shape are not modelled beyond `ExtractFormatting`.
- Tasks.BaseConfig: the shared `self.base_config` list is a value here. That assembling a task never changes it holds by construction, so there is nothing further to prove.
- The exception handling of `generate_task_data`: every failure after the prompt choice becomes `None`, and its message is not printed.
- quick_test.py is a manual smoke test over live HTTP and is not part of this model.
