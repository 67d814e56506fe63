/** `generate_single_task`: draw a type when none is given, generate the
    task data, number the task and assemble it. */
module Generator {
  import opened Values
  import opened Tasks
  import opened Assembly
  import opened Llm

  /** `list(TaskType)`, in declaration order. */
  const AllTaskTypes: seq<TaskType> := [
    SelectBox, SelectContent, TextFormattingTextbox, InsertTable, InsertResizeImage,
    DeleteTextTextbox, TextFormattingContent, ReplaceText, InsertNote, FullfillTable]

  /** `generate_single_task`. Because the prompt table covers exactly the
      assembled types plus delete_text_textbox, and a failed generation
      reaches the assembler as `None`, the call either yields a task or
      raises: it never returns `None`. */
  method GenerateSingleTask(taskType: Option<TaskType>, scenario: Option<string>, ratio: Option<real>,
                            defaultRatio: real, attempts: seq<Attempt>, decode: string -> Option<Json>)
    returns (r: Result<Option<Task>, Failure>, chosen: TaskType, number: nat)
    requires MaxRetries <= |attempts|
    ensures taskType.Some? ==> chosen == taskType.value
    ensures chosen in AllTaskTypes
    ensures 1000 <= number <= 9999
    ensures r.Ok? ==> r.value.Some? && r.value.value.id == TaskId(chosen, number)
    ensures r.Ok? ==> !Unassembled(chosen) && !chosen.DeleteTextTextbox?
    ensures r.Ok? ==> exists k :: 0 <= k < MaxRetries && Succeeds(attempts[k], decode)
    ensures ratio.Some? && ratio.value <= 0.0 ==> r == Err(AttributeError("structural_prompts"))
    ensures ratio.None? && defaultRatio <= 0.0 ==> r == Err(AttributeError("structural_prompts"))
  {
    if taskType.None? {
      var k :| 0 <= k < |AllTaskTypes|;
      chosen := AllTaskTypes[k];
    } else {
      chosen := taskType.value;
    }
    var effectiveRatio := if ratio.None? then defaultRatio else ratio.value;
    var data, category, u := GenerateTaskData(chosen, scenario, effectiveRatio, attempts, decode);
    number := RandInt(1000, 9999);
    if data.Err? {
      return Err(data.error), chosen, number;
    }
    assert HasDirectPrompt(chosen);
    var id := TaskId(chosen, number);
    r := CreateTaskFromLlmData(id, chosen, data.value);
  }
}
