/** The benchmark task record the generator emits, its setup actions and the
    fixed action sequences every assembler shares. */
module Tasks {
  import opened Values
  import opened Text

  /** The task categories. The last four are declared but no assembler
      handles them. */
  datatype TaskType =
    | SelectBox
    | SelectContent
    | TextFormattingTextbox
    | InsertTable
    | InsertResizeImage
    | DeleteTextTextbox
    | TextFormattingContent
    | ReplaceText
    | InsertNote
    | FullfillTable

  /** The enumeration's string values. */
  function Value(t: TaskType): string {
    match t
    case SelectBox => "select_box"
    case SelectContent => "select_content"
    case TextFormattingTextbox => "text_formatting_textbox"
    case InsertTable => "insert_table"
    case InsertResizeImage => "insert_resize_image"
    case DeleteTextTextbox => "delete_text_textbox"
    case TextFormattingContent => "text_formatting_content"
    case ReplaceText => "replace_text"
    case InsertNote => "insert_note"
    case FullfillTable => "fullfill_table"
  }

  /** `TaskType(value)`: the member whose value is `v`, if any. */
  function TypeOfValue(v: string): (r: Option<TaskType>)
    ensures r.Some? ==> Value(r.value) == v
  {
    if v == "select_box" then Some(SelectBox)
    else if v == "select_content" then Some(SelectContent)
    else if v == "text_formatting_textbox" then Some(TextFormattingTextbox)
    else if v == "insert_table" then Some(InsertTable)
    else if v == "insert_resize_image" then Some(InsertResizeImage)
    else if v == "delete_text_textbox" then Some(DeleteTextTextbox)
    else if v == "text_formatting_content" then Some(TextFormattingContent)
    else if v == "replace_text" then Some(ReplaceText)
    else if v == "insert_note" then Some(InsertNote)
    else if v == "fullfill_table" then Some(FullfillTable)
    else None
  }

  /** Every member's value names it back. */
  lemma ValueNamesType(t: TaskType)
    ensures TypeOfValue(Value(t)) == Some(t)
  {
  }

  /** The body of one add-text request, as the assembler builds it before it
      is serialised into the curl command. An absent key is `None`. */
  datatype TextboxPayload = TextboxPayload(
    text: Json,
    x: int,
    y: int,
    formatting: Option<map<string, Json>>,
    width: Option<int>,
    height: Option<int>)

  /** The facade call a shell command line makes. */
  datatype Command =
    | ConnectCmd                              // POST /api/connect
    | NewSlideCmd(body: map<string, Json>)    // POST /api/slide/new
    | DeleteSlideCmd(index: int)              // DELETE /api/slide/<index>
    | AddTextCmd(payload: TextboxPayload)     // POST /api/slide/add-text
    | PressDeleteCmd                          // python -c: press the delete key

  /** A setup action of the task's `config` list. */
  datatype Action =
    | Launch(command: string, shell: bool)
    | Sleep(seconds: nat)
    | Execute(call: Command, shell: bool)
    | Download(url: string, path: string)

  /** The task's verification rule. `postconfig`, when present, runs before
      the verifier; the `expected` part is always of type "rule". */
  datatype Evaluator = Evaluator(
    postconfig: Option<seq<Action>>,
    func: string,
    resultType: string,
    verification: Json,
    rules: map<string, Json>)

  /** The task dictionary. `evaluator` is `None` while the key is absent. */
  datatype Task = Task(
    id: string,
    snapshot: string,
    instruction: Json,
    source: string,
    taskType: string,
    config: seq<Action>,
    trajectory: string,
    relatedApps: seq<string>,
    metadata: map<string, Json>,
    evaluator: Option<Evaluator>)

  /** The record returned by the text-generation step. */
  datatype TaskData = TaskData(
    instruction: Json,
    content: Json,
    expectedResult: Json,
    metadata: map<string, Json>)

  const LaunchCommand: string :=
    "libreoffice --impress --accept='socket,host=127.0.0.1,port=2002;urp;StarOffice.ServiceManager'"

  /** The generator's `base_config`: launch, wait, connect. */
  function BaseConfig(): (r: seq<Action>)
    ensures |r| == 3
    ensures r[0].Launch? && r[1] == Sleep(5) && r[2] == Execute(ConnectCmd, true)
  {
    [Launch(LaunchCommand, true), Sleep(5), Execute(ConnectCmd, true)]
  }

  /** Append a new slide, wait, delete slide 0, wait. */
  function ResetSteps(): (r: seq<Action>)
    ensures |r| == 4 && r[1] == Sleep(5) && r[3] == Sleep(5)
    ensures r[0] == Execute(NewSlideCmd(map[]), true) && r[2] == Execute(DeleteSlideCmd(0), true)
  {
    [Execute(NewSlideCmd(map[]), true), Sleep(5), Execute(DeleteSlideCmd(0), true), Sleep(5)]
  }

  function AddTextExec(p: TextboxPayload): Action {
    Execute(AddTextCmd(p), true)
  }

  /** The actions the add-text loop appends: one add-text execute followed by
      one one-second sleep per textbox, in order. */
  function AddTextSteps(ps: seq<TextboxPayload>): (r: seq<Action>)
    ensures |r| == 2 * |ps|
  {
    if ps == [] then []
    else AddTextSteps(ps[..|ps| - 1]) + [AddTextExec(ps[|ps| - 1]), Sleep(1)]
  }

  /** Action 2i is textbox i's add-text request and action 2i+1 its sleep. */
  lemma {:induction false} AddTextStepsAt(ps: seq<TextboxPayload>, i: nat)
    requires i < |ps|
    ensures |AddTextSteps(ps)| == 2 * |ps|
    ensures AddTextSteps(ps)[2 * i] == AddTextExec(ps[i])
    ensures AddTextSteps(ps)[2 * i + 1] == Sleep(1)
  {
    var front := ps[..|ps| - 1];
    if i < |ps| - 1 {
      AddTextStepsAt(front, i);
    }
  }

  /** Concatenating textbox lists concatenates their steps. */
  lemma {:induction false} AddTextStepsAppend(ps: seq<TextboxPayload>, qs: seq<TextboxPayload>)
    ensures AddTextSteps(ps + qs) == AddTextSteps(ps) + AddTextSteps(qs)
    decreases |qs|
  {
    if qs != [] {
      var qf := qs[..|qs| - 1];
      assert (ps + qs)[..|ps + qs| - 1] == ps + qf;
      AddTextStepsAppend(ps, qf);
    } else {
      assert ps + qs == ps;
    }
  }

  /** The task id format: the type's value, an underscore, the number. */
  function TaskId(t: TaskType, n: nat): (r: string)
    ensures |r| == |Value(t)| + 1 + |NatToString(n)|
    ensures r[..|Value(t)|] == Value(t) && r[|Value(t)|] == '_' && r[|Value(t)| + 1..] == NatToString(n)
  {
    Value(t) + "_" + NatToString(n)
  }

  /** The index of the last underscore of `s`, if any. */
  function LastUnderscore(s: string): (r: Option<nat>)
    ensures r.Some? ==> r.value < |s| && s[r.value] == '_'
    ensures r.Some? ==> forall k :: r.value < k < |s| ==> s[k] != '_'
    ensures r.None? ==> forall k :: 0 <= k < |s| ==> s[k] != '_'
  {
    if s == [] then None
    else if s[|s| - 1] == '_' then Some(|s| - 1)
    else LastUnderscore(s[..|s| - 1])
  }

  /** Reads a task id back into its type and number. */
  function ParseTaskId(id: string): Option<(TaskType, nat)> {
    match LastUnderscore(id)
    case None => None
    case Some(k) =>
      var digits := id[k + 1..];
      if digits != [] && AllDigits(digits) then
        match TypeOfValue(id[..k])
        case Some(t) => Some((t, ParseDigits(digits)))
        case None => None
      else None
  }

  /** The number is rendered without underscores, so the last underscore of
      an id is the one after the type's value, and the id reads back. */
  lemma TaskIdRoundTrip(t: TaskType, n: nat)
    ensures ParseTaskId(TaskId(t, n)) == Some((t, n))
  {
    var id := TaskId(t, n);
    var v := Value(t);
    var digits := NatToString(n);
    NatToStringRoundTrip(n);
    forall k | |v| < k < |id|
      ensures id[k] != '_'
    {
      assert id[k] == id[|v| + 1..][k - |v| - 1];
    }
    assert LastUnderscore(id) == Some(|v|);
    ValueNamesType(t);
  }

  /** Two tasks with the same id have the same type and number. */
  lemma TaskIdInjective(t1: TaskType, n1: nat, t2: TaskType, n2: nat)
    requires TaskId(t1, n1) == TaskId(t2, n2)
    ensures t1 == t2 && n1 == n2
  {
    TaskIdRoundTrip(t1, n1);
    TaskIdRoundTrip(t2, n2);
  }

  /** The generated ids have the form value + "_" + four digits. */
  lemma TaskIdShape(t: TaskType, n: nat)
    requires 1000 <= n <= 9999
    ensures |TaskId(t, n)| == |Value(t)| + 5
    ensures TaskId(t, n)[..|Value(t)| + 1] == Value(t) + "_"
    ensures AllDigits(TaskId(t, n)[|Value(t)| + 1..])
  {
    FourDigits(n);
    NatToStringRoundTrip(n);
    assert TaskId(t, n)[|Value(t)| + 1..] == NatToString(n);
  }

  /** The dictionary `create_task_from_llm_data` starts from, with `config`
      a copy of the bootstrap sequence and no evaluator yet. */
  function BaseTask(id: string, data: TaskData): (r: Task)
    ensures r.id == id && r.instruction == data.instruction && r.metadata == data.metadata
    ensures r.config == BaseConfig() && r.evaluator.None?
  {
    Task(id, "libreoffice_impress", data.instruction, "", "scaling", BaseConfig(),
         "trajectories/", [], data.metadata, None)
  }
}
