/** `SOPModel`: the list of training examples kept beside the language model and
    persisted as JSON, the prompts built from it, and the guard in front of
    fine-tuning. The model weights, the tokenizer and the trainer are not part of
    this module; `show` stands for Python's `str()` of a JSON value inside an f-string. */
module SopModel {
  import opened Wrappers
  import opened Text
  import opened Json

  /** One entry of `training_data`. */
  datatype TrainingExample = TrainingExample(input: Dict, output: string, feedbackScore: real, kind: Json)

  /** One entry of the dataset `prepare_dataset` hands to the trainer. */
  datatype Row = Row(text: string, qualityScore: real)

  datatype ModelError = KeyError(key: string) | ValueError(message: string)

  /** `str()` renders a string as itself. */
  ghost predicate ShowsStrings(show: Json -> string)
  {
    forall s :: show(Str(s)) == s
  }

  /** `d.get(key, default)`. */
  function Get(d: Dict, key: string, default: Json): Json
  {
    if key in d then d[key] else default
  }

  /** The example `add_training_example` appends: its type is the input's `type`,
      `sop` when the input has none. */
  function ExampleFor(input: Dict, output: string, score: real): TrainingExample
  {
    TrainingExample(input, output, score, Get(input, "type", Str("sop")))
  }

  /** The six-line text `prepare_dataset` makes of one example; an input without
      `steps`, then one without `roles`, raises `KeyError`. */
  function RowFor(e: TrainingExample, show: Json -> string): Result<Row, ModelError>
  {
    if "steps" !in e.input then Err(KeyError("steps"))
    else if "roles" !in e.input then Err(KeyError("roles"))
    else
      Ok(Row(Join(["Type: " + show(e.kind),
                   "Steps: " + show(e.input["steps"]),
                   "Roles: " + show(e.input["roles"]),
                   "Notes: " + show(Get(e.input, "notes", Str(""))),
                   "Generated Content: " + e.output,
                   "Quality Score: " + show(Num(e.feedbackScore))], '\n'),
             e.feedbackScore))
  }

  /** `prepare_dataset`: one row per example in order, or the error of the first
      example that has none. */
  function Dataset(examples: seq<TrainingExample>, show: Json -> string): Result<seq<Row>, ModelError>
    decreases |examples|
  {
    if examples == [] then Ok([])
    else
      match Dataset(examples[..|examples| - 1], show)
      case Err(e) => Err(e)
      case Ok(rows) =>
        match RowFor(examples[|examples| - 1], show)
        case Err(e) => Err(e)
        case Ok(row) => Ok(rows + [row])
  }

  /** The dataset exists exactly when every example's input has `steps` and `roles`;
      it then has one row per example, in order, scored with the example's feedback score. */
  lemma {:induction false} DatasetRows(examples: seq<TrainingExample>, show: Json -> string)
    ensures Dataset(examples, show).Ok? <==>
      forall i :: 0 <= i < |examples| ==> "steps" in examples[i].input && "roles" in examples[i].input
    ensures Dataset(examples, show).Ok? ==>
      var rows := Dataset(examples, show).value;
      && |rows| == |examples|
      && forall i :: 0 <= i < |examples| ==>
           RowFor(examples[i], show) == Ok(rows[i]) && rows[i].qualityScore == examples[i].feedbackScore
    decreases |examples|
  {
    if examples != [] {
      var init := examples[..|examples| - 1];
      DatasetRows(init, show);
      assert forall i :: 0 <= i < |init| ==> init[i] == examples[i];
    }
  }

  /** Without `steps`, the error is the first such example's. */
  lemma {:induction false} DatasetFirstError(examples: seq<TrainingExample>, show: Json -> string, k: nat)
    requires k < |examples|
    requires forall i :: 0 <= i < k ==> "steps" in examples[i].input && "roles" in examples[i].input
    requires "steps" !in examples[k].input
    ensures Dataset(examples, show) == Err(KeyError("steps"))
    decreases |examples|
  {
    var init := examples[..|examples| - 1];
    if k < |init| {
      assert forall i :: 0 <= i < k ==> init[i] == examples[i];
      DatasetFirstError(init, show, k);
    } else {
      DatasetRows(init, show);
      assert forall i :: 0 <= i < |init| ==> init[i] == examples[i];
    }
  }

  /** The closing line of every generation prompt. */
  const Instruction := "Generate a detailed " + "document following " + "the standard format."

  /** `generate_document`'s prompt: type, steps, roles and notes from the input
      (`sop` and empty strings by default), then the fixed instruction, one per line. */
  function GenerationPrompt(input: Dict, show: Json -> string): string
  {
    Join(["Type: " + show(Get(input, "type", Str("sop"))),
          "Steps: " + show(Get(input, "steps", Str(""))),
          "Roles: " + show(Get(input, "roles", Str(""))),
          "Notes: " + show(Get(input, "notes", Str(""))),
          Instruction], '\n')
  }

  /** When no rendered value holds a line break, the prompt is exactly five lines:
      one per field, each with its label, and the instruction. */
  lemma PromptLines(input: Dict, show: Json -> string)
    requires '\n' !in show(Get(input, "type", Str("sop")))
    requires '\n' !in show(Get(input, "steps", Str("")))
    requires '\n' !in show(Get(input, "roles", Str("")))
    requires '\n' !in show(Get(input, "notes", Str("")))
    ensures SplitOn(GenerationPrompt(input, show), '\n') == [
      "Type: " + show(Get(input, "type", Str("sop"))),
      "Steps: " + show(Get(input, "steps", Str(""))),
      "Roles: " + show(Get(input, "roles", Str(""))),
      "Notes: " + show(Get(input, "notes", Str(""))),
      Instruction]
  {
    var lines := [
      "Type: " + show(Get(input, "type", Str("sop"))),
      "Steps: " + show(Get(input, "steps", Str(""))),
      "Roles: " + show(Get(input, "roles", Str(""))),
      "Notes: " + show(Get(input, "notes", Str(""))),
      Instruction];
    forall i | 0 <= i < |lines|
      ensures '\n' !in lines[i]
    {
      if i < 4 {
        var lead := ["Type: ", "Steps: ", "Roles: ", "Notes: "][i];
        assert '\n' !in lead;
        assert lines[i] == lead + lines[i][|lead|..];
      }
    }
    SplitJoin(lines, '\n');
  }

  /** For an input with none of the four keys the prompt is the bare template:
      type `sop` and the other three fields empty. */
  lemma DefaultPrompt(show: Json -> string)
    requires ShowsStrings(show)
    ensures SplitOn(GenerationPrompt(map[], show), '\n')
      == ["Type: sop", "Steps: ", "Roles: ", "Notes: ", Instruction]
  {
    assert show(Get(map[], "type", Str("sop"))) == "sop";
    assert show(Get(map[], "steps", Str(""))) == "";
    assert show(Get(map[], "roles", Str(""))) == "";
    assert show(Get(map[], "notes", Str(""))) == "";
    PromptLines(map[], show);
    assert "Type: " + "sop" == "Type: sop";
    assert "Steps: " + "" == "Steps: ";
    assert "Roles: " + "" == "Roles: ";
    assert "Notes: " + "" == "Notes: ";
  }

  class SOPModel {
    /** The checkpoint directory. */
    const saveDir: string
    /** `self.training_data`. */
    var trainingData: seq<TrainingExample>
    /** The training-data files on disk, by path. */
    var files: map<string, seq<TrainingExample>>

    /** `f"{self.save_dir}/training_data.json"`. */
    function TrainingPath(): string
    {
      saveDir + "/training_data.json"
    }

    /** `SOPModel(model_name, save_dir)` over the files already on disk; loading the
        pretrained model and creating the directory are not modelled. */
    constructor (saveDir: string, files: map<string, seq<TrainingExample>>)
      ensures this.saveDir == saveDir && this.files == files
      ensures trainingData == (if TrainingPath() in files then files[TrainingPath()] else [])
    {
      this.saveDir := saveDir;
      this.files := files;
      trainingData := [];
      new;
      LoadTrainingData();
    }

    /** `load_training_data`: the saved list, or none when the file is absent. */
    method LoadTrainingData()
      modifies this
      ensures trainingData == (if TrainingPath() in files then files[TrainingPath()] else [])
      ensures files == old(files)
    {
      if TrainingPath() in files {
        trainingData := files[TrainingPath()];
      } else {
        trainingData := [];
      }
    }

    /** `save_training_data`: the file now holds the whole list. */
    method SaveTrainingData()
      modifies this
      ensures files == old(files)[TrainingPath() := trainingData]
      ensures trainingData == old(trainingData)
    {
      files := files[TrainingPath() := trainingData];
    }

    /** `add_training_example`: one example at the end, then the whole list is saved. */
    method AddTrainingExample(input: Dict, generatedSop: string, feedbackScore: real)
      modifies this
      ensures trainingData == old(trainingData) + [ExampleFor(input, generatedSop, feedbackScore)]
      ensures files == old(files)[TrainingPath() := trainingData]
    {
      var example := TrainingExample(input, generatedSop, feedbackScore,
                                     if "type" in input then input["type"] else Str("sop"));
      trainingData := trainingData + [example];
      SaveTrainingData();
    }

    /** `prepare_dataset`, over the current training data. */
    method PrepareDataset(show: Json -> string) returns (r: Result<seq<Row>, ModelError>)
      ensures r == Dataset(trainingData, show)
    {
      var formattedData: seq<Row> := [];
      var i := 0;
      while i < |trainingData|
        invariant 0 <= i <= |trainingData|
        invariant Dataset(trainingData[..i], show) == Ok(formattedData)
      {
        var example := trainingData[i];
        assert trainingData[..i + 1][..i] == trainingData[..i];
        if "steps" !in example.input {
          assert Dataset(trainingData[..i + 1], show) == Err(KeyError("steps"));
          DatasetStopsAtError(trainingData, show, i + 1);
          return Err(KeyError("steps"));
        }
        if "roles" !in example.input {
          assert Dataset(trainingData[..i + 1], show) == Err(KeyError("roles"));
          DatasetStopsAtError(trainingData, show, i + 1);
          return Err(KeyError("roles"));
        }
        var inputPrompt := Join(["Type: " + show(example.kind),
                                 "Steps: " + show(example.input["steps"]),
                                 "Roles: " + show(example.input["roles"]),
                                 "Notes: " + show(if "notes" in example.input then example.input["notes"] else Str("")),
                                 "Generated Content: " + example.output,
                                 "Quality Score: " + show(Num(example.feedbackScore))], '\n');
        formattedData := formattedData + [Row(inputPrompt, example.feedbackScore)];
        i := i + 1;
      }
      assert trainingData[..|trainingData|] == trainingData;
      return Ok(formattedData);
    }

    /** `fine_tune`: fewer than ten examples raise `ValueError` before any dataset is
        built; otherwise the dataset handed to the trainer. */
    method FineTune(show: Json -> string) returns (r: Result<seq<Row>, ModelError>)
      ensures |trainingData| < 10 ==> r == Err(ValueError("Not enough training data. Need at least 10 examples."))
      ensures |trainingData| >= 10 ==> r == Dataset(trainingData, show)
    {
      if |trainingData| < 10 {
        return Err(ValueError("Not enough training data. Need at least 10 examples."));
      }
      r := PrepareDataset(show);
    }
  }

  /** Once a prefix of the examples fails, the whole dataset fails the same way. */
  lemma {:induction false} DatasetStopsAtError(examples: seq<TrainingExample>, show: Json -> string, k: nat)
    requires k <= |examples|
    requires Dataset(examples[..k], show).Err?
    ensures Dataset(examples, show) == Dataset(examples[..k], show)
    decreases |examples| - k
  {
    if k < |examples| {
      assert examples[..k + 1][..k] == examples[..k];
      DatasetStopsAtError(examples, show, k + 1);
    } else {
      assert examples[..k] == examples;
    }
  }
}
