/**
 * The model picker (src/components/ui/model-selector.tsx): the table of
 * selectable models, the toggle that adds or removes a model id from the
 * selection, and the label the closed picker shows.
 */
module ModelSelector {
  import opened Wrappers
  import opened JsText
  import GroqClient

  datatype Category = Llama | Gpt | Kimi

  datatype AIModel = AIModel(
    id: string,
    name: string,
    displayName: string,
    description: string,
    category: Category,
    maxTokens: nat,
    features: seq<string>,
    recommended: bool)

  /** `AI_MODELS`, in display order. */
  const AiModels: seq<AIModel> := [
    AIModel(GroqClient.DefaultModel, GroqClient.DefaultModel, "Llama 3.3 70B Versatile",
            "Most capable model for complex code generation and reasoning", Llama, 32768,
            ["Code Generation", "Complex Reasoning", "Large Context"], true),
    AIModel(GroqClient.MaverickModel, GroqClient.MaverickModel, "Llama 4 Maverick 17B",
            "Advanced reasoning with efficient performance", Llama, 8192,
            ["Advanced Reasoning", "Fast Inference", "Efficient"], false),
    AIModel(GroqClient.ScoutModel, GroqClient.ScoutModel, "Llama 4 Scout 17B",
            "Optimized for speed with good quality output", Llama, 8192,
            ["Fast Inference", "Good Quality", "Lightweight"], false),
    AIModel(GroqClient.GptOssModel, GroqClient.GptOssModel, "GPT-OSS 120B",
            "Open-source GPT with built-in tools and web search", Gpt, 8192,
            ["Tool Use", "Web Search", "Code Interpreter"], false),
    AIModel(GroqClient.KimiModel, GroqClient.KimiModel, "Kimi K2 Instruct",
            "Specialized for coding tasks with excellent accuracy", Kimi, 16384,
            ["Coding Specialist", "High Accuracy", "Large Context"], false)
  ]

  /** The ids of the table, in order. */
  const ModelIds: seq<string> := [GroqClient.DefaultModel, GroqClient.MaverickModel, GroqClient.ScoutModel,
                                  GroqClient.GptOssModel, GroqClient.KimiModel]

  /** The ids have pairwise different lengths, so they are pairwise different. */
  lemma ModelIdsDistinct()
    ensures forall i, j :: 0 <= i < j < |ModelIds| ==> ModelIds[i] != ModelIds[j]
  {
    assert |ModelIds[0]| == 23 && |ModelIds[1]| == 45 && |ModelIds[2]| == 41;
    assert |ModelIds[3]| == 19 && |ModelIds[4]| == 32;
  }

  /** Distinct ids, each entry's name is its id, and only the first entry is recommended. */
  lemma AiModelsTable()
    ensures |AiModels| == 5
    ensures forall i, j :: 0 <= i < j < |AiModels| ==> AiModels[i].id != AiModels[j].id
    ensures forall i :: 0 <= i < |AiModels| ==> AiModels[i].name == AiModels[i].id
    ensures forall i :: 0 <= i < |AiModels| ==> (AiModels[i].recommended <==> i == 0)
  {
    assert forall i :: 0 <= i < |AiModels| ==> AiModels[i].id == ModelIds[i];
    ModelIdsDistinct();
  }

  /** `AI_MODELS.find(m => m.id === id)`. */
  function FindModel(models: seq<AIModel>, id: string): (r: Option<AIModel>)
    ensures r.Some? ==> r.value in models && r.value.id == id
    ensures r.None? <==> forall m :: m in models ==> m.id != id
  {
    if models == [] then None
    else if models[0].id == id then Some(models[0])
    else FindModel(models[1..], id)
  }

  /** With distinct ids, the entry found for an id is the one that has it. */
  lemma {:induction false} FindDistinct(models: seq<AIModel>, i: nat)
    requires i < |models|
    requires forall a, b :: 0 <= a < b < |models| ==> models[a].id != models[b].id
    ensures FindModel(models, models[i].id) == Some(models[i])
  {
    if i > 0 {
      assert models[0].id != models[i].id;
      FindDistinct(models[1..], i - 1);
    }
  }

  /** `selectedModels.filter(id => id !== modelId)`. */
  function Without(selected: seq<string>, id: string): (r: seq<string>)
    ensures |r| <= |selected|
    ensures forall x :: x in r <==> x in selected && x != id
    ensures id !in selected ==> r == selected
  {
    if selected == [] then []
    else (if selected[0] == id then [] else [selected[0]]) + Without(selected[1..], id)
  }

  /** Removal keeps the relative order of what stays: it distributes over a selection built in two parts. */
  lemma {:induction false} WithoutAppend(selected: seq<string>, more: seq<string>, id: string)
    ensures Without(selected + more, id) == Without(selected, id) + Without(more, id)
    decreases |selected|
  {
    if selected == [] {
      assert selected + more == more;
    } else {
      assert (selected + more)[1..] == selected[1..] + more;
      WithoutAppend(selected[1..], more, id);
    }
  }

  /** `handleModelToggle`: a selected id is removed wherever it occurs; any other is appended. */
  function Toggle(selected: seq<string>, id: string): (r: seq<string>)
    ensures id in r <==> id !in selected
    ensures forall x :: x != id ==> (x in r <==> x in selected)
    ensures id !in selected ==> r == selected + [id]
    ensures id in selected ==> r == Without(selected, id)
  {
    if id in selected then Without(selected, id) else selected + [id]
  }

  /** Toggling an id that was not selected, twice, gives the selection back. */
  lemma ToggleTwice(selected: seq<string>, id: string)
    requires id !in selected
    ensures Toggle(Toggle(selected, id), id) == selected
  {
    WithoutAppend(selected, [id], id);
    assert Without([id], id) == [];
  }

  /** `getSelectedModelsDisplay`. */
  function Label(selected: seq<string>): (r: string)
    ensures |selected| == 0 ==> r == "Select AI Models"
    ensures |selected| == 1 ==> match FindModel(AiModels, selected[0])
      case Some(m) => r == (if m.displayName != "" then m.displayName else "Unknown Model")
      case None => r == "Unknown Model"
    ensures |selected| >= 2 ==> r == NatToString(|selected|) + " models selected"
  {
    if |selected| == 0 then "Select AI Models"
    else if |selected| == 1 then
      match FindModel(AiModels, selected[0])
      case Some(m) => if m.displayName != "" then m.displayName else "Unknown Model"
      case None => "Unknown Model"
    else NatToString(|selected|) + " models selected"
  }

  /** A single selected model of the table is shown by its display name. */
  lemma LabelOfOneModel(i: nat)
    requires i < |AiModels|
    ensures Label([AiModels[i].id]) == AiModels[i].displayName
  {
    AiModelsTable();
    FindDistinct(AiModels, i);
  }

  /** Several selected models are shown by their number, and the label gives the number back. */
  lemma LabelCountsModels(selected: seq<string>)
    requires |selected| >= 2
    ensures var r := Label(selected);
      |r| > 16 && DigitsValue(r[..|r| - 16]) == |selected|
  {
    var r := Label(selected);
    var digits := NatToString(|selected|);
    assert r[..|r| - 16] == digits;
    NatToStringRoundTrip(|selected|);
  }
}
