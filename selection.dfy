/**
 * Complexity classification of a v1 agent definition and the choice of the
 * backend that transforms it (`analyze_complexity`, `select_model`).
 */
module Selection {
  import opened Wrappers

  /** The kind of backend a model name belongs to. */
  datatype Backend = Ollama | OpenAI

  datatype Choice = Choice(name: string, kind: Backend)

  /** The cloud model used by default and for every cloud fallback. */
  const CloudModel: string := "gpt-4o-mini"

  /** Local models in order of preference. */
  const Preferred: seq<string> := ["qwen2.5:32b-instruct", "deepseek-r1:70b", "mistral:latest"]

  /** Complexity levels returned by the classifier. */
  const Simple: real := 0.2
  const Medium: real := 0.5
  const Complex: real := 0.8

  /** Complexity below this threshold may use a local model. */
  const LocalThreshold: real := 0.7

  /** Size-based complexity of a v1 definition: three fixed levels. */
  function AnalyzeComplexity(v1Content: string): (c: real)
    ensures c == Simple || c == Medium || c == Complex
  {
    var size := |v1Content|;
    if size < 2000 then Simple
    else if size < 5000 then Medium
    else Complex
  }

  /** The first preferred local model, from position `i` on, that is installed. */
  function FirstPreferred(installed: seq<string>, i: nat): (r: Option<string>)
    requires i <= |Preferred|
    ensures r.Some? ==> r.value in installed && r.value in Preferred[i..]
    decreases |Preferred| - i
  {
    if i == |Preferred| then None
    else if Preferred[i] in installed then Some(Preferred[i])
    else FirstPreferred(installed, i + 1)
  }

  /** The model `select_model` picks for a complexity, given what Ollama reported. */
  function ModelChoice(complexity: real, ollamaAvailable: bool, ollamaModels: seq<string>): (r: Choice)
    ensures r.kind == OpenAI <==> r.name == CloudModel
    ensures r.kind == Ollama ==> complexity < LocalThreshold && ollamaAvailable &&
                                 r.name in ollamaModels && r.name in Preferred
  {
    if complexity < LocalThreshold && ollamaAvailable && |ollamaModels| > 0 then
      match FirstPreferred(ollamaModels, 0)
      case Some(name) => Choice(name, Ollama)
      case None => Choice(CloudModel, OpenAI)
    else
      Choice(CloudModel, OpenAI)
  }

  /** The search returns the earliest installed preferred model, or None if none is installed. */
  lemma {:induction false} FirstPreferredIsEarliest(installed: seq<string>, i: nat)
    requires i <= |Preferred|
    ensures FirstPreferred(installed, i).None? <==>
              forall j :: i <= j < |Preferred| ==> Preferred[j] !in installed
    ensures FirstPreferred(installed, i).Some? ==>
              exists j :: i <= j < |Preferred| &&
                FirstPreferred(installed, i).value == Preferred[j] && Preferred[j] in installed &&
                forall j' :: i <= j' < j ==> Preferred[j'] !in installed
    decreases |Preferred| - i
  {
    if i < |Preferred| && Preferred[i] !in installed {
      FirstPreferredIsEarliest(installed, i + 1);
    }
  }

  /**
   * A local model is chosen exactly when the complexity is below 0.7, Ollama is up,
   * it lists at least one model, and one of the preferred models is among them; the
   * name is then the first preferred model that is installed.
   */
  lemma LocalChoice(complexity: real, ollamaAvailable: bool, ollamaModels: seq<string>)
    ensures var c := ModelChoice(complexity, ollamaAvailable, ollamaModels);
      c.kind == Ollama <==>
        complexity < LocalThreshold && ollamaAvailable && |ollamaModels| > 0 &&
        exists j :: 0 <= j < |Preferred| && Preferred[j] in ollamaModels
    ensures var c := ModelChoice(complexity, ollamaAvailable, ollamaModels);
      c.kind == Ollama ==>
        exists j :: 0 <= j < |Preferred| && c.name == Preferred[j] && c.name in ollamaModels &&
          forall j' :: 0 <= j' < j ==> Preferred[j'] !in ollamaModels
  {
    FirstPreferredIsEarliest(ollamaModels, 0);
  }

  /** Every other case goes to the cloud model, including installed models none of which is preferred. */
  lemma CloudDefault(complexity: real, ollamaAvailable: bool, ollamaModels: seq<string>)
    ensures var c := ModelChoice(complexity, ollamaAvailable, ollamaModels);
      c.kind == OpenAI ==> c == Choice(CloudModel, OpenAI)
    ensures (forall j :: 0 <= j < |Preferred| ==> Preferred[j] !in ollamaModels) ==>
      ModelChoice(complexity, ollamaAvailable, ollamaModels) == Choice(CloudModel, OpenAI)
  {
    FirstPreferredIsEarliest(ollamaModels, 0);
  }

  /** The level is 0.2 below 2000 characters, 0.5 from 2000 up to 4999, and 0.8 from 5000 on. */
  lemma ComplexityThresholds(v1Content: string)
    ensures AnalyzeComplexity(v1Content) == Simple <==> |v1Content| < 2000
    ensures AnalyzeComplexity(v1Content) == Medium <==> 2000 <= |v1Content| < 5000
    ensures AnalyzeComplexity(v1Content) == Complex <==> |v1Content| >= 5000
  {
  }

  /** Longer content never gets a lower complexity. */
  lemma ComplexityMonotone(a: string, b: string)
    requires |a| <= |b|
    ensures AnalyzeComplexity(a) <= AnalyzeComplexity(b)
  {
  }

  /** Content of 5000 characters or more always goes to the cloud model. */
  lemma LongContentGoesToCloud(v1Content: string, ollamaAvailable: bool, ollamaModels: seq<string>)
    requires |v1Content| >= 5000
    ensures ModelChoice(AnalyzeComplexity(v1Content), ollamaAvailable, ollamaModels) == Choice(CloudModel, OpenAI)
  {
  }
}
