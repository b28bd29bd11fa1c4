/**
 * The allow-lists, the keyword classifier for topics, and the checks `init_gemini` makes before it
 * configures the model client.
 */
module Config {
  import opened Wrappers
  import opened Text

  const AvailableModels: seq<string> := [
    "gemini-1.0-pro",
    "gemini-1.5-flash",
    "gemini-1.5-flash-8b",
    "gemini-1.5-flash-8b-exp",
    "gemini-1.5-flash-exp",
    "gemini-1.5-pro",
    "gemini-1.5-pro-exp",
    "gemini-2.0-flash-exp"
  ]

  const DefaultModel: string := "gemini-2.0-flash-exp"

  const ExpertiseLevels: seq<string> := [
    "storyteller", "novelist", "journalist", "poet", "screenwriter",
    "critic", "researcher", "educator", "analyst"
  ]

  const ToneStyles: seq<string> := [
    "funny", "serious", "dramatic", "sarcastic", "critical", "mysterious",
    "emotional", "neutral", "educational", "technical", "casual"
  ]

  const WritingStyles: seq<string> := [
    "factual", "relatable", "analytical", "narrative", "practical", "balanced"
  ]

  /** The categories in the order they are tried, each with its keywords. */
  const Categories: seq<string> := ["technical", "creative", "educational", "business"]

  const Keywords: seq<seq<string>> := [
    ["programming", "technology", "science", "engineering", "math", "data", "algorithm", "system"],
    ["art", "music", "writing", "design", "creative", "story", "poetry", "fiction"],
    ["learning", "education", "teaching", "study", "academic", "school", "university", "course"],
    ["business", "marketing", "finance", "management", "strategy", "entrepreneurship", "startup"]
  ]

  const Fallback: string := "general"

  /** Some keyword of category `k` occurs in `text`. */
  predicate Matches(text: string, k: nat)
    requires k < |Keywords|
  {
    exists w | w in Keywords[k] :: Contains(text, w)
  }

  /** The first category from index `k` on that matches `text`, or the fallback. */
  function FirstMatch(text: string, k: nat): (r: string)
    requires k <= |Categories|
    ensures r in Categories[k..] || r == Fallback
    decreases |Categories| - k
  {
    if k == |Categories| then Fallback
    else if Matches(text, k) then Categories[k]
    else FirstMatch(text, k + 1)
  }

  /** `get_topic_category(topic)` */
  function TopicCategory(topic: string): (r: string)
    ensures r in Categories || r == Fallback
  {
    FirstMatch(Lower(topic), 0)
  }

  /** The categories are distinct and none of them is the fallback. */
  lemma CategoriesDistinct()
    ensures forall i, j :: 0 <= i < j < |Categories| ==> Categories[i] != Categories[j]
    ensures Fallback !in Categories
  {
  }

  lemma {:induction false} FirstMatchIff(text: string, k: nat, i: nat)
    requires k <= i < |Categories|
    ensures FirstMatch(text, k) == Categories[i] <==>
      Matches(text, i) && forall j :: k <= j < i ==> !Matches(text, j)
    decreases i - k
  {
    CategoriesDistinct();
    if k < i && !Matches(text, k) {
      FirstMatchIff(text, k + 1, i);
    }
  }

  lemma {:induction false} FirstMatchFallback(text: string, k: nat)
    requires k <= |Categories|
    ensures FirstMatch(text, k) == Fallback <==> forall j :: k <= j < |Categories| ==> !Matches(text, j)
    decreases |Categories| - k
  {
    CategoriesDistinct();
    if k < |Categories| {
      FirstMatchFallback(text, k + 1);
    }
  }

  /**
   * A topic falls into category `i` exactly when its lowered text contains one of that category's
   * keywords and no keyword of an earlier category.
   */
  lemma TopicCategoryIff(topic: string, i: nat)
    requires i < |Categories|
    ensures TopicCategory(topic) == Categories[i] <==>
      Matches(Lower(topic), i) && forall j :: 0 <= j < i ==> !Matches(Lower(topic), j)
  {
    FirstMatchIff(Lower(topic), 0, i);
  }

  /** "general" is returned exactly when no keyword of any category occurs. */
  lemma TopicCategoryFallback(topic: string)
    ensures TopicCategory(topic) == Fallback <==> forall j :: 0 <= j < |Categories| ==> !Matches(Lower(topic), j)
  {
    FirstMatchFallback(Lower(topic), 0);
  }

  /** The classification does not depend on the case of the topic. */
  lemma TopicCategoryIgnoresCase(topic: string)
    ensures TopicCategory(Lower(topic)) == TopicCategory(topic)
  {
    LowerLower(topic);
  }

  /** Matching is on substrings: "startup" contains "art", so it is creative before business is tried. */
  lemma StartupIsCreative()
    ensures TopicCategory("startup") == "creative"
  {
    StartupFacts();
    FirstMatchIff("startup", 0, 1);
  }

  lemma StartupFacts()
    ensures Lower("startup") == "startup"
    ensures !Matches("startup", 0) && Matches("startup", 1)
  {
    var t := "startup";
    assert Lower(t) == t by {
      forall i | 0 <= i < |t| ensures LowerChar(t[i]) == t[i] {
      }
    }
    assert Matches(t, 1) by {
      ContainsAt(t, "art", 2);
      assert "art" in Keywords[1];
    }
    StartupNotTechnical();
  }

  lemma StartupNotTechnical()
    ensures !Matches("startup", 0)
  {
    var t := "startup";
    // each technical keyword has a letter that "startup" lacks
    forall w | w in Keywords[0] ensures !Contains(t, w) {
      var c := if w == "programming" || w == "engineering" then 'g'
        else if w == "technology" || w == "science" then 'c'
        else if w == "math" then 'm'
        else if w == "data" then 'd'
        else if w == "algorithm" then 'l'
        else 'y';
      NotContainsChar(t, w, c);
    }
  }

  /** `init_gemini(model_name, api_key)`: the key the client is configured with, or the `ValueError` message. */
  function InitGemini(modelName: string, apiKey: string, envKey: string): (r: Result<string, string>)
    ensures modelName !in AvailableModels ==> r == Failure("Model " + modelName + " not supported")
    ensures modelName in AvailableModels && apiKey == "" && envKey == "" ==> r == Failure("API key not found")
    ensures r.Success? <==> modelName in AvailableModels && (apiKey != "" || envKey != "")
    ensures r.Success? ==> r.value != "" && r.value == (if apiKey != "" then apiKey else envKey)
  {
    if modelName !in AvailableModels then Failure("Model " + modelName + " not supported")
    else
      var key := if apiKey != "" then apiKey else envKey;
      if key == "" then Failure("API key not found") else Success(key)
  }

  /** The model is checked before the key: an unsupported model is reported whatever the keys are. */
  lemma ModelCheckedFirst(modelName: string, k1: string, e1: string, k2: string, e2: string)
    requires modelName !in AvailableModels
    ensures InitGemini(modelName, k1, e1) == InitGemini(modelName, k2, e2)
  {
  }
}
