/** The API-key settings (apps/web/src/hooks/use-api-keys.tsx): ten keys,
    each read from its own local-storage entry with "" as the default, and
    the check that at least one of them is set. Local storage is a map from
    storage key to stored string; how it is persisted is not modelled. */
module ApiKeys {
  import opened Js

  type Storage = map<string, string>

  /** The ten settings in declaration order: the property of `apiKeys` and
      the local-storage key it is read from. */
  const Settings: seq<(string, string)> := [
    ("OPENAI_API_KEY", "lg:settings:openaiApiKey"),
    ("ANTHROPIC_API_KEY", "lg:settings:anthropicApiKey"),
    ("GOOGLE_API_KEY", "lg:settings:googleApiKey"),
    ("TAVILY_API_KEY", "lg:settings:tavilyApiKey"),
    ("OPENROUTER_API_KEY", "lg:settings:openrouterApiKey"),
    ("MISTRAL_API_KEY", "lg:settings:mistralApiKey"),
    ("COHERE_API_KEY", "lg:settings:cohereApiKey"),
    ("GROQ_API_KEY", "lg:settings:groqApiKey"),
    ("PERPLEXITY_API_KEY", "lg:settings:perplexityApiKey"),
    ("XAI_API_KEY", "lg:settings:xaiApiKey")
  ]

  const StoragePrefix := "lg:settings:"

  /** useLocalStorage with default "". */
  function Stored(storage: Storage, key: string): (value: string)
    ensures key in storage ==> value == storage[key]
    ensures key !in storage ==> value == ""
  {
    if key in storage then storage[key] else ""
  }

  /** The ten properties have distinct names. */
  lemma PropertiesAreDistinct()
    ensures |Settings| == 10
    ensures forall i, j :: 0 <= i < j < |Settings| ==> Settings[i].0 != Settings[j].0
  {
  }

  /** The ten storage keys are distinct. */
  lemma StorageKeysAreDistinct()
    ensures forall i, j :: 0 <= i < j < |Settings| ==> Settings[i].1 != Settings[j].1
  {
  }

  /** Every storage key starts with "lg:settings:". */
  lemma StorageKeysArePrefixed()
    ensures forall i :: 0 <= i < |Settings| ==> StoragePrefix <= Settings[i].1
  {
  }

  /** useApiKeys: the value of each property, in declaration order. */
  function UseApiKeys(storage: Storage): (apiKeys: seq<(string, string)>)
    ensures |apiKeys| == |Settings|
    ensures forall i :: 0 <= i < |Settings| ==>
              apiKeys[i].0 == Settings[i].0 && apiKeys[i].1 == Stored(storage, Settings[i].1)
  {
    seq(|Settings|, i requires 0 <= i < |Settings| => (Settings[i].0, Stored(storage, Settings[i].1)))
  }

  /** With nothing stored, every key is "". */
  lemma DefaultsAreEmpty()
    ensures forall i :: 0 <= i < |Settings| ==> UseApiKeys(map[])[i].1 == ""
  {
  }

  /** `key && key.trim() !== ""`: a key is set exactly when it is not blank. */
  function IsSet(key: string): (isSet: bool)
    ensures isSet <==> !IsBlank(key)
  {
    TrimEmptyIffBlank(key);
    key != "" && Trim(key) != ""
  }

  /** Object.values. */
  function Values(apiKeys: seq<(string, string)>): (vs: seq<string>)
    ensures |vs| == |apiKeys| && forall i :: 0 <= i < |apiKeys| ==> vs[i] == apiKeys[i].1
  {
    seq(|apiKeys|, i requires 0 <= i < |apiKeys| => apiKeys[i].1)
  }

  /** `values.some(IsSet)`, scanning from the first value. */
  function AnySet(values: seq<string>): (r: bool)
    ensures r <==> exists i :: 0 <= i < |values| && IsSet(values[i])
  {
    if values == [] then false
    else
      var rest := AnySet(values[1..]);
      assert rest <==> exists i :: 1 <= i < |values| && IsSet(values[i]) by {
        if rest {
          var i :| 0 <= i < |values| - 1 && IsSet(values[1..][i]);
          assert values[i + 1] == values[1..][i];
        }
        if exists i :: 1 <= i < |values| && IsSet(values[i]) {
          var i :| 1 <= i < |values| && IsSet(values[i]);
          assert values[1..][i - 1] == values[i];
        }
      }
      IsSet(values[0]) || rest
  }

  /** Some value is set exactly when some value is not blank. */
  lemma AnySetIffSomeNonBlank(values: seq<string>)
    ensures AnySet(values) <==> exists i :: 0 <= i < |values| && !IsBlank(values[i])
  {
  }


  /** useHasApiKeys: true iff some stored key has a character that is not white space. */
  function UseHasApiKeys(storage: Storage): (r: bool)
    ensures r <==> exists i :: 0 <= i < |Settings| && !IsBlank(Stored(storage, Settings[i].1))
  {
    var values := Values(UseApiKeys(storage));
    assert forall i :: 0 <= i < |Settings| ==> values[i] == Stored(storage, Settings[i].1);
    AnySetIffSomeNonBlank(values);
    AnySet(values)
  }

  /** With every key at its default "", no key is set. */
  lemma NothingStoredMeansNoKeys()
    ensures !UseHasApiKeys(map[])
  {
  }

  /** Keys holding only white space never count as set. */
  lemma BlankKeysNeverCount(storage: Storage)
    requires forall k | k in storage :: IsBlank(storage[k])
    ensures !UseHasApiKeys(storage)
  {
  }

  /** Storing one non-blank key makes the result true whatever the others hold. */
  lemma OneNonBlankKeySuffices(storage: Storage, i: nat, key: string)
    requires i < |Settings| && !IsBlank(key)
    ensures UseHasApiKeys(storage[Settings[i].1 := key])
  {
    assert Stored(storage[Settings[i].1 := key], Settings[i].1) == key;
  }
}
