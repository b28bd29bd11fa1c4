/**
 * `PromptManager`: named prompt templates kept in a JSON file. The file is abstracted as the map it
 * holds, or as missing or unreadable; every operation reads the file afresh, falling back to the
 * built-in default prompt when it cannot be read.
 */
module PromptStore {
  import opened Wrappers
  import opened Templates
  import PromptBuilder
  import Numerals

  /** A stored prompt: `{'name': ..., 'template': ...}`. */
  datatype Entry = Entry(name: string, template: string)

  /** The prompts file: absent, not readable as a prompts map, or holding one. */
  datatype StoreFile = Missing | Unreadable | Stored(prompts: map<string, Entry>)

  /** The default template, written as its literal text and its placeholders. */
  const DefaultPieces: seq<Piece> := [
    Lit("\n" +
      "                Generate part "),
    Field("part_number"),
    Lit(" of "),
    Field("total_parts"),
    Lit(" discussing this topic: "),
    Field("topic"),
    Lit("\n" +
      "                Category: "),
    Field("topic_category"),
    Lit("\n" +
      "                "),
    Field("context_text"),
    Lit("\n" +
      "                "),
    Field("previous_context"),
    Lit("\n" +
      "                \n" +
      "                Writing Guidelines:\n" +
      "                - Write as a "),
    Field("expertise"),
    Lit(": "),
    Field("expertise_instructions"),
    Lit("\n" +
      "                - Use a "),
    Field("tone"),
    Lit(" tone: "),
    Field("tone_instructions"),
    Lit("\n" +
      "                \n" +
      "                Category-Specific Guidelines:\n" +
      "                "),
    Field("category_instructions"),
    Lit("\n" +
      "                \n" +
      "                General Requirements:\n" +
      "                - Focus on accuracy and relevance\n" +
      "                - Include specific examples and references\n" +
      "                - Consider multiple perspectives\n" +
      "                - Support statements with evidence\n" +
      "                - Address potential questions or concerns\n" +
      "                - Provide practical insights when applicable\n" +
      "                \n" +
      "                Structure Requirements:\n" +
      "                - Minimum length: 4000 characters\n" +
      "                - Use clear paragraphs and transitions\n" +
      "                - Include relevant data when applicable\n" +
      "                - Balance theory and practice\n" +
      "                - Maintain professional yet accessible language\n" +
      "                - Format for easy reading and comprehension\n" +
      "                ")
  ]

  /** The default template's text. */
  const DefaultTemplate: string := Render(DefaultPieces)

  const DefaultId: string := "default"

  const DefaultPrompts: map<string, Entry> := map[DefaultId := Entry("Default Prompt", DefaultTemplate)]

  /** `load_prompts()`: the stored map, or the manager's `defaults` when the file cannot be read. */
  function Load(defaults: map<string, Entry>, file: StoreFile): map<string, Entry> {
    if file.Stored? then file.prompts else defaults
  }

  /** The file after `PromptManager()`: written with the defaults when it did not exist. */
  function Seeded(defaults: map<string, Entry>, file: StoreFile): (r: StoreFile)
    ensures Load(defaults, r) == Load(defaults, file)
    ensures r != Missing
    ensures file.Missing? ==> r == Stored(defaults)
    ensures !file.Missing? ==> r == file
  {
    if file.Missing? then Stored(defaults) else file
  }

  /** The file after `save_prompt(id, name, template)`. */
  function Saved(defaults: map<string, Entry>, file: StoreFile, id: string, name: string, template: string): StoreFile {
    Stored(Load(defaults, file)[id := Entry(name, template)])
  }

  /** `get_prompt(id)` */
  function Get(defaults: map<string, Entry>, file: StoreFile, id: string): (r: Option<Entry>)
    ensures r.Some? <==> id in Load(defaults, file)
    ensures r.Some? ==> r.value == Load(defaults, file)[id]
  {
    if id in Load(defaults, file) then Some(Load(defaults, file)[id]) else None
  }

  /** The file after `delete_prompt(id)`, and what the call returns. */
  function Deleted(defaults: map<string, Entry>, file: StoreFile, id: string): (StoreFile, bool) {
    if id == DefaultId then (file, false)
    else if id in Load(defaults, file) then (Stored(Load(defaults, file) - {id}), true)
    else (file, false)
  }

  class PromptManager {
    /** `self.default_prompts` */
    const defaults: map<string, Entry>
    var file: StoreFile

    /** `PromptManager()`, finding `existing` on disk. */
    constructor(existing: StoreFile)
      ensures defaults == DefaultPrompts
      ensures file == Seeded(defaults, existing)
    {
      defaults := DefaultPrompts;
      if existing.Missing? {
        file := Stored(DefaultPrompts);
      } else {
        file := existing;
      }
    }

    /** The prompts every call sees while the file stays as it is. */
    function Prompts(): map<string, Entry>
      reads this
    {
      Load(defaults, file)
    }

    method SavePrompt(id: string, name: string, template: string) returns (e: Entry)
      modifies this
      ensures file == Saved(defaults, old(file), id, name, template)
      ensures e == Entry(name, template)
    {
      var prompts := Load(defaults, file);
      prompts := prompts[id := Entry(name, template)];
      file := Stored(prompts);
      e := prompts[id];
    }

    method GetPrompt(id: string) returns (r: Option<Entry>)
      ensures r == Get(defaults, file, id)
    {
      var prompts := Load(defaults, file);
      if id in prompts {
        r := Some(prompts[id]);
      } else {
        r := None;
      }
    }

    method DeletePrompt(id: string) returns (deleted: bool)
      modifies this
      ensures (file, deleted) == Deleted(defaults, old(file), id)
    {
      if id == DefaultId {
        return false;
      }
      var prompts := Load(defaults, file);
      if id in prompts {
        prompts := prompts - {id};
        file := Stored(prompts);
        return true;
      }
      return false;
    }

    method ListPrompts() returns (m: map<string, Entry>)
      ensures m == Prompts()
    {
      m := Load(defaults, file);
    }
  }

  /** A store that is missing or unreadable reads as the default prompts. */
  lemma UnreadableIsDefault(file: StoreFile)
    requires !file.Stored?
    ensures Load(DefaultPrompts, file) == DefaultPrompts
    ensures Get(DefaultPrompts, file, DefaultId) == Some(Entry("Default Prompt", DefaultTemplate))
  {
  }

  /** After saving, the prompt reads back as the entry saved. */
  lemma GetAfterSave(defaults: map<string, Entry>, file: StoreFile, id: string, name: string, template: string)
    ensures Get(defaults, Saved(defaults, file, id, name, template), id) == Some(Entry(name, template))
  {
  }

  /** Saving changes only the key saved, and may overwrite 'default' too. */
  lemma SaveOnlyThatKey(defaults: map<string, Entry>, file: StoreFile, id: string, name: string, template: string, other: string)
    requires other != id
    ensures Get(defaults, Saved(defaults, file, id, name, template), other) == Get(defaults, file, other)
    ensures Load(defaults, Saved(defaults, file, id, name, template)).Keys == Load(defaults, file).Keys + {id}
  {
  }

  /** 'default' cannot be deleted. */
  lemma DeleteDefaultRefused(defaults: map<string, Entry>, file: StoreFile)
    ensures Deleted(defaults, file, DefaultId) == (file, false)
  {
  }

  /** Deleting succeeds exactly for a present id other than 'default', and removes only that key. */
  lemma DeleteIff(defaults: map<string, Entry>, file: StoreFile, id: string, other: string)
    requires other != id
    ensures Deleted(defaults, file, id).1 <==> id != DefaultId && id in Load(defaults, file)
    ensures Get(defaults, Deleted(defaults, file, id).0, other) == Get(defaults, file, other)
    ensures Deleted(defaults, file, id).1 ==> Get(defaults, Deleted(defaults, file, id).0, id) == None
    ensures !Deleted(defaults, file, id).1 ==> Deleted(defaults, file, id).0 == file
  {
  }

  /** Once the 'default' prompt is present, no save or delete removes it. */
  lemma DefaultStaysPresent(defaults: map<string, Entry>, file: StoreFile, id: string, name: string, template: string)
    requires DefaultId in Load(defaults, file)
    ensures DefaultId in Load(defaults, Saved(defaults, file, id, name, template))
    ensures DefaultId in Load(defaults, Deleted(defaults, file, id).0)
  {
  }

  /** Every field of the default template is one of the eleven placeholders. */
  lemma DefaultFieldNames()
    ensures forall i :: 0 <= i < |DefaultPieces| ==> (!DefaultPieces[i].Malformed? &&
      (DefaultPieces[i].Field? ==> DefaultPieces[i].name in PromptBuilder.PlaceholderNames))
  {
  }

  lemma DefaultRenderable()
    ensures Renderable(DefaultPieces)
  {
    DefaultFieldNames();
    PromptBuilder.PlaceholderNamesAreKeywords();
    forall i | 0 <= i < |DefaultPieces| && DefaultPieces[i].Field? ensures BraceFree(DefaultPieces[i].name) {
      var n := DefaultPieces[i].name;
      assert n in PromptBuilder.PlaceholderNames;
      assert Numerals.IsDigit('{') == false;
    }
  }

  lemma DefaultFillable(args: map<string, string>)
    requires PromptBuilder.PlaceholderNames <= args.Keys
    ensures Fillable(DefaultPieces, args)
  {
    DefaultFieldNames();
    PromptBuilder.PlaceholderNamesAreKeywords();
  }

  /** The default template names only the eleven placeholders, so formatting it with them always succeeds. */
  lemma DefaultTemplateFills(args: map<string, string>)
    requires PromptBuilder.PlaceholderNames <= args.Keys
    ensures Tokenize(DefaultTemplate) == Explode(DefaultPieces)
    ensures Format(Tokenize(DefaultTemplate), args) == Format(DefaultPieces, args)
    ensures Format(Tokenize(DefaultTemplate), args).Success?
    ensures DefaultTemplate != ""
  {
    assert DefaultPieces[0].Lit?;
    DefaultRenderable();
    DefaultFillable(args);
    TokenizeRender(DefaultPieces);
    FormatExplode(DefaultPieces, args);
    FormatSucceedsIff(DefaultPieces, args);
  }
}
