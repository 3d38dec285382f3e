/** The card that shows one template file of the catalogue: its title, formatted
    from the file name, and a description looked up by file name. */
module WorkflowCard {
  import opened Text

  /** `formatWorkflowName`: drop one trailing ".json", turn every '-' and '_'
      into a space and upper-case the first character of every word. */
  function FormatWorkflowName(name: string): (r: string)
    ensures |r| == if EndsWith(name, ".json") then |name| - 5 else |name|
    ensures forall i :: 0 <= i < |r| ==> r[i] != '-' && r[i] != '_'
    ensures !EndsWith(r, ".json")
  {
    var d := DashesToSpaces(StripJsonSuffix(name));
    CapitalizedHasNoJsonSuffix(d);
    CapitalizeWords(d)
  }

  /** After capitalisation a ".json" cannot end the text: the 'j' after a '.'
      starts a word and is upper-cased. */
  lemma CapitalizedHasNoJsonSuffix(d: string)
    ensures !EndsWith(CapitalizeWords(d), ".json")
  {
    var r := CapitalizeWords(d);
    if |r| >= 5 {
      var k := |r| - 4;
      var tail := r[|r| - 5..];
      assert tail[0] == r[k - 1] && tail[1] == r[k];
      if r[k - 1] == '.' {
        assert d[k - 1] == '.';
        assert r[k] != 'j';
      }
      assert tail != ".json" by {
        assert tail[0] != '.' || tail[1] != 'j';
      }
    }
  }

  /** What the title shows at each position: with `t` the name stripped of its
      ".json", a '-' or '_' of `t` shows as a space, a word character that starts
      a word shows upper-cased, and anything else shows unchanged. */
  lemma FormatWorkflowNameAt(name: string, i: nat)
    requires i < |StripJsonSuffix(name)|
    ensures var t := StripJsonSuffix(name); var d := DashesToSpaces(t);
      FormatWorkflowName(name)[i] ==
        if t[i] == '-' || t[i] == '_' then ' '
        else if StartsWord(d, i) then UpperAscii(t[i])
        else t[i]
  {
  }

  /** Formatting a title again changes nothing: no '-' or '_' is left, every word
      already starts upper-cased, and a ".json" left behind by the first pass now
      reads ".Json", so it is not stripped a second time. */
  lemma {:induction false} FormatWorkflowNameIdempotent(name: string)
    ensures FormatWorkflowName(FormatWorkflowName(name)) == FormatWorkflowName(name)
  {
    var r := FormatWorkflowName(name);
    assert StripJsonSuffix(r) == r;
    DashesToSpacesIdentity(r);
    CapitalizeWordsIdempotent(DashesToSpaces(StripJsonSuffix(name)));
  }

  /** The eight descriptions of `getWorkflowDescription`, keyed by lower-case file stem. */
  const Descriptions: map<string, string> := map[
    "slack-notification" := "Send notifications to Slack channels",
    "email-automation" := "Automate email workflows and responses",
    "data-sync" := "Synchronize data between different platforms",
    "webhook-handler" := "Handle incoming webhooks and process data",
    "file-processor" := "Process and transform files automatically",
    "api-integration" := "Integrate with various APIs and services",
    "database-backup" := "Backup and manage database operations",
    "social-media" := "Automate social media posting and monitoring"
  ]

  const DefaultDescription := "A powerful N8N workflow template ready to use"

  /** The lookup key: the lower-cased name without a trailing ".json". */
  function DescriptionKey(name: string): (key: string)
    ensures forall i :: 0 <= i < |key| ==> !('A' <= key[i] <= 'Z')
    ensures EndsWith(Lower(name), ".json") ==> key + ".json" == Lower(name)
    ensures !EndsWith(Lower(name), ".json") ==> key == Lower(name)
  {
    StripJsonSuffix(Lower(name))
  }

  /** `getWorkflowDescription` as evidently intended: the table entry for the key
      when there is one, otherwise the default; never empty. */
  function GetWorkflowDescription(name: string): (r: string)
    ensures r != ""
    ensures r == DefaultDescription || r in Descriptions.Values
    ensures DescriptionKey(name) !in Descriptions ==> r == DefaultDescription
    ensures DescriptionKey(name) in Descriptions ==> r == Descriptions[DescriptionKey(name)]
  {
    var key := DescriptionKey(name);
    if key in Descriptions then Descriptions[key] else DefaultDescription
  }

  /** The lookup ignores the case of the name. */
  lemma DescriptionIgnoresCase(name: string)
    ensures GetWorkflowDescription(name) == GetWorkflowDescription(Lower(name))
  {
    LowerIdempotent(name);
  }

  /** A ".json" extension, in any case, does not change the description of a
      name that has none. */
  lemma DescriptionIgnoresExtension(name: string, ext: string)
    requires Lower(ext) == ".json"
    requires !EndsWith(Lower(name), ".json")
    ensures GetWorkflowDescription(name + ext) == GetWorkflowDescription(name)
  {
    LowerAppend(name, ext);
    assert StripJsonSuffix(Lower(name) + ".json") == Lower(name);
  }

  /** The names `Object.prototype` carries that a lower-cased key can reach. */
  const PrototypeKeys: set<string> := {"constructor", "__proto__"}

  /** What `descriptions[key]` yields in JavaScript, where the table is a plain
      object literal and the lookup also reaches its prototype. */
  datatype Property = OwnEntry(text: string) | Inherited(member: string) | Undefined

  function LookupAsWritten(key: string): (p: Property)
    ensures key in Descriptions ==> p == OwnEntry(Descriptions[key])
    ensures key !in Descriptions && key in PrototypeKeys ==> p.Inherited?
    ensures key !in Descriptions && key !in PrototypeKeys ==> p.Undefined?
  {
    if key in Descriptions then OwnEntry(Descriptions[key])
    else if key in PrototypeKeys then Inherited(key)
    else Undefined
  }

  /** `getWorkflowDescription` as written: `descriptions[key] || default`. An
      inherited member is a function or an object, so it is truthy and returned. */
  function GetWorkflowDescriptionAsWritten(name: string): (p: Property)
    ensures p.OwnEntry? || p.Inherited?
    ensures DescriptionKey(name) !in PrototypeKeys ==> p == OwnEntry(GetWorkflowDescription(name))
  {
    match LookupAsWritten(DescriptionKey(name))
    case OwnEntry(text) => OwnEntry(text)
    case Inherited(member) => Inherited(member)
    case Undefined => OwnEntry(DefaultDescription)
  }

  /** A template file named "constructor.json" gets the `Object` constructor, not
      a text, as its description, though its key is not in the table. */
  lemma ConstructorNameGetsNoText()
    ensures DescriptionKey("constructor.json") !in Descriptions
    ensures GetWorkflowDescriptionAsWritten("constructor.json") == Inherited("constructor")
    ensures GetWorkflowDescription("constructor.json") == DefaultDescription
  {
    ConstructorKey();
    assert "constructor" !in Descriptions;
  }

  lemma ConstructorKey()
    ensures DescriptionKey("constructor.json") == "constructor"
  {
    LowerOfLowerCase("constructor.json");
  }
}
