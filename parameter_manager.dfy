/** The preset store: a dictionary of named substrate presets read from a JSON
    configuration file, and the name of the preset currently selected. The
    file itself is not read here: each load is given what reading it
    produced. */
module ParameterStore {
  import opened Wrappers

  /* ---------------------------------------------------------------------- */
  /* JSON values                                                            */
  /* ---------------------------------------------------------------------- */

  /** A JSON value as the JSON reader returns it. An object keeps its members
      in file order; as for a dictionary built from them, a later member with
      the same key overrides an earlier one. */
  datatype Json =
    | JNull
    | JBool(b: bool)
    | JNum(n: real)
    | JStr(s: string)
    | JArr(items: seq<Json>)
    | JObj(fields: seq<(string, Json)>)

  /** The empty object `{}`, the getters' "nothing" answer. */
  const EmptyObject: Json := JObj([])

  /** Truth value of a JSON value in a condition: null, false, zero, and empty
      strings, arrays and objects are false. */
  predicate Truthy(v: Json) {
    match v
    case JNull => false
    case JBool(b) => b
    case JNum(n) => n != 0.0
    case JStr(s) => s != ""
    case JArr(items) => |items| > 0
    case JObj(fields) => |fields| > 0
  }

  /* ---------------------------------------------------------------------- */
  /* Inserting (name, value) pairs into a dictionary                        */
  /* ---------------------------------------------------------------------- */

  /** The names of a sequence of pairs. */
  function Names(pairs: seq<(string, Json)>): set<string> {
    set i | 0 <= i < |pairs| :: pairs[i].0
  }

  /** The dictionary `m` after `m[name] = value` for each pair in turn. */
  function Inserted(m: map<string, Json>, pairs: seq<(string, Json)>): map<string, Json>
    decreases |pairs|
  {
    if |pairs| == 0 then m
    else
      var last := pairs[|pairs| - 1];
      Inserted(m, pairs[..|pairs| - 1])[last.0 := last.1]
  }

  /** The key order of such a dictionary: a name inserted for the first time
      goes to the end; overwriting keeps its place. */
  function InsertionOrder(order: seq<string>, pairs: seq<(string, Json)>): seq<string>
    decreases |pairs|
  {
    if |pairs| == 0 then order
    else
      var before, name := InsertionOrder(order, pairs[..|pairs| - 1]), pairs[|pairs| - 1].0;
      if name in before then before else before + [name]
  }

  /** No name occurs twice. */
  predicate Distinct(names: seq<string>) {
    forall i, j :: 0 <= i < j < |names| ==> names[i] != names[j]
  }

  /** The value of `key` in a JSON object, as a dictionary lookup. */
  function Lookup(fields: seq<(string, Json)>, key: string): (v: Option<Json>)
    ensures v.Some? <==> key in Names(fields)
  {
    InsertedKeys(map[], fields);
    var dict := Inserted(map[], fields);
    if key in dict then Some(dict[key]) else None
  }

  /** The position of the last member named `key`: the one a dictionary built
      from the members keeps. */
  function LastIndex(fields: seq<(string, Json)>, key: string): (i: int)
    requires key in Names(fields)
    ensures 0 <= i < |fields| && fields[i].0 == key
    ensures forall j :: i < j < |fields| ==> fields[j].0 != key
    decreases |fields|
  {
    if fields[|fields| - 1].0 == key then |fields| - 1
    else
      NamesSplit(fields);
      LastIndex(fields[..|fields| - 1], key)
  }

  /** `dict.get(key, default)` on a JSON object: the value of the last member
      named `key`, or `default` when there is none. */
  function Get(fields: seq<(string, Json)>, key: string, default: Json): (v: Json)
    ensures key !in Names(fields) ==> v == default
    ensures key in Names(fields) ==>
      exists i :: 0 <= i < |fields| && fields[i].0 == key && v == fields[i].1
        && forall j :: i < j < |fields| ==> fields[j].0 != key
  {
    var found := Lookup(fields, key);
    if found.Some? then
      InsertedLastWins(map[], fields, LastIndex(fields, key));
      found.value
    else default
  }

  /** The names of a non-empty sequence are those of its front and its last name. */
  lemma NamesSplit(pairs: seq<(string, Json)>)
    requires |pairs| > 0
    ensures Names(pairs) == Names(pairs[..|pairs| - 1]) + {pairs[|pairs| - 1].0}
  {
  }

  /** The inserted dictionary holds the old keys and every inserted name. */
  lemma {:induction false} InsertedKeys(m: map<string, Json>, pairs: seq<(string, Json)>)
    ensures Inserted(m, pairs).Keys == m.Keys + Names(pairs)
    decreases |pairs|
  {
    if |pairs| > 0 {
      var front := pairs[..|pairs| - 1];
      InsertedKeys(m, front);
      NamesSplit(pairs);
    }
  }

  /** A name that is not inserted keeps its old value. */
  lemma {:induction false} InsertedKeepsOthers(m: map<string, Json>, pairs: seq<(string, Json)>, key: string)
    requires key in m && key !in Names(pairs)
    ensures key in Inserted(m, pairs) && Inserted(m, pairs)[key] == m[key]
    decreases |pairs|
  {
    if |pairs| > 0 {
      var front := pairs[..|pairs| - 1];
      NamesSplit(pairs);
      InsertedKeepsOthers(m, front, key);
    }
  }

  /** The pair inserted last for a name decides its value. */
  lemma {:induction false} InsertedLastWins(m: map<string, Json>, pairs: seq<(string, Json)>, i: int)
    requires 0 <= i < |pairs|
    requires forall j :: i < j < |pairs| ==> pairs[j].0 != pairs[i].0
    ensures pairs[i].0 in Inserted(m, pairs) && Inserted(m, pairs)[pairs[i].0] == pairs[i].1
    decreases |pairs|
  {
    if i < |pairs| - 1 {
      var front := pairs[..|pairs| - 1];
      assert front[i] == pairs[i];
      InsertedLastWins(m, front, i);
    }
  }

  /** For an inserted name the starting dictionary does not matter. */
  lemma {:induction false} InsertedOverrides(m1: map<string, Json>, m2: map<string, Json>,
                                             pairs: seq<(string, Json)>, key: string)
    requires key in Names(pairs)
    ensures key in Inserted(m1, pairs) && key in Inserted(m2, pairs)
    ensures Inserted(m1, pairs)[key] == Inserted(m2, pairs)[key]
    decreases |pairs|
  {
    var front, last := pairs[..|pairs| - 1], pairs[|pairs| - 1];
    if key != last.0 {
      NamesSplit(pairs);
      InsertedOverrides(m1, m2, front, key);
    }
  }

  /** Inserting the same pairs a second time changes nothing. */
  lemma InsertedIdempotent(m: map<string, Json>, pairs: seq<(string, Json)>)
    ensures Inserted(Inserted(m, pairs), pairs) == Inserted(m, pairs)
  {
    var once := Inserted(m, pairs);
    var twice := Inserted(once, pairs);
    InsertedKeys(m, pairs);
    InsertedKeys(once, pairs);
    forall key | key in twice
      ensures twice[key] == once[key]
    {
      if key in Names(pairs) {
        InsertedOverrides(once, m, pairs, key);
      } else {
        InsertedKeepsOthers(once, pairs, key);
      }
    }
  }

  /** The key order keeps the old order as a prefix, stays free of
      repetitions, and lists exactly the old names and the inserted ones. */
  lemma {:induction false} InsertionOrderProperties(order: seq<string>, pairs: seq<(string, Json)>)
    requires Distinct(order)
    ensures |order| <= |InsertionOrder(order, pairs)|
    ensures InsertionOrder(order, pairs)[..|order|] == order
    ensures Distinct(InsertionOrder(order, pairs))
    ensures forall name :: name in InsertionOrder(order, pairs) <==> name in order || name in Names(pairs)
    decreases |pairs|
  {
    if |pairs| > 0 {
      var front, name := pairs[..|pairs| - 1], pairs[|pairs| - 1].0;
      InsertionOrderProperties(order, front);
      var before := InsertionOrder(order, front);
      NamesSplit(pairs);
      if name !in before {
        assert (before + [name])[..|order|] == before[..|order|];
      }
    }
  }

  /* ---------------------------------------------------------------------- */
  /* The configuration file                                                 */
  /* ---------------------------------------------------------------------- */

  /** What reading the configuration file produced. */
  datatype PresetSource =
    | Missing            // the file does not exist
    | Unreadable         // opening or JSON-decoding it raised
    | Document(top: Json) // the decoded JSON value

  /** The (name, data) entries the insertion loop iterates over: the members
      of the top-level object. Any other top-level value has no `items`, which
      raises. */
  function Entries(source: PresetSource): (entries: Option<seq<(string, Json)>>)
    ensures entries.Some? <==> source.Document? && source.top.JObj?
  {
    if source.Document? && source.top.JObj? then Some(source.top.fields) else None
  }

  /* ---------------------------------------------------------------------- */
  /* The manager                                                            */
  /* ---------------------------------------------------------------------- */

  class ParameterManager {
    /** The loaded presets, by name. */
    var presets: map<string, Json>
    /** The names of `presets` in the order they were first inserted. */
    var order: seq<string>
    /** The selected preset, if any. */
    var currentPreset: Option<string>

    /** `order` lists each preset name once, and only a loaded preset is ever selected. */
    ghost predicate Valid()
      reads this
    {
      && Distinct(order)
      && (forall name :: name in order <==> name in presets)
      && (currentPreset.Some? ==> currentPreset.value in presets)
    }

    /** A new manager starts with no presets and no selection, then loads the
        configuration file once. */
    constructor(source: PresetSource)
      ensures Valid()
      ensures currentPreset == None
      ensures Entries(source).Some? ==> presets == Inserted(map[], Entries(source).value)
      ensures Entries(source).Some? ==> order == InsertionOrder([], Entries(source).value)
      ensures Entries(source).None? ==> presets == map[] && order == []
    {
      presets := map[];
      order := [];
      currentPreset := None;
      new;
      var loaded := LoadPresets(source);
    }

    /** Inserts every (name, data) entry of the configuration file, overwriting
        presets of the same name and keeping all others. Reports whether at
        least one entry was inserted; when the file is missing, unreadable or
        not an object nothing changes. */
    method LoadPresets(source: PresetSource) returns (loaded: bool)
      requires Valid()
      modifies this
      ensures Valid()
      ensures loaded <==> Entries(source).Some? && |Entries(source).value| > 0
      ensures Entries(source).Some? ==> presets == Inserted(old(presets), Entries(source).value)
      ensures Entries(source).Some? ==> order == InsertionOrder(old(order), Entries(source).value)
      ensures Entries(source).None? ==> presets == old(presets) && order == old(order)
      ensures currentPreset == old(currentPreset)
    {
      if source.Missing? {
        return false;
      }
      var entries := Entries(source);
      if entries.None? {
        return false;
      }
      var presetData := entries.value;
      var loadedCount := 0;
      var i := 0;
      while i < |presetData|
        invariant 0 <= i <= |presetData| && loadedCount == i
        invariant presets == Inserted(old(presets), presetData[..i])
        invariant order == InsertionOrder(old(order), presetData[..i])
        invariant currentPreset == old(currentPreset)
        invariant Valid()
      {
        var (presetName, data) := presetData[i];
        assert presetData[..i + 1][..i] == presetData[..i];
        if presetName !in presets {
          order := order + [presetName];
        }
        presets := presets[presetName := data];
        loadedCount := loadedCount + 1;
        i := i + 1;
      }
      assert presetData[..i] == presetData;
      loaded := loadedCount > 0;
    }

    /** The stored preset of that name, or nothing. */
    function GetPreset(name: string): (preset: Option<Json>)
      reads this
      ensures preset.Some? <==> name in presets
      ensures preset.Some? ==> preset.value == presets[name]
    {
      if name in presets then Some(presets[name]) else None
    }

    /** Selects a loaded preset; an unknown name changes nothing. */
    method SetCurrentPreset(name: string) returns (selected: bool)
      requires Valid()
      modifies this
      ensures Valid()
      ensures selected <==> name in presets
      ensures selected ==> currentPreset == Some(name)
      ensures !selected ==> currentPreset == old(currentPreset)
      ensures presets == old(presets) && order == old(order)
      ensures selected && name != "" ==> GetCurrentParameters() == presets[name]
      ensures selected && name == "" ==> GetCurrentParameters() == EmptyObject
    {
      if name in presets {
        currentPreset := Some(name);
        return true;
      }
      return false;
    }

    /** The selected preset's data; `{}` when nothing is selected or the
        selected name is empty (a false condition), or when it is not loaded. */
    function GetCurrentParameters(): (parameters: Json)
      reads this
      ensures currentPreset.None? || currentPreset.value == "" ==> parameters == EmptyObject
      ensures currentPreset.Some? && currentPreset.value != "" && currentPreset.value in presets
              ==> parameters == presets[currentPreset.value]
    {
      if currentPreset.None? || currentPreset.value == "" then EmptyObject
      else if currentPreset.value in presets then presets[currentPreset.value]
      else EmptyObject
    }

    /** The preset names, in insertion order. */
    function ListAvailablePresets(): (names: seq<string>)
      reads this
      ensures Valid() ==> Distinct(names) && forall name :: name in names <==> name in presets
    {
      order
    }

    /** The three members of a preset summary. */
    static lemma SummaryMembers(name: string, description: Json, parameters: Json)
      ensures var fields := [("name", JStr(name)), ("description", description), ("parameters", parameters)];
        && Names(fields) == {"name", "description", "parameters"}
        && Lookup(fields, "name") == Some(JStr(name))
        && Lookup(fields, "description") == Some(description)
        && Lookup(fields, "parameters") == Some(parameters)
    {
      var fields := [("name", JStr(name)), ("description", description), ("parameters", parameters)];
      assert fields[..2][..1] == [fields[0]] && fields[..2][..1][..0] == [];
      assert Names(fields) == {"name", "description", "parameters"} by {
        NamesSplit(fields);
        NamesSplit(fields[..2]);
        NamesSplit(fields[..1]);
      }
      InsertedLastWins(map[], fields, 0);
      InsertedLastWins(map[], fields, 1);
      InsertedLastWins(map[], fields, 2);
    }

    /** A summary of a preset: its name, its description (default "") and its
        kinetic parameters (default `{}`), under the keys "name",
        "description" and "parameters". An unknown preset or one whose data is
        false as a condition gives `{}`; data that is true but not an object
        has no `get`, which raises. */
    function GetPresetInfo(name: string): (info: Result<Json>)
      reads this
      ensures name !in presets || !Truthy(presets[name]) ==> info == Success(EmptyObject)
      ensures info.Failure? <==> name in presets && Truthy(presets[name]) && !presets[name].JObj?
      ensures name in presets && Truthy(presets[name]) && presets[name].JObj? ==>
        && info.Success? && info.value.JObj?
        && Names(info.value.fields) == {"name", "description", "parameters"}
        && Lookup(info.value.fields, "name") == Some(JStr(name))
        && Lookup(info.value.fields, "description")
           == Some(Get(presets[name].fields, "description", JStr("")))
        && Lookup(info.value.fields, "parameters")
           == Some(Get(presets[name].fields, "kinetic_parameters", EmptyObject))
    {
      var preset := GetPreset(name);
      if preset.None? || !Truthy(preset.value) then Success(EmptyObject)
      else if !preset.value.JObj? then Failure("AttributeError: preset data has no attribute 'get'")
      else
        var fields := preset.value.fields;
        var description := Get(fields, "description", JStr(""));
        var parameters := Get(fields, "kinetic_parameters", EmptyObject);
        SummaryMembers(name, description, parameters);
        Success(JObj([("name", JStr(name)), ("description", description), ("parameters", parameters)]))
    }
  }
}
