/** The Embeddable record: a dashboard's provider id, its name, and a JSON
    configuration with string keys. */
module EmbeddableModel {
  import opened RubyValues

  /** `configuration[key.to_s]`: keys are normalised to strings. */
  function ConfigValueIn(configuration: map<string, Value>, key: Value): (v: Value)
    ensures ToS(key) !in configuration ==> v == Nil
  {
    if ToS(key) in configuration then configuration[ToS(key)] else Nil
  }

  /** `configuration.merge(key.to_s => value)`. */
  function WithConfigValue(configuration: map<string, Value>, key: Value, value: Value): (r: map<string, Value>)
    ensures r.Keys == configuration.Keys + {ToS(key)}
    ensures forall k :: k in configuration && k != ToS(key) ==> r[k] == configuration[k]
  {
    configuration + map[ToS(key) := value]
  }

  /** Reading a key after setting it gives the value set. */
  lemma GetAfterSet(configuration: map<string, Value>, key: Value, value: Value)
    ensures ConfigValueIn(WithConfigValue(configuration, key, value), key) == value
  {
  }

  /** Setting a key leaves every key with a different string form as it was. */
  lemma SetLeavesOtherKeys(configuration: map<string, Value>, key: Value, value: Value, other: Value)
    requires ToS(other) != ToS(key)
    ensures ConfigValueIn(WithConfigValue(configuration, key, value), other) == ConfigValueIn(configuration, other)
  {
  }

  /** A symbol key and the string of the same name address the same entry,
      for reading and for writing. */
  lemma SymbolAndStringKeysAgree(configuration: map<string, Value>, name: string, value: Value)
    ensures ConfigValueIn(configuration, Symbol(name)) == ConfigValueIn(configuration, Text(name))
    ensures WithConfigValue(configuration, Symbol(name), value) == WithConfigValue(configuration, Text(name), value)
  {
  }

  /** Setting a key again overwrites it: only the last value counts, so setting
      the same pair twice is setting it once. */
  lemma SetOverwrites(configuration: map<string, Value>, key: Value, first: Value, second: Value)
    ensures WithConfigValue(WithConfigValue(configuration, key, first), key, second)
         == WithConfigValue(configuration, key, second)
    ensures WithConfigValue(WithConfigValue(configuration, key, second), key, second)
         == WithConfigValue(configuration, key, second)
  {
  }

  class Embeddable {
    var embeddableId: Value
    var name: Value
    var configuration: map<string, Value>

    /** A new record; the configuration column defaults to `{}`. */
    constructor (embeddableId: Value, name: Value)
      ensures this.embeddableId == embeddableId && this.name == name && configuration == map[]
    {
      this.embeddableId := embeddableId;
      this.name := name;
      configuration := map[];
    }

    /** The presence validations: `embeddable_id` and `name` are not blank.
        A valid record has both columns set, and an empty string fails just as
        a missing value does. */
    predicate PassesPresenceValidation(): (ok: bool)
      reads this
      ensures ok ==> embeddableId != Nil && name != Nil
      ensures embeddableId == Text("") || name == Text("") ==> !ok
      ensures embeddableId == Bool(false) || name == Bool(false) ==> !ok
      ensures embeddableId.Text? && BlankText(embeddableId.s) ==> !ok
      ensures name.Text? && BlankText(name.s) ==> !ok
      ensures embeddableId.Text? && !BlankText(embeddableId.s) && name.Text? && !BlankText(name.s) ==> ok
    {
      Present(embeddableId) && Present(name)
    }

    /** `config_value`: the stored value under the key's string form, `nil`
        when there is none. */
    function ConfigValue(key: Value): (v: Value)
      reads this
      ensures ToS(key) in configuration ==> v == configuration[ToS(key)]
      ensures ToS(key) !in configuration ==> v == Nil
    {
      ConfigValueIn(configuration, key)
    }

    /** `set_config_value`: the configuration is replaced by the merged map. */
    method SetConfigValue(key: Value, value: Value)
      modifies this
      ensures configuration == WithConfigValue(old(configuration), key, value)
      ensures ConfigValue(key) == value
      ensures forall other :: ToS(other) != ToS(key) ==> ConfigValue(other) == old(ConfigValue(other))
      ensures embeddableId == old(embeddableId) && name == old(name)
    {
      configuration := WithConfigValue(configuration, key, value);
      GetAfterSet(old(configuration), key, value);
      forall other | ToS(other) != ToS(key)
        ensures ConfigValue(other) == old(ConfigValue(other))
      {
        SetLeavesOtherKeys(old(configuration), key, value, other);
      }
    }

    /** `to_param`: the record is addressed by its provider id, which a valid
        record always has. */
    function ToParam(): (p: Value)
      reads this
      ensures p == embeddableId
      ensures PassesPresenceValidation() ==> Present(p)
    {
      embeddableId
    }
  }
}
