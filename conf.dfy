/** The schema document of src/claws/conf.py: `TomlConf` holds the TOML
    document in memory, and `add_field` records one field under the
    document's `fields` table. Loading and writing the file are outside this
    model; the loaded document is a constructor argument. */
module Conf {
  import opened Exceptions

  /** `CONF_TABLE_NAME`, which the code declares and does not use. */
  const ConfTableName: string := "conf-options"

  /** The scalars a field record holds. */
  datatype TomlValue = Str(s: string) | Bool(b: bool)

  /** A TOML table of scalars, such as one field record. */
  type Table = map<string, TomlValue>

  /** The document: top-level key to a table of named tables. */
  type Document = map<string, map<string, Table>>

  /** The arguments of one `add_field` call, apart from its location. */
  datatype FieldSpec = FieldSpec(name: string, fieldType: string, displayName: string,
                                 defaultValue: string, help: string, removeIfEmpty: bool)

  /** The six keys of a field record. */
  const FieldKeys: set<string> := {"name", "type", "display_name", "default", "help", "remove_if_empty"}

  /** The table `add_field` builds for a field. */
  function FieldTable(f: FieldSpec): (t: Table)
    ensures t.Keys == FieldKeys
  {
    map["name" := Str(f.name), "type" := Str(f.fieldType), "display_name" := Str(f.displayName),
        "default" := Str(f.defaultValue), "help" := Str(f.help), "remove_if_empty" := Bool(f.removeIfEmpty)]
  }

  /** Reads a field record back: exactly the six keys, five strings and a
      boolean. It succeeds exactly on the tables `FieldTable` builds, and
      gives back the arguments such a table was built from. */
  function ReadFieldTable(t: Table): (r: Option<FieldSpec>)
    ensures r.Some? ==> FieldTable(r.value) == t
    ensures r.None? ==> forall f :: FieldTable(f) != t
  {
    if t.Keys == FieldKeys && t["name"].Str? && t["type"].Str? && t["display_name"].Str?
       && t["default"].Str? && t["help"].Str? && t["remove_if_empty"].Bool?
    then Some(FieldSpec(t["name"].s, t["type"].s, t["display_name"].s, t["default"].s,
                        t["help"].s, t["remove_if_empty"].b))
    else None
  }

  /** A field record stores each argument under its own key. */
  lemma FieldTableRoundTrip(f: FieldSpec)
    ensures ReadFieldTable(FieldTable(f)) == Some(f)
  {
  }

  /** The document after `add_field(…, location, …)`: the `fields` table
      (created when absent) gains the field's record at `location`; every
      other location and every other top-level key is unchanged. */
  function WithField(d: Document, location: string, f: FieldSpec): (r: Document)
    requires "fields" in d ==> location !in d["fields"]
    ensures r.Keys == d.Keys + {"fields"}
    ensures forall k :: k in d && k != "fields" ==> r[k] == d[k]
    ensures "fields" !in d ==> r["fields"] == map[location := FieldTable(f)]
    ensures "fields" in d ==> r["fields"].Keys == d["fields"].Keys + {location}
    ensures "fields" in d ==> forall l :: l in d["fields"] ==> r["fields"][l] == d["fields"][l]
    ensures location in r["fields"] && ReadFieldTable(r["fields"][location]) == Some(f)
  {
    FieldTableRoundTrip(f);
    var root := if "fields" in d then d["fields"] else map[];
    d["fields" := root[location := FieldTable(f)]]
  }

  /** `TomlConf`: the path the document belongs to and the document itself. */
  class TomlConf {
    const path: string
    var doc: Document

    /** `TomlConf(path)`: `existing` is what `_load_file` loaded from `path`,
        or `None` when there is no such file and the document starts empty. */
    constructor (path: string, existing: Option<Document>)
      ensures this.path == path
      ensures doc == if existing.Some? then existing.value else map[]
    {
      this.path := path;
      doc := if existing.Some? then existing.value else map[];
    }

    /** `add_conf_table`: does nothing. */
    method AddConfTable()
      ensures doc == old(doc)
    {
    }

    /** `add_structure`: does nothing. */
    method AddStructure()
      ensures doc == old(doc)
    {
    }

    /** `add_field`: builds the record key by key and puts it under
        `fields[location]`, creating `fields` when the document has none.
        Only the in-memory document changes; nothing is written. */
    method AddField(name: string, fieldType: string, location: string, displayName: string := "",
                    defaultValue: string := "", help: string := "", removeIfEmpty: bool := false)
      requires "fields" in doc ==> location !in doc["fields"]
      modifies this`doc
      ensures doc == WithField(old(doc), location,
                               FieldSpec(name, fieldType, displayName, defaultValue, help, removeIfEmpty))
    {
      var root: map<string, Table> := if "fields" in doc then doc["fields"] else map[];
      var table: Table := map[];
      table := table["name" := Str(name)];
      table := table["type" := Str(fieldType)];
      table := table["display_name" := Str(displayName)];
      table := table["default" := Str(defaultValue)];
      table := table["help" := Str(help)];
      table := table["remove_if_empty" := Bool(removeIfEmpty)];
      root := root[location := table];
      // An existing `fields` table is appended to in place; a new one is
      // appended to the document. Either way `fields` ends up as `root`.
      doc := doc["fields" := root];
      assert table == FieldTable(FieldSpec(name, fieldType, displayName, defaultValue, help, removeIfEmpty));
    }
  }

  /** `add_field` called with only name, type and location stores an empty
      display name, default and help, and `remove_if_empty = false`. */
  method AddFieldWithDefaults(existing: Option<Document>, name: string, fieldType: string, location: string)
    returns (record: Table)
    requires existing.Some? && "fields" in existing.value ==> location !in existing.value["fields"]
    ensures ReadFieldTable(record) == Some(FieldSpec(name, fieldType, "", "", "", false))
  {
    var conf := new TomlConf("conf.toml", existing);
    conf.AddField(name, fieldType, location);
    record := conf.doc["fields"][location];
  }
}
