/**
 * TemplateFieldsLoader: the configuration of the editable, non-test
 * placeholders, grouped in sections. The file is read on the first request
 * and the parsed configuration is cached; each request after that answers
 * from the cache.
 *
 * Reading the file is a parameter of each request: `onDisk` is what
 * `json.load` would return if the file were read now.
 */
module FieldsLoader {
  import opened Values

  /** A field entry: its "name", if it has one, and its other keys. */
  datatype Field = Field(name: Option<string>, attrs: map<string, Json>)

  /** A section: its "fields" list, if it has one, and its other keys. */
  datatype Section = Section(fields: Option<seq<Field>>, attrs: map<string, Json>)

  /** The configuration: its "sections" list, if it has one. */
  datatype Config = Config(sections: Option<seq<Section>>)

  /** `config.get("sections", [])` */
  function SectionsOf(config: Config): seq<Section> {
    if config.sections.Some? then config.sections.value else []
  }

  /** `section.get("fields", [])` */
  function FieldsIn(section: Section): seq<Field> {
    if section.fields.Some? then section.fields.value else []
  }

  /** The fields of the sections, section by section, in order. */
  function AllEntries(sections: seq<Section>): seq<Field>
    decreases |sections|
  {
    if sections == [] then []
    else AllEntries(sections[..|sections| - 1]) + FieldsIn(sections[|sections| - 1])
  }

  predicate AllNamed(fields: seq<Field>) {
    forall i :: 0 <= i < |fields| ==> fields[i].name.Some?
  }

  /** `fields[field["name"]] = field` for each field in order. */
  function Named(fields: seq<Field>): map<string, Field>
    requires AllNamed(fields)
    decreases |fields|
  {
    if fields == [] then map[]
    else
      var f := fields[|fields| - 1];
      Named(fields[..|fields| - 1])[f.name.value := f]
  }

  /** `get_all_fields()` on a configuration; a field without a name raises KeyError. */
  function AllFields(config: Config): Result<map<string, Field>> {
    var fields := AllEntries(SectionsOf(config));
    if AllNamed(fields) then Ok(Named(fields)) else Err("KeyError: 'name'")
  }

  /** The configuration a request works on: the cached one, or the file read now. */
  function Current(cache: Option<Config>, onDisk: Config): Config {
    if cache.Some? then cache.value else onDisk
  }

  class TemplateFieldsLoader {
    var cache: Option<Config>

    constructor ()
      ensures cache == None
    {
      cache := None;
    }

    /** `load_config()`: the file is read only while nothing is cached. */
    method LoadConfig(onDisk: Config) returns (config: Config)
      modifies this
      ensures config == Current(old(cache), onDisk)
      ensures cache == Some(config)
    {
      if cache.None? {
        cache := Some(onDisk);
      }
      config := cache.value;
    }

    /** `get_all_fields()` */
    method GetAllFields(onDisk: Config) returns (fields: Result<map<string, Field>>)
      modifies this
      ensures cache == Some(Current(old(cache), onDisk))
      ensures fields == AllFields(Current(old(cache), onDisk))
    {
      var config := LoadConfig(onDisk);
      fields := CollectFields(SectionsOf(config));
    }

    /** `iter_sections()`: the sections in configuration order; none without "sections". */
    method IterSections(onDisk: Config) returns (sections: seq<Section>)
      modifies this
      ensures cache == Some(Current(old(cache), onDisk))
      ensures sections == SectionsOf(Current(old(cache), onDisk))
    {
      var config := LoadConfig(onDisk);
      sections := SectionsOf(config);
    }
  }

  /** The nested loops of `get_all_fields`. */
  method CollectFields(sections: seq<Section>) returns (fields: Result<map<string, Field>>)
    ensures fields == AllFields(Config(Some(sections)))
  {
    var found: map<string, Field> := map[];
    var s := 0;
    while s < |sections|
      invariant 0 <= s <= |sections|
      invariant AllNamed(AllEntries(sections[..s]))
      invariant found == Named(AllEntries(sections[..s]))
    {
      var entries := FieldsIn(sections[s]);
      ghost var before := AllEntries(sections[..s]);
      assert before + entries[..0] == before;
      var j := 0;
      while j < |entries|
        invariant 0 <= j <= |entries|
        invariant AllNamed(before + entries[..j])
        invariant found == Named(before + entries[..j])
      {
        var field := entries[j];
        if field.name.None? {
          UnnamedField(sections, s, j);
          return Err("KeyError: 'name'");
        }
        found := found[field.name.value := field];
        NamedStep(before, entries, j);
        j := j + 1;
      }
      assert entries[..j] == entries;
      AllEntriesStep(sections, s);
      s := s + 1;
    }
    assert sections[..s] == sections;
    fields := Ok(found);
  }

  lemma {:induction false} AllEntriesStep(sections: seq<Section>, s: nat)
    requires s < |sections|
    ensures AllEntries(sections[..s + 1]) == AllEntries(sections[..s]) + FieldsIn(sections[s])
  {
    assert sections[..s + 1][..s] == sections[..s];
  }

  lemma {:induction false} NamedStep(before: seq<Field>, entries: seq<Field>, j: nat)
    requires j < |entries| && AllNamed(before + entries[..j]) && entries[j].name.Some?
    ensures AllNamed(before + entries[..j + 1])
    ensures Named(before + entries[..j + 1]) == Named(before + entries[..j])[entries[j].name.value := entries[j]]
  {
    var fs := before + entries[..j + 1];
    assert fs[..|fs| - 1] == before + entries[..j];
    assert fs[|fs| - 1] == entries[j];
  }

  /** A field without a name in section s makes the whole configuration unnamed. */
  lemma {:induction false} UnnamedField(sections: seq<Section>, s: nat, j: nat)
    requires s < |sections| && j < |FieldsIn(sections[s])| && FieldsIn(sections[s])[j].name.None?
    ensures !AllNamed(AllEntries(sections))
  {
    AllEntriesContain(sections, s, j);
  }

  /** Field j of section s is among the entries, after the fields of the sections before it. */
  lemma {:induction false} AllEntriesContain(sections: seq<Section>, s: nat, j: nat)
    requires s < |sections| && j < |FieldsIn(sections[s])|
    ensures var all := AllEntries(sections);
      |AllEntries(sections[..s])| + j < |all| && all[|AllEntries(sections[..s])| + j] == FieldsIn(sections[s])[j]
    decreases |sections|
  {
    var last := |sections| - 1;
    if s == last {
      assert sections[..last] == sections[..s];
    } else {
      AllEntriesContain(sections[..last], s, j);
      assert sections[..last][..s] == sections[..s];
    }
  }

  /**
   * Every field name of the configuration has an entry, holding the last
   * field with that name; no other name has one.
   */
  lemma {:induction false} NamedLookup(fields: seq<Field>, n: string)
    requires AllNamed(fields)
    ensures n in Named(fields) <==> exists i :: 0 <= i < |fields| && fields[i].name == Some(n)
    ensures n in Named(fields) ==> exists i :: (0 <= i < |fields| && Named(fields)[n] == fields[i]
      && fields[i].name == Some(n) && forall j :: i < j < |fields| ==> fields[j].name != Some(n))
  {
    if n in Named(fields) {
      var i := NamedSource(fields, n);
    }
    if exists i :: 0 <= i < |fields| && fields[i].name == Some(n) {
      var i :| 0 <= i < |fields| && fields[i].name == Some(n);
      NamedHas(fields, i, n);
    }
  }

  /** The entry under a name is the last field with that name. */
  lemma {:induction false} NamedSource(fields: seq<Field>, n: string) returns (i: nat)
    requires AllNamed(fields) && n in Named(fields)
    ensures i < |fields| && Named(fields)[n] == fields[i] && fields[i].name == Some(n)
    ensures forall j :: i < j < |fields| ==> fields[j].name != Some(n)
    decreases |fields|
  {
    var last := |fields| - 1;
    if fields[last].name == Some(n) {
      i := last;
    } else {
      var init := fields[..last];
      assert AllNamed(init) by {
        forall j | 0 <= j < |init| ensures init[j].name.Some? {
          assert init[j] == fields[j];
        }
      }
      i := NamedSource(init, n);
      assert init[i] == fields[i];
      forall j | i < j < |fields| ensures fields[j].name != Some(n) {
        if j < last {
          assert init[j] == fields[j];
        }
      }
    }
  }

  /** A name some field carries has an entry. */
  lemma {:induction false} NamedHas(fields: seq<Field>, i: nat, n: string)
    requires AllNamed(fields) && i < |fields| && fields[i].name == Some(n)
    ensures n in Named(fields)
    decreases |fields|
  {
    var last := |fields| - 1;
    if i < last {
      var init := fields[..last];
      assert init[i] == fields[i];
      assert AllNamed(init) by {
        forall j | 0 <= j < |init| ensures init[j].name.Some? {
          assert init[j] == fields[j];
        }
      }
      NamedHas(init, i, n);
    }
  }

  /** A configuration without "sections" has no fields and no sections. */
  lemma {:induction false} NoSectionsNoFields(config: Config)
    requires config.sections.None?
    ensures AllFields(config) == Ok(map[]) && SectionsOf(config) == []
  {
  }

  /** Once a configuration is cached, every later request works on it, whatever the file holds then. */
  lemma {:induction false} CacheIsKept(cache: Option<Config>, first: Config, later: Config)
    ensures Current(Some(Current(cache, first)), later) == Current(cache, first)
  {
  }
}
