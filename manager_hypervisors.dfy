/**
 * The MigrationManager of guts/migration/manager.py registers the
 * hypervisors of the enabled configuration sections: each section's
 * hypervisor is updated when one of its name exists and created otherwise.
 *
 * The hypervisors table is the map from name to the columns stored for
 * it. The fields a section gives go through a Hypervisor object, so only
 * those that are object fields and table columns reach the row. The
 * driver a section names is built only for its credentials, which are a
 * parameter (an error where building the driver or reading them raises).
 */
module HypervisorRegistration {
  import opened PyValues
  import opened Exceptions
  import opened MigrationDrivers
  import Objects
  import Db

  /** The name of a section's hypervisor without a `name` option: `"<host>@<section>"`. */
  function DefaultName(confHost: string, section: string): string
  {
    confHost + "@" + section
  }

  /** The hypervisor name of a section: its `name` option when set, otherwise the default name. */
  function HypervisorName(cfg: Config, confHost: string, section: string): (name: string)
    ensures Truthy(Opt(cfg, "name")) ==> name == Render(Opt(cfg, "name"))
    ensures !Truthy(Opt(cfg, "name")) ==> name == DefaultName(confHost, section)
  {
    if Truthy(Opt(cfg, "name")) then Render(Opt(cfg, "name")) else DefaultName(confHost, section)
  }

  /** Two sections without a `name` option register under different names. */
  lemma DefaultNamesSeparateSections(confHost: string, section1: string, section2: string)
    requires DefaultName(confHost, section1) == DefaultName(confHost, section2)
    ensures section1 == section2
  {
    var prefix := confHost + "@";
    assert section1 == DefaultName(confHost, section1)[|prefix|..];
    assert section2 == DefaultName(confHost, section2)[|prefix|..];
  }

  /** The fields `_load_hypervisor` stores for a section. */
  function HypervisorFields(cfg: Config, name: string, kind: string, registeredHost: string, credentials: string): (fields: Dict)
    ensures fields.Keys == {"name", "driver", "capabilities", "conversion_dir", "exclude", "type", "registered_host", "credentials"}
    ensures fields["name"] == VStr(name) && fields["type"] == VStr(kind)
    ensures fields["registered_host"] == VStr(registeredHost) && fields["credentials"] == VStr(credentials)
    ensures fields["driver"] == Opt(cfg, "source_driver") && fields["capabilities"] == Opt(cfg, "capabilities")
    ensures fields["conversion_dir"] == Opt(cfg, "conversion_dir") && fields["exclude"] == Opt(cfg, "exclude")
  {
    map["name" := VStr(name), "driver" := Opt(cfg, "source_driver"), "capabilities" := Opt(cfg, "capabilities"),
        "conversion_dir" := Opt(cfg, "conversion_dir"), "exclude" := Opt(cfg, "exclude"),
        "type" := VStr(kind), "registered_host" := VStr(registeredHost), "credentials" := VStr(credentials)]
  }

  /**
   * What `update` then `save`, or the keyword constructor then `create`,
   * writes of the given fields: the object keeps only its own fields, and
   * the row only its columns.
   */
  function StoredFields(fields: Dict): Dict
  {
    Db.Stored(Db.Hypervisors, Objects.FieldsIn(Objects.HypervisorObj, fields))
  }

  /** The row keeps exactly the given fields that are object fields and columns, with their values. */
  lemma StoredFieldsKept(fields: Dict)
    ensures var stored := StoredFields(fields);
      && stored.Keys == fields.Keys * Objects.Fields(Objects.HypervisorObj) * Db.Columns(Db.Hypervisors)
      && forall key :: key in stored ==> stored[key] == fields[key]
  {
    var kept := Objects.FieldsIn(Objects.HypervisorObj, fields);
    assert StoredFields(fields) == Db.Stored(Db.Hypervisors, kept);
  }

  /** The section's fields that are Hypervisor fields: all but `exclude` and `registered_host`. */
  lemma RegistrationFieldsOfObject(fields: Dict)
    requires fields.Keys == {"name", "driver", "capabilities", "conversion_dir", "exclude", "type", "registered_host", "credentials"}
    ensures fields.Keys * Objects.Fields(Objects.HypervisorObj) == {"name", "driver", "capabilities", "conversion_dir", "type", "credentials"}
  {
    assert "exclude" !in Objects.Fields(Objects.HypervisorObj);
    assert "registered_host" !in Objects.Fields(Objects.HypervisorObj);
  }

  /** Of those, `conversion_dir` is no column of the hypervisors table. */
  lemma RegistrationFieldsOfRow()
    ensures {"name", "driver", "capabilities", "conversion_dir", "type", "credentials"} * Db.Columns(Db.Hypervisors)
      == {"name", "driver", "capabilities", "type", "credentials"}
  {
    assert "conversion_dir" !in Db.Columns(Db.Hypervisors);
  }

  /**
   * A section registers its name, driver, capabilities, type and
   * credentials; its conversion directory, exclude list and registering
   * host never reach the table.
   */
  lemma RegistrationStores(cfg: Config, name: string, kind: string, registeredHost: string, credentials: string)
    ensures var stored := StoredFields(HypervisorFields(cfg, name, kind, registeredHost, credentials));
      && stored.Keys == {"name", "driver", "capabilities", "type", "credentials"}
      && stored["name"] == VStr(name) && stored["type"] == VStr(kind) && stored["credentials"] == VStr(credentials)
      && stored["driver"] == Opt(cfg, "source_driver") && stored["capabilities"] == Opt(cfg, "capabilities")
  {
    var fields := HypervisorFields(cfg, name, kind, registeredHost, credentials);
    StoredFieldsKept(fields);
    RegistrationFieldsOfObject(fields);
    RegistrationFieldsOfRow();
  }

  /** Get-by-name, then update and save the record found, or create one from the fields. */
  function Upsert(hypervisors: map<string, Dict>, name: string, fields: Dict): map<string, Dict>
  {
    hypervisors[name := if name in hypervisors then hypervisors[name] + fields else fields]
  }

  /**
   * An upsert adds at most the one name, leaves every other hypervisor as
   * it was, and stores every given field under that name, keeping the
   * fields it does not give.
   */
  lemma UpsertChangesOneName(hypervisors: map<string, Dict>, name: string, fields: Dict)
    ensures var after := Upsert(hypervisors, name, fields);
      && after.Keys == hypervisors.Keys + {name}
      && (forall other :: other in hypervisors && other != name ==> after[other] == hypervisors[other])
      && (forall key :: key in fields ==> key in after[name] && after[name][key] == fields[key])
      && (name in hypervisors ==> forall key :: key in hypervisors[name] && key !in fields ==> after[name][key] == hypervisors[name][key])
  {
  }

  /** Loading the same section twice leaves the table as one load does. */
  lemma UpsertIdempotent(hypervisors: map<string, Dict>, name: string, fields: Dict)
    ensures Upsert(Upsert(hypervisors, name, fields), name, fields) == Upsert(hypervisors, name, fields)
  {
    var once := Upsert(hypervisors, name, fields);
    assert once[name] + fields == once[name];
  }

  /** One section to load and the type its hypervisor is registered with. */
  datatype Section = Section(name: string, kind: string)

  /** The sections `__init__` loads: the source sections then the destination sections, and none without a source. */
  function SectionsToLoad(sources: seq<string>, destinations: seq<string>): (sections: seq<Section>)
    ensures sources == [] ==> sections == []
    ensures sources != [] ==> |sections| == |sources| + |destinations|
    ensures sources != [] ==> forall i :: 0 <= i < |sources| ==> sections[i] == Section(sources[i], "source")
    ensures sources != [] ==> forall i :: 0 <= i < |destinations| ==>
      sections[|sources| + i] == Section(destinations[i], "destination")
  {
    if sources == [] then []
    else (seq(|sources|, i requires 0 <= i < |sources| => Section(sources[i], "source"))
          + seq(|destinations|, i requires 0 <= i < |destinations| => Section(destinations[i], "destination")))
  }

  class MigrationManager {
    /** `self.host`, stored as `registered_host`. */
    const host: string
    /** `CONF.host`, the host part of default names. */
    const confHost: string
    var hypervisors: map<string, Dict>

    constructor(host: string, confHost: string, hypervisors: map<string, Dict>)
      ensures this.host == host && this.confHost == confHost && this.hypervisors == hypervisors
    {
      this.host := host;
      this.confHost := confHost;
      this.hypervisors := hypervisors;
    }

    /** The table after loading `sections` in order, or the first error. */
    function Loaded(table: map<string, Dict>, sections: seq<Section>, configs: string -> Config,
                    credentials: string -> Result<string>): Result<map<string, Dict>>
      decreases |sections|
    {
      if sections == [] then Ok(table)
      else match Loaded(table, sections[..|sections| - 1], configs, credentials)
        case Err(e) => Err(e)
        case Ok(before) =>
          var section := sections[|sections| - 1];
          var cfg := configs(section.name);
          match credentials(section.name)
          case Err(e) => Err(e)
          case Ok(text) =>
            var name := HypervisorName(cfg, confHost, section.name);
            Ok(Upsert(before, name, StoredFields(HypervisorFields(cfg, name, section.kind, host, text))))
    }

    /**
     * `_load_hypervisor`: the section's fields, then its driver's
     * credentials (whose failure leaves the table untouched), then the upsert.
     */
    method LoadHypervisor(section: string, kind: string, cfg: Config, credentials: Result<string>) returns (out: Outcome)
      modifies this`hypervisors
      ensures credentials.Err? ==> out == Fail(credentials.error) && hypervisors == old(hypervisors)
      ensures credentials.Ok? ==>
        var name := HypervisorName(cfg, confHost, section);
        out.Pass? && hypervisors == Upsert(old(hypervisors), name, StoredFields(HypervisorFields(cfg, name, kind, host, credentials.value)))
    {
      var name := HypervisorName(cfg, confHost, section);
      if credentials.Err? {
        return Fail(credentials.error);
      }
      var fields := HypervisorFields(cfg, name, kind, host, credentials.value);
      hypervisors := Upsert(hypervisors, name, StoredFields(fields));
      out := Pass;
    }

    /**
     * The loading loops of `__init__`: every enabled source section, then
     * every enabled destination section, but the destinations only when
     * some source is enabled; the first error propagates.
     */
    method LoadAll(sources: seq<string>, destinations: seq<string>, configs: string -> Config,
                   credentials: string -> Result<string>) returns (out: Outcome)
      modifies this`hypervisors
      ensures var loaded := Loaded(old(hypervisors), SectionsToLoad(sources, destinations), configs, credentials);
        && (loaded.Ok? ==> out.Pass? && hypervisors == loaded.value)
        && (loaded.Err? ==> out == Fail(loaded.error))
    {
      var sections := SectionsToLoad(sources, destinations);
      var i := 0;
      while i < |sections|
        invariant 0 <= i <= |sections|
        invariant Loaded(old(hypervisors), sections[..i], configs, credentials) == Ok(hypervisors)
      {
        LoadedStep(old(hypervisors), sections, i, configs, credentials, hypervisors);
        out := LoadHypervisor(sections[i].name, sections[i].kind, configs(sections[i].name), credentials(sections[i].name));
        if out.Fail? {
          LoadedStops(old(hypervisors), sections, i + 1, configs, credentials);
          return;
        }
        i := i + 1;
      }
      assert sections[..i] == sections;
      out := Pass;
    }

    /** Loading one more section: its credentials' error, or the upsert of its fields. */
    lemma LoadedStep(table: map<string, Dict>, sections: seq<Section>, i: nat, configs: string -> Config,
                     credentials: string -> Result<string>, current: map<string, Dict>)
      requires i < |sections| && Loaded(table, sections[..i], configs, credentials) == Ok(current)
      ensures var section := sections[i];
        var cfg := configs(section.name);
        var name := HypervisorName(cfg, confHost, section.name);
        Loaded(table, sections[..i + 1], configs, credentials) ==
          if credentials(section.name).Err? then Err(credentials(section.name).error)
          else Ok(Upsert(current, name, StoredFields(HypervisorFields(cfg, name, section.kind, host, credentials(section.name).value))))
    {
      assert sections[..i + 1][..i] == sections[..i] && sections[..i + 1][i] == sections[i];
    }

    /** Once a section fails to load, the later sections are not loaded. */
    lemma {:induction false} LoadedStops(table: map<string, Dict>, sections: seq<Section>, n: nat,
                                         configs: string -> Config, credentials: string -> Result<string>)
      requires n <= |sections|
      requires Loaded(table, sections[..n], configs, credentials).Err?
      ensures Loaded(table, sections, configs, credentials) == Loaded(table, sections[..n], configs, credentials)
      decreases |sections|
    {
      if n < |sections| {
        var init := sections[..|sections| - 1];
        assert init[..n] == sections[..n];
        LoadedStops(table, init, n, configs, credentials);
      } else {
        assert sections[..n] == sections;
      }
    }

    /** The hypervisor name a section registers under. */
    function SectionName(section: Section, configs: string -> Config): string
    {
      HypervisorName(configs(section.name), confHost, section.name)
    }

    /** Whether one of `sections` registers under `name`. */
    predicate Names(sections: seq<Section>, configs: string -> Config, name: string)
    {
      exists i :: 0 <= i < |sections| && name == SectionName(sections[i], configs)
    }

    /** The sections before the last name what they name, plus the last one's name. */
    lemma NamesOfSnoc(sections: seq<Section>, configs: string -> Config, name: string)
      requires sections != []
      ensures Names(sections, configs, name) <==>
        Names(sections[..|sections| - 1], configs, name) || name == SectionName(sections[|sections| - 1], configs)
    {
      var init := sections[..|sections| - 1];
      if Names(sections, configs, name) {
        var i :| 0 <= i < |sections| && name == SectionName(sections[i], configs);
        if i < |init| {
          assert init[i] == sections[i];
        }
      }
      if Names(init, configs, name) {
        var i :| 0 <= i < |init| && name == SectionName(init[i], configs);
        assert init[i] == sections[i];
      }
    }

    /**
     * A complete load registers exactly the loaded sections' names besides
     * the hypervisors already there, and keeps every hypervisor of another
     * name as it was.
     */
    lemma {:induction false} LoadedRegisters(table: map<string, Dict>, sections: seq<Section>,
                                             configs: string -> Config, credentials: string -> Result<string>)
      requires Loaded(table, sections, configs, credentials).Ok?
      ensures var after := Loaded(table, sections, configs, credentials).value;
        && (forall name :: name in after <==> name in table || Names(sections, configs, name))
        && (forall name :: name in table && !Names(sections, configs, name) ==> after[name] == table[name])
      decreases |sections|
    {
      if sections != [] {
        var init := sections[..|sections| - 1];
        var last := sections[|sections| - 1];
        LoadedRegisters(table, init, configs, credentials);
        var before := Loaded(table, init, configs, credentials).value;
        var lastName := SectionName(last, configs);
        UpsertChangesOneName(before, lastName, StoredFields(HypervisorFields(configs(last.name), lastName, last.kind, host, credentials(last.name).value)));
        forall name {
          NamesOfSnoc(sections, configs, name);
        }
      }
    }
  }
}
