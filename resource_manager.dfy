/**
 * The resource manager: a process-wide table of UI and prompt texts per
 * language, with a current language and an English fallback.
 */
module Resources {
  import opened PyText
  import opened Narrative

  /** `resources.json`: language code to key to text. */
  type Table = map<string, map<string, string>>

  const English := "en"
  const ResourcesMissing := "resources.json not found. Please ensure it exists in the project root."

  function UnsupportedLanguage(language: string): string {
    "Language '" + language + "' not supported"
  }

  class ResourceManager {
    var resources: Table
    var currentLanguage: string

    /** A new object starts from the class attributes: no resources, English. */
    constructor ()
      ensures resources == map[] && currentLanguage == English
    {
      resources := map[];
      currentLanguage := English;
    }

    /** `load_resources`: `file` is the parsed `resources.json`, `None` when it does not exist. */
    method LoadResources(file: Option<Table>, language: string) returns (r: Result<()>)
      modifies this
      ensures file.None? ==> r == Err(FileNotFoundError(ResourcesMissing))
                             && resources == old(resources) && currentLanguage == old(currentLanguage)
      ensures file.Some? ==> r == Ok(()) && resources == file.value && currentLanguage == language
    {
      if file.None? {
        return Err(FileNotFoundError(ResourcesMissing));
      }
      resources := file.value;
      currentLanguage := language;
      r := Ok(());
    }

    /** `__init__`: the file is read only while the table is still empty. */
    method Init(file: Option<Table>) returns (r: Result<()>)
      modifies this
      ensures old(resources) != map[] ==> r == Ok(()) && resources == old(resources) && currentLanguage == old(currentLanguage)
      ensures old(resources) == map[] && file.Some? ==> r == Ok(()) && resources == file.value && currentLanguage == English
      ensures old(resources) == map[] && file.None? ==>
                r == Err(FileNotFoundError(ResourcesMissing)) && resources == old(resources) && currentLanguage == old(currentLanguage)
    {
      if resources == map[] {
        r := LoadResources(file, English);
      } else {
        r := Ok(());
      }
    }

    /** `get_text`: the current language, then English, then the default, else a `KeyError`. */
    function GetText(key: string, default: Option<string>): (r: Result<string>)
      reads this
      ensures r.Err? ==> r.error == KeyError(MissingResourceMessage(key))
    {
      if currentLanguage in resources && key in resources[currentLanguage] then Ok(resources[currentLanguage][key])
      else if currentLanguage != English && English in resources && key in resources[English] then Ok(resources[English][key])
      else if default.Some? then Ok(default.value)
      else Err(KeyError(MissingResourceMessage(key)))
    }

    /** `set_language`: only a language of the table is accepted. */
    method SetLanguage(language: string) returns (r: Result<()>)
      modifies this
      ensures r.Ok? <==> language in old(AvailableLanguages())
      ensures r.Err? ==> r.error == ValueError(UnsupportedLanguage(language))
      ensures CurrentLanguage() == if r.Ok? then language else old(CurrentLanguage())
      ensures resources == old(resources)
    {
      if language !in resources {
        return Err(ValueError(UnsupportedLanguage(language)));
      }
      currentLanguage := language;
      r := Ok(());
    }

    /** `get_current_language`. */
    function CurrentLanguage(): string
      reads this
    {
      currentLanguage
    }

    /** `get_available_languages`, without the table's key order. */
    function AvailableLanguages(): set<string>
      reads this
    {
      resources.Keys
    }

    // -------------------------------------------------------------------
    // Properties of the lookups

    /** A lookup fails exactly when no default is given and neither the current language nor English has the key. */
    lemma GetTextFailsIff(key: string, default: Option<string>)
      ensures GetText(key, default).Err? <==>
                && default.None?
                && (currentLanguage !in resources || key !in resources[currentLanguage])
                && (English !in resources || key !in resources[English])
    {
    }

    /** Every text found comes from the current language, else from English, else it is the default. */
    lemma GetTextSource(key: string, default: Option<string>)
      requires GetText(key, default).Ok?
      ensures var t := GetText(key, default).value;
        if currentLanguage in resources && key in resources[currentLanguage] then t == resources[currentLanguage][key]
        else if English in resources && key in resources[English] then t == resources[English][key]
        else default == Some(t)
    {
    }

    /** A default never overrides a stored text: once the key is found, every default gives the same answer. */
    lemma DefaultOnlyAsLastResort(key: string, d1: Option<string>, d2: Option<string>)
      requires GetText(key, None).Ok?
      ensures GetText(key, d1) == GetText(key, d2) == GetText(key, None)
    {
    }
  }

  /** The class attribute `_instance`. */
  class Registry {
    var instance: Option<ResourceManager>

    constructor ()
      ensures instance == None
    {
      instance := None;
    }

    /** `__new__`: the first call creates the instance, every later one returns it. */
    method New() returns (m: ResourceManager)
      modifies this
      ensures old(instance).Some? ==> m == old(instance).value
      ensures old(instance).None? ==> fresh(m) && m.resources == map[] && m.currentLanguage == English
      ensures instance == Some(m)
    {
      if instance.None? {
        var created := new ResourceManager();
        instance := Some(created);
      }
      m := instance.value;
    }
  }

  /**
   * `ResourceManager()`: `__new__`, then `__init__` on the shared instance.
   * The file is loaded on the first call, and again on any later call while
   * the shared table is still empty; a loaded table is never reloaded.
   */
  method Obtain(registry: Registry, file: Option<Table>) returns (m: ResourceManager, r: Result<()>)
    modifies registry, if registry.instance.Some? then {registry.instance.value} else {}
    ensures registry.instance == Some(m)
    ensures old(registry.instance).Some? ==> m == old(registry.instance).value
    ensures old(registry.instance).Some? && old(registry.instance.value.resources) != map[] ==>
              r == Ok(()) && m.resources == old(registry.instance.value.resources)
              && m.currentLanguage == old(registry.instance.value.currentLanguage)
    ensures old(registry.instance).None? ==> fresh(m)
    ensures (old(registry.instance).None? || old(registry.instance.value.resources) == map[]) && file.Some? ==>
              r == Ok(()) && m.resources == file.value && m.currentLanguage == English
    ensures old(registry.instance).None? && file.None? ==>
              r == Err(FileNotFoundError(ResourcesMissing)) && m.resources == map[] && m.currentLanguage == English
    ensures old(registry.instance).Some? && old(registry.instance.value.resources) == map[] && file.None? ==>
              r == Err(FileNotFoundError(ResourcesMissing)) && m.resources == map[]
              && m.currentLanguage == old(registry.instance.value.currentLanguage)
  {
    m := registry.New();
    r := m.Init(file);
  }
}
