/**
 * ConfigManager: the two database connections of the backend, kept in `config.ini`
 * (sections Producao and Gescom). The file system is the manager's `file` field; the `ini`
 * package's parse and stringify are the `parse` / `stringify` functions it is built with.
 */
module Config {
  import opened Wrappers

  /** The Producao section (the production database). */
  datatype Producao = Producao(bdServidor: string, bdPath: string, bdUsername: string, bdPassword: string)

  /** The Gescom section (the commercial database). */
  datatype Gescom = Gescom(bd2Servidor: string, bd2Path: string, bd2Username: string, bd2Password: string)

  datatype AppConfig = AppConfig(producao: Producao, gescom: Gescom)

  /** `Partial<AppConfig>`: either section may be left out. */
  datatype ConfigUpdate = ConfigUpdate(producao: Option<Producao>, gescom: Option<Gescom>)

  /** A parsed INI document: section -> key -> value. */
  type Ini = map<string, map<string, string>>

  /** What `fs` finds at the configuration path. */
  datatype IniFile = Missing | Unreadable | Present(text: string)

  const DefaultServidor := "telmo-hp/3052"
  const DefaultUsername := "SYSDBA"
  const DefaultPassword := "eampdpg"
  const DefaultProducaoPath := "d:\\Clientes\\manodi\\GesProducao\\Base de Dados\\Manodi_Gesprod_v25.fdb"
  const DefaultGescomPath := "D:\\Clientes\\manodi\\Gescom\\Dados\\Manodi_v25.Fdb"

  /** `createDefaultConfig`'s configuration. */
  const DefaultConfig := AppConfig(
    Producao(DefaultServidor, DefaultProducaoPath, DefaultUsername, DefaultPassword),
    Gescom(DefaultServidor, DefaultGescomPath, DefaultUsername, DefaultPassword))

  /** `parsedConfig.S?.K || d`: the value of a key, or the default when it is absent or empty. */
  function ValueOr(ini: Ini, section: string, key: string, d: string): (v: string)
    ensures section in ini && key in ini[section] && ini[section][key] != "" ==> v == ini[section][key]
    ensures !(section in ini && key in ini[section] && ini[section][key] != "") ==> v == d
  {
    if section in ini && key in ini[section] && ini[section][key] != "" then ini[section][key] else d
  }

  /** The configuration `loadConfig` builds from a parsed file, field by field. */
  function FromIni(ini: Ini): (c: AppConfig)
    ensures c.producao.bdServidor == ValueOr(ini, "Producao", "BD_Servidor", DefaultServidor)
    ensures c.producao.bdPath == ValueOr(ini, "Producao", "BD_Path", DefaultProducaoPath)
    ensures c.gescom.bd2Servidor == ValueOr(ini, "Gescom", "BD2_Servidor", DefaultServidor)
    ensures c.gescom.bd2Path == ValueOr(ini, "Gescom", "BD2_Path", DefaultGescomPath)
    ensures c.producao.bdUsername == ValueOr(ini, "Producao", "BD_Username", DefaultUsername)
    ensures c.producao.bdPassword == ValueOr(ini, "Producao", "BD_Password", DefaultPassword)
    ensures c.gescom.bd2Username == ValueOr(ini, "Gescom", "BD2_Username", DefaultUsername)
    ensures c.gescom.bd2Password == ValueOr(ini, "Gescom", "BD2_Password", DefaultPassword)
  {
    AppConfig(
      Producao(
        ValueOr(ini, "Producao", "BD_Servidor", DefaultServidor),
        ValueOr(ini, "Producao", "BD_Path", DefaultProducaoPath),
        ValueOr(ini, "Producao", "BD_Username", DefaultUsername),
        ValueOr(ini, "Producao", "BD_Password", DefaultPassword)),
      Gescom(
        ValueOr(ini, "Gescom", "BD2_Servidor", DefaultServidor),
        ValueOr(ini, "Gescom", "BD2_Path", DefaultGescomPath),
        ValueOr(ini, "Gescom", "BD2_Username", DefaultUsername),
        ValueOr(ini, "Gescom", "BD2_Password", DefaultPassword)))
  }

  /** An empty file, or one without the two sections, loads as the defaults. */
  lemma EmptyIniIsDefault()
    ensures FromIni(map[]) == DefaultConfig
  {
  }

  /** The document `saveConfig` stringifies: the Producao and Gescom sections and nothing else. */
  function ToIni(c: AppConfig): (ini: Ini)
    ensures ini.Keys == {"Producao", "Gescom"}
    ensures ini["Producao"].Keys == {"BD_Servidor", "BD_Path", "BD_Username", "BD_Password"}
    ensures ini["Gescom"].Keys == {"BD2_Servidor", "BD2_Path", "BD2_Username", "BD2_Password"}
  {
    map[
      "Producao" := map[
        "BD_Servidor" := c.producao.bdServidor, "BD_Path" := c.producao.bdPath,
        "BD_Username" := c.producao.bdUsername, "BD_Password" := c.producao.bdPassword],
      "Gescom" := map[
        "BD2_Servidor" := c.gescom.bd2Servidor, "BD2_Path" := c.gescom.bd2Path,
        "BD2_Username" := c.gescom.bd2Username, "BD2_Password" := c.gescom.bd2Password]]
  }

  /** No field is empty, so every one survives the `|| default` of a reload. */
  predicate Complete(c: AppConfig)
  {
    c.producao.bdServidor != "" && c.producao.bdPath != "" && c.producao.bdUsername != "" && c.producao.bdPassword != "" &&
    c.gescom.bd2Servidor != "" && c.gescom.bd2Path != "" && c.gescom.bd2Username != "" && c.gescom.bd2Password != ""
  }

  /** Saving and loading again gives back a configuration whose fields are all set. */
  lemma {:induction false} SavedConfigReloads(c: AppConfig)
    requires Complete(c)
    ensures FromIni(ToIni(c)) == c
  {
    var ini := ToIni(c);
    assert ini["Producao"]["BD_Servidor"] == c.producao.bdServidor;
    assert ini["Producao"]["BD_Path"] == c.producao.bdPath;
    assert ini["Producao"]["BD_Username"] == c.producao.bdUsername;
    assert ini["Producao"]["BD_Password"] == c.producao.bdPassword;
    assert ini["Gescom"]["BD2_Servidor"] == c.gescom.bd2Servidor;
    assert ini["Gescom"]["BD2_Path"] == c.gescom.bd2Path;
    assert ini["Gescom"]["BD2_Username"] == c.gescom.bd2Username;
    assert ini["Gescom"]["BD2_Password"] == c.gescom.bd2Password;
  }

  /** An empty field is not kept: it reloads as its default. */
  lemma EmptyServidorReloadsAsDefault(c: AppConfig)
    requires c.producao.bdServidor == ""
    ensures FromIni(ToIni(c)).producao.bdServidor == DefaultServidor
  {
    assert ToIni(c)["Producao"]["BD_Servidor"] == "";
  }

  /** `{ ...config, ...newConfig }`: a given section replaces the whole section, the other is kept. */
  function Merge(c: AppConfig, u: ConfigUpdate): (m: AppConfig)
    ensures m.producao == (if u.producao.Some? then u.producao.value else c.producao)
    ensures m.gescom == (if u.gescom.Some? then u.gescom.value else c.gescom)
  {
    AppConfig(
      if u.producao.Some? then u.producao.value else c.producao,
      if u.gescom.Some? then u.gescom.value else c.gescom)
  }

  /** Merging twice with the same sections is merging once. */
  lemma MergeIdempotent(c: AppConfig, u: ConfigUpdate)
    ensures Merge(Merge(c, u), u) == Merge(c, u)
  {
  }

  /** The configuration a load produces from what is on disk, and whether it had to write the defaults. */
  function Loaded(file: IniFile, parse: string -> Result<Ini>): (r: (AppConfig, bool))
    ensures file.Present? && parse(file.text).Ok? ==> r == (FromIni(parse(file.text).value), false)
    ensures !(file.Present? && parse(file.text).Ok?) ==> r == (DefaultConfig, true)
  {
    if file.Present? && parse(file.text).Ok? then (FromIni(parse(file.text).value), false)
    else (DefaultConfig, true)
  }

  class ConfigManager {
    const configPath: string
    const parse: string -> Result<Ini>
    const stringify: Ini -> string
    /** The file at `configPath`. */
    var file: IniFile
    var config: AppConfig

    /** The private constructor: the path under the working directory, then `loadConfig`. */
    constructor(cwd: string, onDisk: IniFile, parse: string -> Result<Ini>, stringify: Ini -> string)
      ensures configPath == cwd + "/config.ini" && this.parse == parse && this.stringify == stringify
      ensures config == Loaded(onDisk, parse).0
      ensures file == if Loaded(onDisk, parse).1 then Present(stringify(ToIni(DefaultConfig))) else onDisk
    {
      configPath := cwd + "/config.ini";
      this.parse := parse;
      this.stringify := stringify;
      file := onDisk;
      config := DefaultConfig;
      new;
      LoadConfig();
    }

    /** `saveConfig`: the file now holds the two sections of the configuration. */
    method SaveConfig()
      modifies this`file
      ensures file == Present(stringify(ToIni(config)))
    {
      file := Present(stringify(ToIni(config)));
    }

    /** `createDefaultConfig`: the defaults, saved. */
    method CreateDefaultConfig()
      modifies this`config, this`file
      ensures config == DefaultConfig && file == Present(stringify(ToIni(DefaultConfig)))
    {
      config := DefaultConfig;
      SaveConfig();
    }

    /**
     * `loadConfig` (and `reloadConfig`): a readable file that parses gives each field its value or
     * default; a missing, unreadable or unparsable file installs the defaults and writes them.
     */
    method LoadConfig()
      modifies this`config, this`file
      ensures config == Loaded(old(file), parse).0
      ensures file == if Loaded(old(file), parse).1 then Present(stringify(ToIni(DefaultConfig))) else old(file)
    {
      if file.Present? {
        var parsed := parse(file.text);
        if parsed.Ok? {
          config := FromIni(parsed.value);
          return;
        }
      }
      CreateDefaultConfig();
    }

    /** `getConfig`. */
    function GetConfig(): (c: AppConfig)
      reads this
      ensures c == config
    {
      config
    }

    /** `updateConfig`: the shallow merge, then saved. */
    method UpdateConfig(u: ConfigUpdate)
      modifies this`config, this`file
      ensures config == Merge(old(config), u)
      ensures file == Present(stringify(ToIni(config)))
    {
      config := Merge(config, u);
      SaveConfig();
    }

    /** `getRawIniContent`: the file's text, '' when it is missing or unreadable. */
    function GetRawIniContent(): (s: string)
      reads this
      ensures file.Present? ==> s == file.text
      ensures !file.Present? ==> s == ""
    {
      if file.Present? then file.text else ""
    }

    /** `saveRawIniContent`: write the text as is, then reload from it. */
    method SaveRawIniContent(content: string)
      modifies this`config, this`file
      ensures config == Loaded(Present(content), parse).0
      ensures !Loaded(Present(content), parse).1 ==> file == Present(content)
      ensures parse(content).Ok? ==> config == FromIni(parse(content).value) && GetRawIniContent() == content
    {
      file := Present(content);
      LoadConfig();
    }
  }

  /** The static `instance` of ConfigManager. */
  class ConfigRegistry {
    var instance: ConfigManager?

    constructor()
      ensures instance == null
    {
      instance := null;
    }

    /** `getInstance`: built once, on first use; every later call returns that same manager. */
    method GetInstance(cwd: string, onDisk: IniFile, parse: string -> Result<Ini>, stringify: Ini -> string)
      returns (m: ConfigManager)
      modifies this
      ensures old(instance) != null ==> m == old(instance)
      ensures old(instance) == null ==> fresh(m) && m.config == Loaded(onDisk, parse).0
      ensures instance == m
    {
      if instance == null {
        instance := new ConfigManager(cwd, onDisk, parse, stringify);
      }
      m := instance;
    }
  }
}
