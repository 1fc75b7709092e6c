/**
 * The INI-file editor page: the text being edited, the text last loaded or saved, and whether
 * they differ. The backend's answers are parameters.
 */
module IniEditorPage {
  import opened Wrappers

  /** `{ success, data: { content, path } }` of the read. */
  datatype IniAnswer = IniAnswer(success: bool, content: string, path: string)

  class IniEditorState {
    var iniContent: string
    var originalContent: string
    var configPath: string

    constructor()
      ensures iniContent == "" && originalContent == "" && configPath == ""
      ensures !HasChanges()
    {
      iniContent := "";
      originalContent := "";
      configPath := "";
    }

    /** `hasChanges`: the text differs from the one last loaded or saved. */
    predicate HasChanges()
      reads this
    {
      iniContent != originalContent
    }

    /** The save button is enabled only when not busy and there is something to save. */
    predicate SaveEnabled(isLoading: bool)
      reads this
    {
      !isLoading && HasChanges()
    }

    /** `loadIniContent`: a successful read sets both texts to the file's, so nothing is pending. */
    method Load(response: Result<IniAnswer>)
      modifies this
      ensures response.Ok? && response.value.success ==>
        iniContent == response.value.content && originalContent == response.value.content &&
        configPath == response.value.path && !HasChanges()
      ensures !(response.Ok? && response.value.success) ==>
        iniContent == old(iniContent) && originalContent == old(originalContent) && configPath == old(configPath)
    {
      if response.Ok? && response.value.success {
        iniContent := response.value.content;
        originalContent := response.value.content;
        configPath := response.value.path;
      }
    }

    /** `saveIniContent`: the text is sent; only a successful save makes it the saved text. */
    method Save(response: Result<bool>) returns (sent: string)
      modifies this`originalContent
      ensures sent == iniContent
      ensures response.Ok? && response.value ==> originalContent == iniContent && !HasChanges()
      ensures !(response.Ok? && response.value) ==> originalContent == old(originalContent)
    {
      sent := iniContent;
      if response.Ok? && response.value {
        originalContent := iniContent;
      }
    }

    /** `resetChanges`: back to the saved text, so nothing is pending. */
    method Reset()
      modifies this`iniContent
      ensures iniContent == originalContent && !HasChanges()
    {
      iniContent := originalContent;
    }
  }
}

/**
 * The database-connection settings page: the two configuration sections, the result of the
 * connection tests and the messages shown. The backend's answers are parameters.
 */
module AdminConfigPage {
  import opened Wrappers

  datatype Section = Producao | Gescom

  /** The two sections of the configuration, field name to value. */
  datatype AppConfig = AppConfig(producao: map<string, string>, gescom: map<string, string>)

  function Fields(c: AppConfig, s: Section): map<string, string>
  {
    if s == Producao then c.producao else c.gescom
  }

  /** `updateConfig`'s new configuration: one field of one section set, everything else kept. */
  function Updated(c: AppConfig, s: Section, field: string, value: string): (r: AppConfig)
    ensures field in Fields(r, s) && Fields(r, s)[field] == value
    ensures Fields(r, s).Keys == Fields(c, s).Keys + {field}
    ensures forall f :: f in Fields(c, s) && f != field ==> Fields(r, s)[f] == Fields(c, s)[f]
    ensures forall t :: t != s ==> Fields(r, t) == Fields(c, t)
  {
    if s == Producao then c.(producao := c.producao[field := value]) else c.(gescom := c.gescom[field := value])
  }

  /** The last edit of a field wins, and edits of different fields do not interfere. */
  lemma UpdatesCommute(c: AppConfig, s1: Section, f1: string, v1: string, s2: Section, f2: string, v2: string)
    ensures s1 == s2 && f1 == f2 ==> Updated(Updated(c, s1, f1, v1), s2, f2, v2) == Updated(c, s2, f2, v2)
    ensures s1 != s2 || f1 != f2 ==>
      Updated(Updated(c, s1, f1, v1), s2, f2, v2) == Updated(Updated(c, s2, f2, v2), s1, f1, v1)
  {
    if s1 == s2 {
      var m := Fields(c, s1);
      if f1 == f2 {
        assert m[f1 := v1][f2 := v2] == m[f2 := v2];
      } else {
        assert m[f1 := v1][f2 := v2] == m[f2 := v2][f1 := v1];
      }
    }
  }

  /** A tested connection: `null` before a test and while one runs. */
  type Status = Option<bool>

  const NotTested := "Não testado"
  const ConnectionOk := "Conexão OK"
  const ConnectionFailed := "Falha na conexão"

  function ConnectionText(s: Status): (t: string)
    ensures s == None ==> t == NotTested
    ensures s == Some(true) ==> t == ConnectionOk
    ensures s == Some(false) ==> t == ConnectionFailed
  {
    match s
    case None => NotTested
    case Some(ok) => if ok then ConnectionOk else ConnectionFailed
  }

  function ConnectionColor(s: Status): (c: string)
    ensures s == None ==> c == "text-gray-500"
    ensures s == Some(true) ==> c == "text-green-600"
    ensures s == Some(false) ==> c == "text-red-600"
  {
    match s
    case None => "text-gray-500"
    case Some(ok) => if ok then "text-green-600" else "text-red-600"
  }

  /** The three states read differently, both in words and in colour. */
  lemma StatusShownFaithfully(a: Status, b: Status)
    ensures ConnectionText(a) == ConnectionText(b) <==> a == b
    ensures ConnectionColor(a) == ConnectionColor(b) <==> a == b
  {
  }

  /** `{ success, data }` of a single test: `connected` may be missing. */
  datatype TestAnswer = TestAnswer(success: bool, connected: Option<bool>)

  /** `{ success, data }` of both tests. */
  datatype TestAllAnswer = TestAllAnswer(success: bool, producao: Option<bool>, gescom: Option<bool>)

  /** `{ success, data }` of the read, and `{ success, error }` of a write. */
  datatype ConfigAnswer = ConfigAnswer(success: bool, data: Option<AppConfig>)
  datatype SaveAnswer = SaveAnswer(success: bool, error: string)

  /** The status a finished test leaves: `connected || false`, false on an error, still `null` on a refusal. */
  function Tested(response: Result<TestAnswer>): (s: Status)
    ensures response.Failure? ==> s == Some(false)
    ensures response.Ok? && !response.value.success ==> s == None
    ensures response.Ok? && response.value.success ==> s == Some(response.value.connected == Some(true))
  {
    if response.Failure? then Some(false)
    else if response.value.success then
      var connected := response.value.connected;
      assert connected.GetOr(false) == (connected == Some(true)) by {
        if connected.Some? { assert connected == Some(connected.value); }
      }
      Some(connected.GetOr(false))
    else None
  }

  const LoadFailed := "Erro ao carregar configurações"
  const SaveFailed := "Erro ao salvar configurações"
  const Saved := "Configurações salvas com sucesso"
  const ReloadFailed := "Erro ao recarregar configurações"
  const Reloaded := "Configurações recarregadas com sucesso"

  class AdminConfigState {
    var config: Option<AppConfig>
    var producao: Status
    var gescom: Status
    var error: string
    var success: string

    constructor()
      ensures config == None && producao == None && gescom == None && error == "" && success == ""
    {
      config := None;
      producao := None;
      gescom := None;
      error := "";
      success := "";
    }

    /** `loadConfig`: a successful answer replaces the configuration (`data || null`). */
    method LoadConfig(response: Result<ConfigAnswer>)
      modifies this`config, this`error
      ensures response.Ok? && response.value.success ==> config == response.value.data && error == old(error)
      ensures response.Ok? && !response.value.success ==> config == old(config) && error == old(error)
      ensures response.Failure? ==> config == old(config) && error == LoadFailed
    {
      if response.Failure? {
        error := LoadFailed;
      } else if response.value.success {
        config := response.value.data;
      }
    }

    /**
     * `reloadConfig`: after the server rereads its file the configuration is loaded again and the
     * reload reported, even when that load fails; a failed reload shows the server's error.
     */
    method ReloadConfig(reloaded: Result<()>, response: Result<ConfigAnswer>)
      modifies this`config, this`error, this`success
      ensures reloaded.Failure? ==> config == old(config) && success == old(success)
      ensures reloaded.Failure? ==> error == (if reloaded.message != "" then reloaded.message else ReloadFailed)
      ensures reloaded.Ok? ==> success == Reloaded
      ensures reloaded.Ok? && response.Ok? && response.value.success ==> config == response.value.data && error == old(error)
      ensures reloaded.Ok? && response.Failure? ==> config == old(config) && error == LoadFailed
    {
      if reloaded.Failure? {
        error := if reloaded.message != "" then reloaded.message else ReloadFailed;
        return;
      }
      LoadConfig(response);
      success := Reloaded;
    }

    /** `updateConfig`: one field of one section; nothing without a configuration. */
    method UpdateConfig(s: Section, field: string, value: string)
      modifies this`config
      ensures old(config).None? ==> config == None
      ensures old(config).Some? ==> config == Some(Updated(old(config).value, s, field, value))
    {
      if config.Some? {
        config := Some(Updated(config.value, s, field, value));
      }
    }

    /**
     * `handleSave`: nothing is sent without a configuration; otherwise the success message, or
     * the server's error, or the default error.
     */
    method HandleSave(response: Result<SaveAnswer>) returns (sent: Option<AppConfig>)
      modifies this`error, this`success
      ensures sent == config
      ensures sent.None? ==> error == old(error) && success == old(success)
      ensures sent.Some? && response.Ok? && response.value.success ==> success == Saved && error == ""
      ensures sent.Some? && response.Ok? && !response.value.success ==>
        success == "" && error == (if response.value.error != "" then response.value.error else SaveFailed)
      ensures sent.Some? && response.Failure? ==>
        success == "" && error == (if response.message != "" then response.message else SaveFailed)
    {
      sent := config;
      if config.None? {
        return;
      }
      error := "";
      success := "";
      if response.Failure? {
        error := if response.message != "" then response.message else SaveFailed;
      } else if response.value.success {
        success := Saved;
      } else {
        error := if response.value.error != "" then response.value.error else SaveFailed;
      }
    }

    /** `testConnection`: only the tested database's status changes. */
    method TestConnection(db: Section, response: Result<TestAnswer>)
      modifies this`producao, this`gescom
      ensures db == Producao ==> producao == Tested(response) && gescom == old(gescom)
      ensures db == Gescom ==> gescom == Tested(response) && producao == old(producao)
    {
      if db == Producao {
        producao := None;
        producao := Tested(response);
      } else {
        gescom := None;
        gescom := Tested(response);
      }
    }

    /** `testAllConnections`: both statuses, each as a single test would set it. */
    method TestAllConnections(response: Result<TestAllAnswer>)
      modifies this`producao, this`gescom
      ensures response.Failure? ==> producao == Some(false) && gescom == Some(false)
      ensures response.Ok? && !response.value.success ==> producao == None && gescom == None
      ensures response.Ok? && response.value.success ==>
        producao == Tested(Ok(TestAnswer(true, response.value.producao))) &&
        gescom == Tested(Ok(TestAnswer(true, response.value.gescom)))
    {
      producao := None;
      gescom := None;
      if response.Failure? {
        producao := Some(false);
        gescom := Some(false);
      } else if response.value.success {
        producao := Some(response.value.producao.GetOr(false));
        gescom := Some(response.value.gescom.GetOr(false));
      }
    }
  }
}
