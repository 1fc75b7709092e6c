/**
 * ConfigController: the guards in front of the configuration manager and the connection probe.
 * The probe (`testConnection` of the service) is the `probe` parameter.
 */
module ConfigController {
  import opened Wrappers
  import opened Js
  import opened Http
  import opened Config

  /** A section of the update body as sent: any of its four fields may be missing. */
  datatype SectionBody = SectionBody(servidor: Option<string>, path: Option<string>, username: Option<string>, password: Option<string>)

  /** `Partial<AppConfig>` as sent. */
  datatype UpdateBody = UpdateBody(producao: Option<SectionBody>, gescom: Option<SectionBody>)

  predicate Given(field: Option<string>)
  {
    field.Some? && field.value != ""
  }

  /** No field of the section is missing or empty. */
  predicate SectionComplete(s: SectionBody)
  {
    Given(s.servidor) && Given(s.path) && Given(s.username) && Given(s.password)
  }

  /** A section that is sent must be complete; one that is not sent is not looked at. */
  predicate Acceptable(b: UpdateBody)
  {
    (b.producao.Some? ==> SectionComplete(b.producao.value)) &&
    (b.gescom.Some? ==> SectionComplete(b.gescom.value))
  }

  function ProducaoOf(s: SectionBody): Producao
    requires SectionComplete(s)
  {
    Producao(s.servidor.value, s.path.value, s.username.value, s.password.value)
  }

  function GescomOf(s: SectionBody): Gescom
    requires SectionComplete(s)
  {
    Gescom(s.servidor.value, s.path.value, s.username.value, s.password.value)
  }

  /** The update handed to the manager: the sections sent, nothing else. */
  function UpdateOf(b: UpdateBody): (u: ConfigUpdate)
    requires Acceptable(b)
    ensures u.producao.Some? <==> b.producao.Some?
    ensures u.gescom.Some? <==> b.gescom.Some?
    ensures u.producao.Some? ==> u.producao.value.bdServidor == b.producao.value.servidor.value
    ensures u.gescom.Some? ==> u.gescom.value.bd2Servidor == b.gescom.value.servidor.value
  {
    ConfigUpdate(
      if b.producao.Some? then Some(ProducaoOf(b.producao.value)) else None,
      if b.gescom.Some? then Some(GescomOf(b.gescom.value)) else None)
  }

  /** Every section an acceptable update installs is complete, so it survives a reload. */
  lemma {:induction false} AcceptedKeepsComplete(c: AppConfig, b: UpdateBody)
    requires Complete(c) && Acceptable(b)
    ensures Complete(Merge(c, UpdateOf(b)))
    ensures FromIni(ToIni(Merge(c, UpdateOf(b)))) == Merge(c, UpdateOf(b))
  {
    var m := Merge(c, UpdateOf(b));
    if b.producao.Some? {
      assert m.producao == ProducaoOf(b.producao.value);
    }
    if b.gescom.Some? {
      assert m.gescom == GescomOf(b.gescom.value);
    }
    assert Complete(m);
    SavedConfigReloads(m);
  }

  /**
   * `updateConfig`: 400 for an incomplete Producao section, then for an incomplete Gescom
   * section; otherwise the manager merges and saves, and the reply is the merged configuration.
   */
  method UpdateConfig(m: ConfigManager, b: UpdateBody) returns (r: Reply<AppConfig>)
    modifies m`config, m`file
    ensures b.producao.Some? && !SectionComplete(b.producao.value) ==>
      r == Error(400, "Configurações de produção incompletas") && unchanged(m)
    ensures (b.producao.Some? ==> SectionComplete(b.producao.value)) && b.gescom.Some? && !SectionComplete(b.gescom.value) ==>
      r == Error(400, "Configurações do Gescom incompletas") && unchanged(m)
    ensures Acceptable(b) ==> m.config == Merge(old(m.config), UpdateOf(b)) && r == Success(200, m.config)
    ensures Acceptable(b) ==> m.file == Present(m.stringify(ToIni(m.config)))
  {
    if b.producao.Some? && !SectionComplete(b.producao.value) {
      return Error(400, "Configurações de produção incompletas");
    }
    if b.gescom.Some? && !SectionComplete(b.gescom.value) {
      return Error(400, "Configurações do Gescom incompletas");
    }
    m.UpdateConfig(UpdateOf(b));
    r := Success(200, m.GetConfig());
  }

  datatype ConnectionTest = ConnectionTest(database: string, connected: bool)

  predicate KnownDatabase(database: string)
  {
    database == "producao" || database == "gescom"
  }

  /** `testConnection`: only 'producao' and 'gescom' are probed; anything else is 400. */
  function TestConnection(database: string, probe: string -> Result<bool>): (r: Reply<ConnectionTest>)
    ensures !KnownDatabase(database) ==> r == Error(400, "Base de dados inválida")
    ensures r.Success? <==> KnownDatabase(database) && probe(database).Ok?
    ensures r.Success? ==> r == Success(200, ConnectionTest(database, probe(database).value))
  {
    if !KnownDatabase(database) then Error(400, "Base de dados inválida")
    else match probe(database)
      case Failure(_) => Error(500, "Erro ao testar conexão")
      case Ok(connected) => Success(200, ConnectionTest(database, connected))
  }

  datatype RawIni = RawIni(content: string, path: string)

  /** `getRawIni`: the file's text ('' when there is none) and where it lives. */
  method GetRawIni(m: ConfigManager) returns (r: Reply<RawIni>)
    ensures r == Success(200, RawIni(m.GetRawIniContent(), m.configPath))
    ensures !m.file.Present? ==> r.data.content == ""
  {
    r := Success(200, RawIni(m.GetRawIniContent(), m.configPath));
  }

  /** `saveRawIni`: 400 unless the content is a string; otherwise written as is and reloaded. */
  method SaveRawIni(m: ConfigManager, content: JsValue) returns (r: Reply<string>)
    modifies m`config, m`file
    ensures !content.Str? ==> r == Error(400, "Conteúdo do INI deve ser uma string") && unchanged(m)
    ensures content.Str? ==> r == Success(200, "Arquivo INI salvo com sucesso")
    ensures content.Str? ==> m.config == Loaded(Present(content.s), m.parse).0
  {
    if !content.Str? {
      return Error(400, "Conteúdo do INI deve ser uma string");
    }
    m.SaveRawIniContent(content.s);
    r := Success(200, "Arquivo INI salvo com sucesso");
  }
}
