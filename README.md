# GesProducao core, modelled in Dafny

GesProducao manages a textile dyeing and finishing floor on top of two Firebird databases
(`producao` and `gescom`). Lots of fabric are received (*recepção*), grouped on finishing sheets
(*fichas de acabamento*, FA), given processes and colours, passed through machines whose barcodes
are read at the terminals, and delivered back (*entregas*). An Express backend exposes this to a
React client and prints the receptions and sheets through HTML, Jasper and visual reports.

This project models that backend's and client's decision logic:

- **Shared vocabulary:** `Wrappers` (`Option`, `Result`), `Js` (JavaScript values, truthiness, `parseInt`, `Number()`, `split`/`join`/`trim`/`toUpperCase`, `String(n)`), `Http` (status and body of a reply) and `Sql` (placeholder counting for the statements the services build).
- **Server:**
  - `Operacoes`: the barcode reader;
  - `UserService`, `UserController`, `AuthController`, `AuthMiddleware`: accounts, login and role checks;
  - `RecepcaoService`, `RecepcaoController`: receptions;
  - `TabelasService`, `TabelasController`: clients, articles and compositions;
  - `ReportService`, `ReportController`, `JasperService`, `JasperController`, `VisualReports`: reports;
  - `FaService`, `FaController`, `ProcessosController`, `EntregasController`: finishing sheets;
  - `Config`, `ConfigController`, `Database`: configuration and connections;
  - `GenerateModels`, `FirebirdTypes`: the metadata scripts.
- **Client:** `FichasAcabamentoPage`, `SearchModal`, `ProcessSearchModal`, `OperacoesPage`, `ReportDesigner`, `Sidebar`, `EntregasPage`, `ProcessosPage`, `RecepcaoPage`, `ReportingPage`, `IniEditorPage`, `AdminConfigPage` and `UsersPage`.

The database, the stored procedures, the file system, bcrypt and JWT, the clock, the PDF renderers
and the browser's dialogs are parameters: a query is a function from its parameters to rows or a
failure, a file system is a map from names to contents, a prompt is its answer. Code that updates
state step by step (the configuration manager, the connection singleton, the SQL builders, the
argument builder of jasperstarter, the sheet writer, the page states of the client) is written as
classes and methods proved against the functions that state what they compute; guard sequences and
mappings are functions with contracts, and the properties that relate several operations are lemmas.

JavaScript numbers are modelled as unbounded integers or NaN (`Js.JsNumber`), strings as
sequences of characters.

## Model

| member | source | states |
|---|---|---|
| AuthMiddleware.BearerToken | src/middleware/auth.ts:11-12 | the token is the second space-separated word of the Authorization header, and is absent when the header or that word is missing or empty |
| AuthMiddleware.BearerRoundTrip | src/middleware/auth.ts:12 | the header a client sends, `Bearer <token>` with a token free of spaces, yields that token back |
| AuthMiddleware.AuthenticateToken | src/middleware/auth.ts:9-39 | 401 without a token, 403 when the token does not verify, and otherwise the request passes on with exactly the verified claims as its user |
| AuthMiddleware.RequireRole | src/middleware/auth.ts:41-59 | 401 without a user, 403 for a role outside the list; a request passes if and only if its user's role is in the list, and it passes unchanged |
| AuthMiddleware.RequireAdmin | src/middleware/auth.ts:61 | the admin gate opens exactly for a user whose role is `admin`; the isAdmin claim plays no part |
| AuthMiddleware.UserSeccao | src/controllers/recepcaoController.ts:33 | the section a request is confined to is the token's section, or section 1 when there is no user or the section is 0; never 0 |
| AuthMiddleware.OneSectionForNonAdmins | src/controllers/recepcaoController.ts:114 | a non-admin passes the section check for one section only, the one in their token |
| AuthController.WithoutPassword | src/controllers/authController.ts:62 | the user sent back has every field of the account except the password hash |
| AuthController.ClaimsOf | src/controllers/authController.ts:50-60 | the signed claims are the account's id, username, role, section and isAdmin flag |
| AuthController.Login | src/controllers/authController.ts:13-78 | 400 unless both username and password are given; 500 when the lookup by username fails; 401 for an unknown user, for an inactive one and for a wrong password; otherwise the signed claims and the user without its password |
| AuthController.InactiveRefusedBeforePassword | src/controllers/authController.ts:33-40 | an inactive account is refused with the same answer whatever password is given, because the password is checked only afterwards |
| AuthController.LoginTokenAuthenticates | src/controllers/authController.ts:50-70 | the token a login returns, sent back as `Bearer <token>`, authenticates as that account, and the admin gate then opens exactly for admins |
| AuthController.ValidateToken | src/controllers/authController.ts:80-123 | 401 without a token, 403 for a token that does not verify, 401 when the account is gone or inactive, and no reply at all when the lookup by id fails, since it runs in the `jwt.verify` callback outside the `try`; otherwise exactly the account the lookup returns, both directions |
| FirebirdTypes.TypeDescription | check-mov-recepcao.js:79-96 | each Firebird type code gets its SQL name: NUMERIC(precision,scale) or BIGINT for 64-bit integers by scale, VARCHAR/CHAR with the length, TEXT BLOB for sub-type 1, and UNKNOWN(code) for any other code |
| FirebirdTypes.UnknownNamesItsCode | check-mov-recepcao.js:94 | the code can be read back from the description of an unknown type |
| FirebirdTypes.NullabilityText | check-mov-recepcao.js:41-42 | NULL or NOT NULL from the null flag, followed by ` DEFAULT <value>` only when a non-empty default is set |
| Config.ValueOr | src/config/config.ts:31-40 | a key of a parsed section gives its value when present and non-empty, and the default otherwise |
| Config.FromIni | src/config/config.ts:29-42 | each of the eight fields is its value in the file's Producao or Gescom section when present and non-empty, and otherwise that field's default |
| Config.EmptyIniIsDefault | src/config/config.ts:29-42 | a file with neither section, or an empty one, loads as exactly the default configuration |
| Config.ToIni | src/config/config.ts:84-87 | the saved document has exactly the Producao and Gescom sections, each holding the four fields of the configuration |
| Config.SavedConfigReloads | src/config/config.ts:82-88 | saving a configuration whose fields are all non-empty and loading the file again gives back that configuration |
| Config.EmptyServidorReloadsAsDefault | src/config/config.ts:31 | a field saved empty is not kept: it comes back from a reload as its default |
| Config.Merge | src/config/config.ts:74-78 | a section given in the update replaces the whole section; the section not given is kept |
| Config.MergeIdempotent | src/config/config.ts:74-78 | applying the same update twice leaves the configuration of applying it once |
| Config.Loaded | src/config/config.ts:23-50 | a present file that parses loads through the key-by-key defaults with nothing written; a missing or unparsable file loads the defaults and they are written |
| Config.ConfigManager.constructor | src/config/config.ts:11-14 | the manager starts with the configuration the file on disk loads to |
| Config.ConfigManager.SaveConfig | src/config/config.ts:82-93 | the file afterwards holds the two sections of the current configuration, and the configuration is unchanged |
| Config.ConfigManager.CreateDefaultConfig | src/config/config.ts:52-68 | the configuration becomes the defaults, and the file holds them |
| Config.ConfigManager.LoadConfig | src/config/config.ts:23-50 | the configuration becomes what the file loads to; when the file was missing or unparsable the defaults are also written to it |
| Config.ConfigManager.GetConfig | src/config/config.ts:70-72 | returns the current configuration and changes nothing |
| Config.ConfigManager.UpdateConfig | src/config/config.ts:74-80 | the configuration becomes the merge of the old one with the update, and the file holds it |
| Config.ConfigManager.GetRawIniContent | src/config/config.ts:99-109 | the text of the file, or the empty text when it is missing or cannot be read; nothing changes |
| Config.ConfigManager.SaveRawIniContent | src/config/config.ts:111-119 | the file holds exactly the text given, and the configuration is reloaded from it |
| Config.ConfigRegistry.GetInstance | src/config/config.ts:16-21 | the first call creates the manager; every later call returns that same manager |
| ConfigController.UpdateOf | src/controllers/configController.ts:34 | the update passed on carries exactly the sections the body sent |
| ConfigController.AcceptedKeepsComplete | src/controllers/configController.ts:37-56 | every section an accepted update installs has all four fields non-empty, so a reload gives it back unchanged |
| ConfigController.UpdateConfig | src/controllers/configController.ts:32-72 | 400 for a Producao section with an empty field, then for a Gescom section with an empty field; otherwise the configuration becomes the merge and the reply is that merged configuration |
| ConfigController.TestConnection | src/controllers/configController.ts:74-101 | only `producao` and `gescom` are probed; any other name is answered 400 without a probe |
| ConfigController.GetRawIni | src/controllers/configController.ts:136-155 | the reply holds the file's text, empty when there is none, and the file's path |
| ConfigController.SaveRawIni | src/controllers/configController.ts:157-181 | 400 unless the content is a string; otherwise the file holds that text and the configuration is reloaded from it |
| Database.HostOf | src/config/database.ts:22 | the host is the text of the server field before its first `/` |
| Database.PortOf | src/config/database.ts:23 | the port is the number after the first `/`, or 3050 when it is missing, not a number or zero |
| Database.HostPortRoundTrip | src/config/database.ts:22-23 | a server written `host/port`, with a host free of `/` and a positive port, splits back into that host and that port |
| Database.BareHostUsesDefaultPort | src/config/database.ts:22-23 | a server field without a `/` is the host itself on port 3050 |
| Database.ProducaoOptions | src/config/database.ts:21-30 | Producao connects to the host and port of BD_Servidor, with its path, user and password, keys not lower-cased, no role and page size 4096 |
| Database.GescomOptions | src/config/database.ts:44-53 | Gescom connects by the same rule from the BD2 fields, with the same fixed keys, role and page size |
| Database.AttachDetachBalanced | src/config/database.ts:32-38 | an attach followed by its detach leaves the number of open connections as it was |
| Database.DatabaseConnection.OptionsFor | src/config/database.ts:68-70 | `producao` connects with the Producao options and any other name with the Gescom options |
| Database.DatabaseConnection.ExecuteQuery | src/config/database.ts:65-84 | a failed attach rejects and leaves no connection open; otherwise the query runs, the connection is detached whether the query fails or not, and the query's outcome is the result |
| Database.DatabaseRegistry.GetInstance | src/config/database.ts:12-17 | the first call's configuration is kept; later calls return the same connection and ignore theirs |
| Config.ConfigRegistry.constructor | src/config/config.ts:7 | no manager exists before the first request for one |
| Database.DatabaseConnection.constructor | src/config/database.ts:8-10 | the connection keeps the configuration it is given and has opened nothing yet |
| Database.DatabaseRegistry.constructor | src/config/database.ts:5 | no connection exists before the first request for one |
| Operacoes.TerminalOf | src/controllers/operacoesController.ts:84 | the terminal is `WEB-LEITOR` exactly when none was sent; any value sent, null included, is kept |
| Operacoes.NRegisto | src/controllers/operacoesController.ts:131 | the record number is the first row's R_N_REGISTO, or 0 when the procedure returned no row |
| Operacoes.Message | src/controllers/operacoesController.ts:132 | a positive record number reads `Gravação OK: n`, any other `Erro OP: n` |
| Operacoes.OperacaoDescricao | src/controllers/operacoesController.ts:6-16 | the first row's DESCRICAO, or `Operação n` when the lookup fails or finds no row |
| Operacoes.MaquinaDescricao | src/controllers/operacoesController.ts:18-28 | the first row's DESCRICAO, or `Máquina n` when the lookup fails or finds no row |
| Operacoes.DescricaoOr | src/controllers/operacoesController.ts:6-28 | the first row's DESCRICAO, or the given prefix and the number when the lookup fails or finds no row |
| Operacoes.DetalhesOf | src/controllers/operacoesController.ts:136-176 | a machine selection's details are the machine and its description; any other operation's are its FA number and process |
| Operacoes.FallbackNamesOperacao | src/controllers/operacoesController.ts:12-14 | the operation number can be read back from its fallback description |
| Operacoes.LeituraMaquina | src/controllers/operacoesController.ts:121-146 | a machine selection calls Insert_Maq_Leituras with the operation, the terminal, 0, 0 and the machine, and replies with the record number's message and the machine's description |
| Operacoes.LeituraProcesso | src/controllers/operacoesController.ts:148-180 | a process step calls Insert_Maq_Leituras with the operation, the terminal, the FA number, the process and machine 0, and replies with the FA number and the process |
| Operacoes.RegistrarLeitura | src/controllers/operacoesController.ts:82-192 | the reply is the parse of the code: a 400 with its message and no procedure call, or exactly one Insert_Maq_Leituras call with the parsed arguments; a recorded reading replies with the operation's description and the machine (operation 1) or the FA and process details |
| Operacoes.MissingCodeRefused | src/controllers/operacoesController.ts:86-91 | a missing or empty code is refused with 400 before anything is recorded |
| Operacoes.NoSeparatorRefused | src/controllers/operacoesController.ts:94-100 | a non-empty code without any `.` is refused as an invalid barcode |
| Operacoes.NonPositiveOperacaoRefused | src/controllers/operacoesController.ts:103-111 | a code whose operation parses to zero or less is refused as an invalid operation |
| Operacoes.ProcessDispatch | src/controllers/operacoesController.ts:148-164 | three parts whose operation is a positive number other than 1 dispatch a process step with the parsed FA number and process |
| Operacoes.NaNOperacaoDispatched | src/controllers/operacoesController.ts:103-106 | a non-numeric operation part is not caught by the `operacao <= 0` guard and reaches the procedure with NaN as the operation |
| Operacoes.ThreeParts | src/controllers/operacoesController.ts:94 | `a.b.c` splits into a, b and c when none of them holds a `.` |
| Js.Split | src/controllers/operacoesController.ts:94 | `split` gives at least one part and no part holds the separator |
| Js.JoinSplit | src/controllers/operacoesController.ts:94-104 | joining the parts of a split with its separator gives back the text |
| Operacoes.MachineIsRestOfCode | src/controllers/operacoesController.ts:104-129 | for operation 1 the machine is parseInt of everything after the first `.`, and the FA number and process sent are 0 |
| Operacoes.ProcessCodeNeedsThreeParts | src/controllers/operacoesController.ts:150-155 | any other operation with fewer than three parts is refused as an invalid process code |
| Operacoes.MachineBarcodeRoundTrip | src/controllers/operacoesController.ts:121-129 | the barcode `1.m` of a machine reads back as machine m |
| Operacoes.ProcessBarcodeRoundTrip | src/controllers/operacoesController.ts:157-164 | the barcode `op.fa.p` of an operation other than 1 reads back as op, fa and p |
| FaService.HeaderParams | src/services/fichasAcabamentoService.ts:30-38 | the header call receives the section, date, totals, state and the observations, with missing observations sent as '' |
| FaService.FaNumeroOf | src/services/fichasAcabamentoService.ts:40 | the sheet number is the first row's R_FA_NUMERO, or 0 when the procedure returned none |
| FaService.MovementParams | src/services/fichasAcabamentoService.ts:49-59 | one movement call carries the sheet's section, date and number, line 0, then the item's reception key and quantities |
| FaService.MovementCalls | src/services/fichasAcabamentoService.ts:48-61 | one movement call per item, in item order |
| FaService.MovementsNameTheSheet | src/services/fichasAcabamentoService.ts:49-53 | every movement of a sheet names that sheet's section, date and number, with line 0 |
| FaService.CriarFichaEntrada | src/services/fichasAcabamentoService.ts:20-64 | the header is written first; a failed call or a zero number fails with no movement written; otherwise one movement per item is written in order and the result is the number and the count of items |
| FaController.MapItem | src/controllers/fichasAcabamentoController.ts:29-35 | each item keeps its reception key, and a quantity that is not a number becomes 0 |
| FaController.MapItems | src/controllers/fichasAcabamentoController.ts:29-35 | the mapped list has the same length and order as the request's items |
| FaController.TotalsMatchItems | src/controllers/fichasAcabamentoController.ts:27-28 | the header's totals are the sums of the quantities the mapped items carry |
| FaController.DataFa | src/controllers/fichasAcabamentoController.ts:26 | the sheet's date is the date sent when one is given, and today otherwise |
| FaController.Nullish | src/controllers/fichasAcabamentoController.ts:42-43 | only undefined and null are replaced by the default |
| FaController.Criar | src/controllers/fichasAcabamentoController.ts:12-52 | 400 without a section or with no items, and the service is not reached; otherwise the service runs with the totals, state 1 and '' unless given, and the mapped items; the reply is a success exactly when the header call returns a non-zero number and every movement call succeeds, and 500 otherwise |
| UserService.RoleToNivel | src/services/userService.ts:181-188 | admin is level 1, operator 2, viewer 3, and any other role gets the lowest level, 3 |
| UserService.AdminFlagOf | src/services/userService.ts:22 | the stored ADMINISTRADOR flag is `S` for the admin role and `N` for any other |
| UserService.NivelToRole | src/services/userService.ts:190-199 | a trimmed, upper-cased flag of S, Y or 1 makes the role admin whatever the level; otherwise level 1, 2 and 3 are admin, operator and viewer, and any other level is viewer |
| UserService.AdminIffAdminRole | src/services/userService.ts:190-204 | the two readings of a row agree: the isAdmin flag holds exactly when the role read is admin |
| UserService.RoleRoundTrip | src/services/userService.ts:190-199 | the level and flag stored for a known role read back as that role, and as an administrator exactly for admin |
| UserService.ValidatePassword | src/services/userService.ts:170-179 | a stored value of 60 characters starting with `$2b$` is checked by bcrypt; any other is compared as plain text |
| UserService.LegacyPasswordExact | src/services/userService.ts:176-177 | a legacy plain-text password is never handed to bcrypt and accepts only the identical text |
| UserService.MapUserRow | src/services/userService.ts:61-71 | a row becomes a user with the username as id, the role read from level and flag, admin exactly for the admin role, and active exactly while its validity date lies ahead |
| UserService.GetAllUsers | src/services/userService.ts:53-72 | one user per row, in row order, each the row mapped without its password |
| UserService.GetUser | src/services/userService.ts:74-127 | null when no row matches; otherwise the first row mapped, with the password only in the by-username lookup |
| UserService.CreateUser | src/services/userService.ts:15-51 | one INSERT with the username, the hash, the role's level, a validity one year ahead, no last login, 0 logins, section 1 and the role's flag; the returned user is active, in section 1, and admin exactly for admin |
| UserService.CreatedUserReadsBack | src/services/userService.ts:25-99 | within its year of validity, a created account reads back as the user the create returned, apart from the email, which the table does not store |
| UserService.BuildUserUpdate | src/services/userService.ts:129-162 | no statement exactly when neither role nor active is given; otherwise the SET lists level and flag for a role and validity for active, with one placeholder per value and the id bound last |
| UserService.ActiveReadsBack | src/services/userService.ts:140-146 | an account deactivated by an update reads back inactive, and a re-activated one reads back active for a year |
| UserService.InitializeDefaultUsers | src/services/userService.ts:206-223 | the admin account `admin` is created only when the listing succeeds and is empty; a failing listing creates nothing |
| UserController.GetUserById | src/controllers/userController.ts:32-55 | 404 when the service finds nobody, 500 when it fails, and otherwise the user found |
| UserController.CreateUser | src/controllers/userController.ts:57-95 | 400 unless all four fields are given, 400 for a role outside the three, 409 when the username is taken, 500 when the lookup fails; the user is created exactly when the fields and role are valid and the lookup finds nobody, answering 201, or 500 when the creation fails |
| UserController.UpdateUser | src/controllers/userController.ts:97-129 | a non-empty role outside the three is 400 and reaches no service; the service's null is 404; an empty role is not refused and reaches the service |
| UserController.DeleteUser | src/controllers/userController.ts:131-162 | 400 when callers name themselves, before any lookup; 404 for a missing user; otherwise the service deletes it |
| UserController.NoSelfDelete | src/controllers/userController.ts:135-140 | no user can delete their own account, whatever the lookup would say |
| EntregasController.RegistarEntrega | src/controllers/entregasController.ts:6-77 | 400 without a sheet number, then 400 without a weight or a state; only then is the procedure called, once, with the user's section and the delivery's values |
| Sql.TrimOrEmpty | src/services/recepcaoService.ts:239 | a text column is its trimmed text, and NULL reads as the empty text |
| Sql.DefinedEntries | src/services/tabelasService.ts:140-143 | the kept entries are the update's entries whose value is defined, in their order |
| Sql.DefinedEntriesMembers | src/services/tabelasService.ts:140-143 | an entry is kept exactly when it is in the update and its value is defined |
| Sql.NoneDefined | src/services/tabelasService.ts:144 | with every value undefined nothing is kept, so the update has no field and is refused |
| Sql.SetFields | src/services/tabelasService.ts:140-146 | one `COL = ?` per kept entry, the column being the entry's key |
| Sql.PushesSnoc | src/services/tabelasService.ts:140-143 | each `if (x !== undefined) push` step adds the field and its value exactly when the value is defined, and leaves both lists alone otherwise |
| Sql.PushesDefined | src/services/tabelasService.ts:138-145 | after all the steps, the fields are the `COL = ?` of the defined entries and the values are those entries' values, in the order of the checks |
| Sql.PlaceholdersJoinFrame | src/services/tabelasService.ts:146 | `head + fields.join(', ') + tail` binds one value per field plus the one of the WHERE clause |
| RecepcaoService.Candidates | src/services/recepcaoService.ts:73-131 | the twelve filters in the order the listing tests them, each with its fragment and its parameter; the three text searches are sent upper-cased |
| RecepcaoService.FoldAppends | src/services/recepcaoService.ts:69-131 | the finished clause is the base condition followed by the fragments of the active filters, and the parameters are those of the active filters, in order |
| RecepcaoService.ActiveParamsFromActive | src/services/recepcaoService.ts:73-131 | every parameter comes from an active filter, and every active filter contributes its parameter |
| RecepcaoService.FoldAligned | src/services/recepcaoService.ts:73-131 | each applied filter adds exactly one placeholder and one parameter, so placeholders and parameters stay in step |
| RecepcaoService.FoldInactive | src/services/recepcaoService.ts:73-131 | a filter that is not applied leaves the clause and the parameters unchanged |
| RecepcaoService.NoFiltersBaseOnly | src/services/recepcaoService.ts:69-70 | with no filter set, the clause is the base condition alone and nothing is bound |
| RecepcaoService.AddFilter | src/services/recepcaoService.ts:73-76 | one filter test appends its fragment and its parameter exactly when the filter is active |
| RecepcaoService.AddFourFilters | src/services/recepcaoService.ts:73-131 | four consecutive filter tests do what the fold over those four filters does |
| RecepcaoService.BuildListingClause | src/services/recepcaoService.ts:69-131 | the clause is the base condition plus one fragment per active filter in the fixed order, the parameters are those filters' parameters, and the clause has one placeholder per parameter |
| RecepcaoService.AddTwelveFilters | src/services/recepcaoService.ts:73-131 | the twelve `if (filters.x)` steps leave the clause that folding the twelve candidates over the starting clause gives |
| RecepcaoService.ListingClause | src/services/recepcaoService.ts:69-131 | the listing clause is the base condition followed by the active fragments, binds the active filters' values, and has one placeholder per value |
| RecepcaoService.PageOf | src/services/recepcaoService.ts:66 | the page is 1 when absent and otherwise the value given, a NaN one included |
| RecepcaoService.LimitOf | src/services/recepcaoService.ts:66 | the limit is 50 when absent and otherwise the value given |
| RecepcaoService.Offset | src/services/recepcaoService.ts:67 | the offset is a number exactly when page and limit are both numbers, and it is not negative for a page of at least 1 and a limit of at least 0 |
| RecepcaoService.OffsetsTile | src/services/recepcaoService.ts:67 | each page starts right after the rows of the page before it |
| RecepcaoService.TotalPages | src/services/recepcaoService.ts:158 | the page count is defined exactly for a non-zero limit; for a positive limit it is the least count whose pages hold every record, and for a negative one (a `?limit=-5` query) it is the rounded-up negative quotient |
| RecepcaoService.TotalPagesCoversAll | src/services/recepcaoService.ts:145-158 | every record falls on some page up to the page count, and the last page is not empty |
| RecepcaoService.TrimFlag | src/services/recepcaoService.ts:298-300 | a flag column is trimmed, and NULL stays undefined |
| RecepcaoService.MapRowToRecepcao | src/services/recepcaoService.ts:283-307 | texts are trimmed with NULL read as '', flags trimmed, and every number (client, article, composition, rolls, weights, grammage, measures, delivered rolls and weights), the date and the key kept as stored |
| RecepcaoService.MapRowIdempotent | src/services/recepcaoService.ts:289-304 | the texts of a mapped record are already trimmed, so mapping them again changes nothing |
| RecepcaoService.MapRows | src/services/recepcaoService.ts:152 | one record per row, in row order |
| RecepcaoService.GetRecepcaoById | src/services/recepcaoService.ts:162-175 | the not-found error exactly when no row matches; otherwise the first row, mapped |
| RecepcaoService.GetAllRecepcoes | src/services/recepcaoService.ts:65-160 | the count and data queries share the clause and parameters; the data query takes `limit` rows from the offset; a count with no row fails; otherwise the reply is the mapped rows, the total, the page and the page count |
| RecepcaoService.NextLinha | src/services/recepcaoService.ts:271-281 | the next line is 1 when there is no line yet, and otherwise greater than the highest line |
| RecepcaoService.MaxLinha | src/services/recepcaoService.ts:273 | the highest line of a section and date, and none when it has no line |
| RecepcaoService.NextLinhaIsFresh | src/services/recepcaoService.ts:271-281 | the line a create inserts is not yet used in that section and date, and is at least 1 |
| RecepcaoService.InsertStatement | src/services/recepcaoService.ts:28-59 | the INSERT binds 21 values, the new line third |
| RecepcaoService.CreateRecepcaoRow | src/services/recepcaoService.ts:22-59 | the record keeps the request's fields, takes the next line, the user and the time; missing weight, measures and delivered quantities are 0 and a missing requisition is '' |
| RecepcaoService.NewLotNothingDelivered | src/services/recepcaoService.ts:54-55 | a new lot with no delivered quantities given starts with nothing delivered |
| RecepcaoService.SetList | src/services/recepcaoService.ts:188 | one `KEY = ?` per entry, with the key upper-cased |
| RecepcaoService.CollectUpdateFields | src/services/recepcaoService.ts:183-191 | the SET fields and values are those of the entries whose value is defined, in order |
| RecepcaoService.BuildRecepcaoUpdate | src/services/recepcaoService.ts:177-205 | an update with nothing defined is refused with `Nenhum campo para atualizar`; otherwise one SET field per defined entry, the values in the same order, then section, date and line |
| RecepcaoService.UpdateRecepcaoAligned | src/services/recepcaoService.ts:186-202 | when no field name holds a `?`, the update binds exactly its values, one per SET field and three for the key |
| RecepcaoController.Utilizador | src/controllers/recepcaoController.ts:19 | the recorded user is the token's username, or `SYSTEM` when there is none |
| RecepcaoController.CreateRecepcao | src/controllers/recepcaoController.ts:16-54 | 400 unless the eight required fields are all given; then a non-admin's section replaces the one sent, and the service creates the record as the user: 201, or 500 when it fails |
| RecepcaoController.NonAdminStoresOwnSection | src/controllers/recepcaoController.ts:22-34 | the required section is checked as sent, before it is replaced, so a non-admin must send some section, and whatever they send is stored as their own |
| RecepcaoController.NumberParam | src/controllers/recepcaoController.ts:59 | a query number is parseInt of the text when the text is non-empty, and absent otherwise |
| RecepcaoController.DateParam | src/controllers/recepcaoController.ts:60-61 | a query date is present exactly when its text is non-empty, and keeps that text |
| RecepcaoController.TextParam | src/controllers/recepcaoController.ts:63 | a query text is passed through, and a missing one stays undefined |
| RecepcaoController.QueryFilters | src/controllers/recepcaoController.ts:58-73 | each filter is read from its own query parameter, with the page and limit given |
| RecepcaoController.Forced | src/controllers/recepcaoController.ts:76-78 | a non-admin's section is replaced by their own; every other filter is unchanged |
| RecepcaoController.ForceSection | src/controllers/recepcaoController.ts:76-78 | the filters become the forced ones, and for a non-admin the section filter holds their own section |
| RecepcaoController.ListingFilters | src/controllers/recepcaoController.ts:58-78 | the listing's filters have page 1 and limit 50 by default and hold a non-admin to their section |
| RecepcaoController.NonAdminListsOwnSection | src/controllers/recepcaoController.ts:76-80 | a non-admin's listing is always restricted to their section: the section condition is in the clause and its value is the first parameter |
| RecepcaoController.KeyOf | src/controllers/recepcaoController.ts:106-111 | the key passed to the service has section and line parsed as numbers and the date as written |
| RecepcaoController.GetRecepcaoById | src/controllers/recepcaoController.ts:95-139 | 400 for a missing parameter; the record is fetched before the section is checked, so a missing record is 404 whatever the section; then 403 for a non-admin and a record of another section |
| RecepcaoController.Guarded | src/controllers/recepcaoController.ts:141-265 | update, delete and close: 400 for a missing parameter, 403 with no service call for a non-admin whose path section is not theirs, and otherwise the one service call, 500 when it fails |
| RecepcaoController.GuardedCallsOwnSection | src/controllers/recepcaoController.ts:158-163 | a non-admin only ever reaches the service with their own section in the key |
| TabelasService.TableNamesClean | src/services/tabelasService.ts:32-34 | no table or column name used in the list queries holds a placeholder |
| TabelasService.PageOf | src/services/tabelasService.ts:27 | the page is the one given when it is a positive number; an absent, NaN, zero or negative page is 1 |
| TabelasService.LimitOf | src/services/tabelasService.ts:28 | the limit is the one given when it is a positive number, and 50 otherwise |
| TabelasService.Offset | src/services/tabelasService.ts:29 | the offset is the number of rows on the pages before this one, and is never negative |
| TabelasService.OffsetsTile | src/services/tabelasService.ts:29 | consecutive pages start `limit` rows apart, so the pages tile the result |
| TabelasService.BuildListWhere | src/services/tabelasService.ts:30-36 | without a search the clause keeps active records only and binds nothing; with one it adds the table's search and binds the upper-cased text and `%text%` |
| TabelasService.SearchBindsTwo | src/services/tabelasService.ts:34-35 | a search clause binds exactly its two values |
| TabelasService.TotalOf | src/services/tabelasService.ts:40 | the total is the count, or 0 when the count query returns no row or NULL |
| TabelasService.TotalPages | src/services/tabelasService.ts:50 | the page count is the least count whose pages hold every record |
| TabelasService.LastPageNotEmpty | src/services/tabelasService.ts:43-50 | with at least one record the last page starts before the last record |
| TabelasService.List | src/services/tabelasService.ts:26-51 | the count and data queries are the table's SELECTs over the active rows, narrowed by the code-or-description clause when searching; they bind no parameter, or the upper-cased term and the term wrapped in `%`; the result is the mapped rows in order, the total, the page and the page count |
| Js.ArrayMap | src/services/tabelasService.ts:49 | `rows.map(f)`: one result per element, in order, each f of its element |
| Js.ArrayMapAppend | src/services/tabelasService.ts:49 | mapping two lists in turn is mapping their concatenation |
| TabelasService.ListSqlAligned | src/services/tabelasService.ts:38-47 | neither list query adds a placeholder to the clause |
| TabelasService.MapCliente | src/services/tabelasService.ts:49-57 | a client's name and contacts are trimmed with NULL read as '', and its code is kept |
| TabelasService.MapArtigo | src/services/tabelasService.ts:108-114 | an article's description, unit and situation are trimmed with NULL read as '', and its code and section are kept |
| TabelasService.MapComposicao | src/services/tabelasService.ts:181 | a composition's description is trimmed with NULL read as '', and its code is kept |
| TabelasService.LookupStatement | src/services/tabelasService.ts:54 | the lookup selects the table's row by its code, binding the code once |
| TabelasService.Found | src/services/tabelasService.ts:56 | the first row found, or the table's not-found error when there is none |
| TabelasService.GetCliente | src/services/tabelasService.ts:53-58 | `Cliente não encontrado` exactly when no row matches, and otherwise the first row mapped |
| TabelasService.GetArtigo | src/services/tabelasService.ts:118-129 | `Artigo não encontrado` exactly when no row matches, and otherwise the first row mapped |
| TabelasService.GetComposicao | src/services/tabelasService.ts:185-190 | `Composição não encontrada` exactly when no row matches, and otherwise the first row mapped |
| TabelasService.CreateCliente | src/services/tabelasService.ts:60-64 | a new client binds its code and name, its contacts or '', and the situation `ACT` |
| TabelasService.CreateArtigo | src/services/tabelasService.ts:131-135 | a new article binds its code and description, and defaults the unit to `KG`, the situation to `ACT` and the section to 1 |
| TabelasService.CreateComposicao | src/services/tabelasService.ts:192-196 | a new composition binds its code, its description and the situation `ACT` |
| TabelasService.InsertAligned | src/services/tabelasService.ts:61 | an INSERT whose names hold no placeholder binds one value per entry of its VALUES list |
| TabelasService.InsertClienteAligned | src/services/tabelasService.ts:61-62 | the client INSERT binds exactly its four values |
| TabelasService.InsertArtigoAligned | src/services/tabelasService.ts:132-133 | the article INSERT binds exactly its five values |
| TabelasService.InsertComposicaoAligned | src/services/tabelasService.ts:193-194 | the composition INSERT binds exactly its three values |
| TabelasService.UpdateOutcome | src/services/tabelasService.ts:66-76 | nothing defined is the error `Nenhum campo para atualizar`; otherwise one SET field per defined entry in order, the values in the same order and then the code |
| TabelasService.PushIfDefined | src/services/tabelasService.ts:140-143 | one `if (x !== undefined) { fields.push(...); params.push(x) }` step keeps the field and value lists equal to those of the entries checked so far |
| TabelasService.UpdateStatement | src/services/tabelasService.ts:144-146 | after the pushes, no field is the error `Nenhum campo para atualizar`, and otherwise the statement is the update outcome of the entries |
| TabelasService.UpdateCliente | src/services/tabelasService.ts:66-76 | the client update is the outcome for its name and contacts, in that order |
| TabelasService.UpdateArtigo | src/services/tabelasService.ts:137-149 | the article update is the outcome for its description, unit, situation and section, in that order |
| TabelasService.UpdateComposicao | src/services/tabelasService.ts:198-208 | the composition update is the outcome for its description |
| TabelasService.UpdateAligned | src/services/tabelasService.ts:69-73 | every update a table issues binds exactly its values, one per SET field, then the code |
| TabelasService.EntriesClean | src/services/tabelasService.ts:140-143 | the three update bodies name only columns free of placeholders |
| Http.QueryNumber | src/controllers/tabelasController.ts:23-24 | an absent or empty query value gives the default, and any other is parseInt of its text; the receptions controller reads its page and limit the same way |
| TabelasController.ListFiltersOf | src/controllers/tabelasController.ts:23-26 | the filters passed to the service are the page, the limit and a search that is never empty |
| TabelasController.ListedPage | src/controllers/tabelasController.ts:23-26 | the page listed is the number in the query when it is positive, and otherwise 1; the limit likewise with 50 |
| TabelasController.SearchKept | src/controllers/tabelasController.ts:25 | dropping an empty search does not change whether the service searches |
| TabelasController.ValidateCreate | src/controllers/tabelasController.ts:47-49 | 400 `Dados inválidos` when the code is not a number or the name or description is empty, and nothing otherwise |
| TabelasController.CreateReply | src/controllers/tabelasController.ts:44-56 | a create is 400 for invalid data, 201 with the created record, or 500 when the service fails |
| TabelasController.GetReply | src/controllers/tabelasController.ts:34-42 | any failure of a lookup, not only a missing row, is 404 with the table's not-found text |
| TabelasController.MissingClienteIs404 | src/controllers/tabelasController.ts:34-42 | a client code with no row is answered 404 `Cliente não encontrado` |
| TabelasController.UpdateReply | src/controllers/tabelasController.ts:58-68 | an update replies with the updated record, or 500 for any failure of the service |
| TabelasController.EmptyUpdateIs500 | src/controllers/tabelasController.ts:58-68 | an update with no defined field is refused by the service and answered 500 |
| ReportService.DefaultTemplate | src/services/reportService.ts:198-376 | the built-in template has the id `recepcoes-default`, its fixed layout and styles, and is created and updated now |
| ReportService.GetTemplate | src/services/reportService.ts:152-162 | the stored template exactly when the folder is readable and the file is there and parses; the built-in template when the file is missing, unreadable or does not parse |
| ReportService.Find | src/services/reportService.ts:153-156 | a file is found exactly when the folder holds one of that name, and what is found is such a file's content |
| ReportService.Put | src/services/reportService.ts:165-168 | writing a file adds at most one file to the folder |
| ReportService.FindPut | src/services/reportService.ts:153-168 | a written file reads back as written, and every other file reads as before |
| ReportService.Stamp | src/services/reportService.ts:166 | a saved template keeps every field and takes the save time as its update time |
| ReportService.SaveTemplate | src/services/reportService.ts:164-169 | the stamped template is written to the file named after its id; the save fails where the directory does not exist |
| ReportService.SaveThenGet | src/services/reportService.ts:152-169 | a saved template reads back stamped, and every other template reads back as before |
| ReportService.FileNameInjective | src/services/reportService.ts:153-165 | different ids are stored in different files |
| ReportService.Parsed | src/services/reportService.ts:175-185 | the templates of the readable `.json` files that parse, in directory order |
| ReportService.ListTemplates | src/services/reportService.ts:171-191 | the parsed `.json` files, or the built-in template alone when the directory cannot be read |
| ReportService.ParsedFromJsonFiles | src/services/reportService.ts:177-180 | every listed template comes from a readable `.json` file of the directory |
| ReportService.ParsedIncludes | src/services/reportService.ts:177-180 | every readable `.json` file holding a template is listed |
| ReportService.SavedIsListed | src/services/reportService.ts:164-191 | after a save, the listing shows the saved template |
| ReportService.Subtract | src/services/reportService.ts:61-63 | `a - b` on numbers, and NaN exactly when either side is NaN |
| ReportService.StrictEqualsLaws | src/services/reportService.ts:66-68 | the `eq` helper is symmetric, reflexive for every value but NaN, and true only for equal values |
| ReportService.EachWithIndex | src/services/reportService.ts:71-77 | the output is each item's block in order, numbered from 1 |
| ReportService.IndexedSnoc | src/services/reportService.ts:73-75 | one more item adds its block at the end, numbered after the others |
| ReportService.ComputeTotals | src/services/reportService.ts:84-95 | the four totals are the sums over the records of pending rolls, pending weight, rolls and weight |
| ReportService.PendingIsReceivedLessDelivered | src/services/reportService.ts:84-95 | the pending totals are what was received less what was delivered, over any list of records |
| ReportService.RowFiguresAddUp | src/services/reportService.ts:85-86 | each row's `subtract` figure is that row's pending amount, so the footer's pending totals are the sums of the rows' figures |
| ReportService.RecepcoesReport | src/services/reportService.ts:80-105 | the template is looked up by id, the built-in one when none is given, and the report data holds exactly the records, the filters, the totals and the fixed titles |
| ReportController.ReportFiltersOf | src/controllers/reportController.ts:21-41 | reports read page 1 of 1000 records, with the query's filters and a non-admin held to their section |
| ReportController.ReportFilters | src/controllers/reportController.ts:21-41 | the filters built from the query, then the section forced for a non-admin, are the report filters |
| ReportController.PdfTemplateId | src/controllers/reportController.ts:43 | the download uses the template given, or `recepcoes-default` |
| ReportController.PreviewTemplateId | src/controllers/reportController.ts:112 | the preview uses the template given, or none |
| ReportController.PreviewMatchesDownload | src/controllers/reportController.ts:43-112 | for the same query the preview and the download end up with the same template |
| ReportController.RecepcoesPdf | src/controllers/reportController.ts:19-133 | the report shows exactly the records the listing returns for the report filters, with the template chosen; a failing listing is 500 with the handler's text |
| ReportController.DownloadNamedByDay | src/controllers/reportController.ts:54 | the download is named `recepcoes_<day>.pdf` after the date part of the timestamp |
| ReportController.FirstGiven | src/controllers/reportController.ts:72-73 | the path parameter when it is non-empty, and the query parameter otherwise |
| ReportController.ParamNumber | src/controllers/reportController.ts:72-73 | parseInt of a parameter, NaN when it is missing |
| ReportController.FaPdf | src/controllers/reportController.ts:70-86 | 400 when the section or number is 0 or not a number; otherwise the renderer with the template given or `fa-default`, and 500 when it fails |
| ReportController.GetActiveTemplate | src/controllers/reportController.ts:135-146 | 400 `Tipo inválido` exactly for a type other than recepcoes and fa; otherwise the stored id, or 500 when the store fails |
| ReportController.SetActiveTemplate | src/controllers/reportController.ts:148-159 | 400 exactly when the type is not recepcoes or fa or no template id is given; otherwise stored, or 500 when the store fails |
| ReportController.SaveTemplateHandler | src/controllers/reportController.ts:196-221 | 400 unless id, name and template are given; then the template is written stamped, and 500 when the directory is missing |
| ReportController.NewTemplate | src/controllers/reportController.ts:234-276 | the starter template takes the id `recepcoes-<time>`, the name given, the description or '', and the starter layout |
| ReportController.CreateTemplate | src/controllers/reportController.ts:223-292 | 400 without a name; otherwise the starter template is saved and the reply shows it as saved, stamped; 500 when the directory is missing |
| ReportController.CreatedTemplateReadsBack | src/controllers/reportController.ts:234-284 | a created template is the one then read back by its id, and it is listed |
| JasperService.Given | src/services/jasperReportService.ts:25-30 | the candidates that are given and non-empty, in their order |
| JasperService.GivenHead | src/services/jasperReportService.ts:25-30 | the first candidate stays first when it is given, and is dropped otherwise |
| JasperService.StarterBin | src/services/jasperReportService.ts:25-32 | the binary is the environment's JASPER_STARTER_BIN when set and non-empty, and /usr/bin/jasperstarter otherwise |
| JasperService.Resolve | src/services/jasperReportService.ts:34-35 | an absolute path stands as it is, and a relative one is placed under the working directory |
| JasperService.TemplatesDir | src/services/jasperReportService.ts:33-35 | the templates directory is the environment's JASPER_TEMPLATES_DIR when set, else `src/templates/jasper`, resolved against the working directory |
| JasperService.ReportCandidates | src/services/jasperReportService.ts:82-83 | a report is looked for under `compiled/` first and then in the directory itself, `.jasper` before `.jrxml` each time |
| JasperService.FirstExisting | src/services/jasperReportService.ts:84-89 | the index of the first candidate present, and none when no candidate is present |
| JasperService.ResolveReportPath | src/services/jasperReportService.ts:80-91 | the first candidate present, or the not-found error naming the report and the directory |
| JasperService.FirstIsUnique | src/services/jasperReportService.ts:84-89 | the path chosen is present and every candidate before it is missing |
| JasperService.SourceArgs | src/services/jasperReportService.ts:51-58 | a JSON source adds `-t json -i <file>`, then `--json-query <q>` only when a query is given |
| JasperService.PairArgs | src/services/jasperReportService.ts:64-65 | `-P key=value` for each entry, in order |
| JasperService.PairArgsShape | src/services/jasperReportService.ts:64-65 | every pair is the flag `-P` followed by `key=value` |
| JasperService.Parameters | src/services/jasperReportService.ts:61-67 | the loop pushes a `-P` pair for each defined parameter, in order, and skips the undefined ones |
| JasperService.ParameterPassed | src/services/jasperReportService.ts:61-67 | each defined parameter appears on the command line as its `key=value` argument |
| JasperService.ArgumentFromParameter | src/services/jasperReportService.ts:61-67 | conversely, each `-P` pair on the command line is `key=value` of a defined parameter |
| JasperService.NumberArgument | src/services/jasperReportService.ts:65 | a numeric parameter reaches the command line as `key=<decimal>` |
| JasperService.BuildArgs | src/services/jasperReportService.ts:47-67 | the command line is the base arguments, then the data source, then the parameters |
| JasperService.BaseName | src/services/jasperReportService.ts:72 | the base name is the text after the last `/` |
| JasperService.OutputNamedAfterReport | src/services/jasperReportService.ts:72 | the PDF of a report found as `<dir>/<name>.jasper` is `<out>/<name>.pdf` |
| JasperService.ExitOutcome | src/services/jasperReportService.ts:111-114 | exit code 0 is success; any other is an error naming the code and the error output |
| JasperService.JasperReportService.constructor | src/services/jasperReportService.ts:23-36 | the service takes the binary and the templates directory from the environment and the working directory |
| JasperService.JasperReportService.RenderPdf | src/services/jasperReportService.ts:38-78 | succeeds exactly when the binary is present, some report file is present and the process exits with 0; a success ran the binary on the first report found with the built command line, wrote the JSON data when the source is JSON, and names the PDF after the report |
| JasperController.ErrorText | src/controllers/jasperReportController.ts:69 | the error's message when it has one, and the handler's fallback text otherwise |
| JasperController.TemplateOr | src/controllers/jasperReportController.ts:45 | the template given when non-empty, and the default otherwise |
| JasperController.RecepcoesJasper | src/controllers/jasperReportController.ts:22-71 | the listing uses the report filters, page 1 of 1000 with a non-admin held to their section, and is rendered from a document whose `data` is exactly that listing, queried as `data`; any failure is 500 |
| JasperController.RenderRecepcoes | src/controllers/jasperReportController.ts:45-70 | a failed listing is a 500 with nothing rendered; otherwise the renderer receives the template (default `recepcoes`) and a document holding the filters and the listing, and its PDF or its failure is the reply |
| JasperController.RecepcoesCommandLine | src/controllers/jasperReportController.ts:57-61 | the reception report passes no parameters, so its command line ends with the JSON query |
| JasperController.MapItem | src/controllers/jasperReportController.ts:106-116 | each item keeps the row's key and quantities, and its texts are trimmed with NULL read as '' |
| JasperController.MapItems | src/controllers/jasperReportController.ts:106 | one item per row, in the query's order |
| JasperController.FaTotals | src/controllers/jasperReportController.ts:118-122 | the totals are the sums of the items' rolls and weights, NULL counted as 0 |
| JasperController.TotalsIgnoreNulls | src/controllers/jasperReportController.ts:119-120 | a sheet's totals count only the quantities that are present |
| JasperController.FaParams | src/controllers/jasperReportController.ts:128-137 | the report parameters are the header's six columns as read, then the two totals |
| JasperController.TotalsPassed | src/controllers/jasperReportController.ts:135-136 | the totals always reach the command line as `total_rolos=<n>` and `total_pesos=<n>` |
| JasperController.SheetKey | src/controllers/jasperReportController.ts:76-80 | both keys are parseInt of the path or else the query parameter, and are accepted only when both are non-zero numbers |
| JasperController.RenderReply | src/controllers/jasperReportController.ts:143-146 | the PDF, or 500 with the renderer's message or the fallback text |
| JasperController.FaOptions | src/controllers/jasperReportController.ts:124-139 | the sheet is rendered with the header and totals as parameters and the items as the JSON source, queried as `items` |
| JasperController.FaJasper | src/controllers/jasperReportController.ts:74-148 | 400 for a missing, zero or non-numeric section or number, 404 when the header finds no sheet, otherwise the items and totals rendered with the template given or `fa`; any failure is 500 |
| ProcessosController.Column | src/controllers/processosController.ts:85 | a column reads as its value, and as undefined when the row lacks it |
| ProcessosController.Transform | src/controllers/processosController.ts:83-110 | the record holds each listed column of the row under its lower-case name |
| ProcessosController.UpperLower | src/controllers/processosController.ts:85 | lower-casing a name without lower-case letters is undone by upper-casing it |
| ProcessosController.TransformKeysReadBack | src/controllers/processosController.ts:83-110 | the renaming loses nothing: each key upper-cased gives back the column it was read from, with that column's value |
| ProcessosController.SheetParams | src/controllers/processosController.ts:50-70 | a sheet's key is the user's section, or 1, and parseInt of the number |
| ProcessosController.GetFichaEntrada | src/controllers/processosController.ts:47-124 | 400 without a number; otherwise OBTER_FICHAS_ENTRADA for the user's section and that number, 404 when it returns no row, else the first row with lower-case keys; a failing query is 500 |
| ProcessosController.TransformAll | src/controllers/processosController.ts:155-166 | one record per row, in order |
| ProcessosController.GetFichaProcessos | src/controllers/processosController.ts:127-180 | 400 without a number; otherwise the process lines of the user's section and that number, with lower-case keys; an empty list is a success like any other |
| ProcessosController.NoProcessesIsEmptySuccess | src/controllers/processosController.ts:150-170 | a sheet without process lines lists as an empty success |
| ProcessosController.AddProcesso | src/controllers/processosController.ts:243-311 | 400 unless both the sheet number and the process are given; then exactly one GRAVA_FA_PROCESSOS call with the user's section and the request's values; a failing call is 500 |
| ProcessosController.AddIgnoresMeasures | src/controllers/processosController.ts:284-295 | the grammage and measures of a request never change what is written |
| ProcessosController.RemoveProcesso | src/controllers/processosController.ts:314-363 | 400 unless both the sheet number and the line are given; otherwise that line of the user's section is deleted |
| ProcessosController.RemoveFichaEntrada | src/controllers/processosController.ts:366-413 | 400 without a number; otherwise the sheet of the user's section is deleted |
| ProcessosController.GetUltimaFa | src/controllers/processosController.ts:426-440 | the first row's ULTIMA_FA and ULTIMA_DATA, and null for both when the query returns no row |
| GenerateModels.ServerOf | scripts/generate-models.js:11 | the server is BD_Servidor when non-empty, and `localhost/3050` otherwise |
| GenerateModels.ScriptPort | scripts/generate-models.js:12 | the port is parseInt of the text after the first `/` when that text is present and non-empty, and parseInt of 3050 otherwise |
| GenerateModels.ScriptAgreesWithServer | scripts/generate-models.js:11-12 | the script and the server always agree on the host, and on the port whenever the port text parses to a non-zero number |
| GenerateModels.LoadScriptConfig | scripts/generate-models.js:6-17 | a file without a Producao section fails; otherwise the host is the server up to the first `/`, the port as above and the path is BD_Path |
| GenerateModels.MapTypeAsWritten | scripts/generate-models.js:46-67 | the type table as written: 14 typed as a date and 35 falling to string |
| GenerateModels.AsWrittenMistypesTimestamps | scripts/generate-models.js:57-65 | a TIMESTAMP column, code 35, is typed as a plain string, and a fixed-length CHAR column, code 14, as a date |
| GenerateModels.MapType | scripts/generate-models.js:46-67 | numbers for the integer and floating codes, a date for 12 and 35, a string for time, text and blobs and any other code |
| GenerateModels.MapTypeMatchesDescription | scripts/generate-models.js:46-67 | the corrected table types a column as a date exactly when the type report names a date type |
| GenerateModels.Capitalize | scripts/generate-models.js:73 | the first character is upper-cased and the rest kept |
| GenerateModels.OneWordName | scripts/generate-models.js:69-75 | a table name without `_` is one word, lower-cased with its first letter raised |
| GenerateModels.InterfaceNameCons | scripts/generate-models.js:69-75 | each `_`-separated word of a table name becomes one capitalised word of the interface name |
| GenerateModels.ModelsTextAppend | scripts/generate-models.js:88-104 | under any type table, adding tables to the metadata appends their interfaces and changes nothing written before them |
| GenerateModels.ColumnsBody | scripts/generate-models.js:98-102 | one line per column, in order, each typed by the script's own table |
| GenerateModels.HeaderFirst | scripts/generate-models.js:86 | under any type table, the file is the header followed by the interfaces |
| GenerateModels.InterfaceOf | scripts/generate-models.js:97-103 | one table's interface is its head, its column lines typed by the script's table and a closing brace |
| GenerateModels.GenerateText | scripts/generate-models.js:86-104 | the file is the header, then for each table in order its interface, typed by the script's table |
| GenerateModels.ColumnLine | scripts/generate-models.js:100 | two spaces, the trimmed column name, `: `, the column's type under the given table and `;` ending the line |
| GenerateModels.WrittenMatchesIntendedOffTimestamps | scripts/generate-models.js:57-65 | with no CHAR or TIMESTAMP column the script writes the corrected file, and a TIMESTAMP column's line says string where the corrected one says Date |
| VisualReports.SourceFields | src/routes/visualReports.ts:10-54 | a fixed field list for `producao` and for `gescom`, and none for any other source |
| VisualReports.Sanitize | src/routes/visualReports.ts:91 | every character outside a-z and 0-9 becomes `-` |
| VisualReports.FileName | src/routes/visualReports.ts:91 | the file name is as long as the report's name, a `-`, the id and `.json` together |
| VisualReports.SanitizeSafe | src/routes/visualReports.ts:91 | sanitising keeps the length, uses only safe characters and is idempotent |
| VisualReports.FileNameCarriesId | src/routes/visualReports.ts:91 | a saved file ends in `.json` and holds its id, so the listing and the lookup by id both see it |
| VisualReports.TokenClaims | src/controllers/authController.ts:50-57 | the claims a login signs are exactly id, username, role, seccao and isAdmin |
| VisualReports.Claim | src/routes/visualReports.ts:63 | a claim the token carries reads as its value, and one it lacks as undefined |
| VisualReports.Write | src/routes/visualReports.ts:79-100 | the id is the clock, and the file is named after the report's name and that id |
| VisualReports.SaveAsWritten | src/routes/visualReports.ts:58-108 | 403 unless the `administrador` claim is `S`; a file is written exactly when that claim is `S` and the report has a name, and then as Write says |
| VisualReports.LoginTokensCannotSave | src/routes/visualReports.ts:63 | no token a login issues carries `administrador`, so nobody, administrators included, can save |
| VisualReports.Save | src/routes/visualReports.ts:58-108 | the save gated on the `isAdmin` claim that tokens do carry |
| VisualReports.AdminsCanSave | src/routes/visualReports.ts:63 | with the `isAdmin` gate, a logged-in user with a named report saves exactly when an administrator |
| VisualReports.Listed | src/routes/visualReports.ts:118-140 | at most one summary per file of the directory |
| VisualReports.ListedFromJsonFiles | src/routes/visualReports.ts:120-124 | every listed report comes from a `.json` file of the directory that read successfully |
| VisualReports.ListReports | src/routes/visualReports.ts:111-160 | a directory that cannot be read lists nothing; otherwise the listed summaries |
| VisualReports.FindReport | src/routes/visualReports.ts:170 | the first file whose name contains the id, and none when no file does |
| VisualReports.SavedReportIsFound | src/routes/visualReports.ts:170 | a report saved in the directory is always found by its id, possibly behind another file that also names it |
| VisualReports.ReportRows | src/routes/visualReports.ts:186-220 | for `producao`, the query's rows, or the example row when the query fails; for any other source, no rows |
| VisualReports.NoPagePlaceholdersLeft | src/routes/visualReports.ts:226-230 | whatever the title and the date say, no page-number placeholder is left after the replacements |
| VisualReports.Cells | src/routes/visualReports.ts:234-245 | eight cells per row: '' for a missing section, 0 for a missing pending quantity or length, and the formatted entry date or '' |
| VisualReports.ReplaceBlocksAbsent | src/routes/visualReports.ts:248-251 | HTML without an opening tag is left as it is |
| VisualReports.FillTable | src/routes/visualReports.ts:233-270 | the table is rewritten only when there are rows and the HTML has a `data-table` |
| VisualReports.GenerateHtml | src/routes/visualReports.ts:163-251 | 404 when no file names the id; a success comes only from the found file, read and with text html, and is that html with the title and date substituted and its table filled from the report's rows |
| FichasAcabamentoPage.Pending | client/src/pages/FichasAcabamento.tsx:94-95 | the pending quantity is the total less what was delivered, with missing values as 0, and never below 0 |
| FichasAcabamentoPage.Quantity | client/src/pages/FichasAcabamento.tsx:103-112 | an answer is accepted exactly when it reads as a number between 0 and the pending quantity, and is then that number |
| FichasAcabamentoPage.Without | client/src/pages/FichasAcabamento.tsx:123 | the selection keeps exactly the items that are not on the movement's line (section, date and line) |
| FichasAcabamentoPage.WithoutIsFilter | client/src/pages/FichasAcabamento.tsx:123 | removing a line is `selected.filter` over the other lines, so the kept items stay in their order |
| FichasAcabamentoPage.WithoutUnpicked | client/src/pages/FichasAcabamento.tsx:123 | removing a line that is not selected leaves the selection as it was |
| FichasAcabamentoPage.WithoutKeepsUnique | client/src/pages/FichasAcabamento.tsx:123 | removal keeps each line selected at most once and leaves the removed line unselected |
| FichasAcabamentoPage.AddKeepsUnique | client/src/pages/FichasAcabamento.tsx:93-113 | appending a line that is not yet selected keeps each line selected at most once |
| FichasAcabamentoPage.FichaSelection.constructor | client/src/pages/FichasAcabamento.tsx:22-28 | the page starts with nothing selected, no client filter and page 1 |
| FichasAcabamentoPage.FichaSelection.Restore | client/src/pages/FichasAcabamento.tsx:65-78 | a stored array becomes the selection and a stored client its number; empty texts count as absent and a text that does not parse stops the restore |
| FichasAcabamentoPage.FichaSelection.RestoreCliente | client/src/pages/FichasAcabamento.tsx:75 | a stored non-empty client text becomes `Number` of it, and with none stored the client is kept |
| FichasAcabamentoPage.FichaSelection.Persist | client/src/pages/FichasAcabamento.tsx:80-90 | a non-empty selection is stored, with the client when one is set; an empty one removes both keys |
| FichasAcabamentoPage.FichaSelection.AddToFicha | client/src/pages/FichasAcabamento.tsx:92-120 | a line already selected, a cancelled prompt or an invalid quantity changes nothing; otherwise the line is appended with the quantities given, the first line also fixing the client and returning to page 1; lines stay unique |
| FichasAcabamentoPage.FichaSelection.RemoveFromFicha | client/src/pages/FichasAcabamento.tsx:122-131 | the line leaves the selection; emptying it clears the client and returns to page 1; lines stay unique |
| FichasAcabamentoPage.FichaSelection.ClearFilter | client/src/pages/FichasAcabamento.tsx:133-137 | the client filter is cleared and page 1 shown |
| SearchModal.Filter | client/src/components/SearchModal.tsx:121-124 | the kept elements are exactly those of the list that satisfy the test |
| SearchModal.FilterIsSubsequence | client/src/components/SearchModal.tsx:121-124 | filtering keeps the list's order |
| SearchModal.FilterKeepsAll | client/src/components/SearchModal.tsx:121-124 | when every element passes, the list is kept whole |
| SearchModal.DedupFromMembers | client/src/components/SearchModal.tsx:71-73 | the scan keeps only options of the list whose codes were not already seen |
| SearchModal.DedupFromCodes | client/src/components/SearchModal.tsx:71-73 | the scan keeps exactly the codes of the list not already seen |
| SearchModal.DedupFromUniqueCodes | client/src/components/SearchModal.tsx:71-73 | the scan keeps each code once |
| SearchModal.DedupFromAppend | client/src/components/SearchModal.tsx:71-73 | scanning two parts in turn is scanning the first, then the second with the first's codes already seen |
| SearchModal.DedupFromIsFirstOccurrences | client/src/components/SearchModal.tsx:71-73 | the scan keeps exactly the options no earlier option shares a code with, in order |
| SearchModal.FirstOccurrencesMembers | client/src/components/SearchModal.tsx:71-73 | an option is among the first occurrences exactly when it stands at a position no earlier option shares its code with |
| SearchModal.Dedup | client/src/components/SearchModal.tsx:71-73 | the kept options are the list's first occurrences of each code, in order: exactly the codes of the list, each once |
| SearchModal.DedupFromIsSubsequence | client/src/components/SearchModal.tsx:71-73 | removing duplicates keeps the list's order |
| SearchModal.DedupKeepsFirst | client/src/components/SearchModal.tsx:71-73 | an option is kept exactly when it is the first of its code in the list, and the list's first option stays first |
| SearchModal.DedupFromUnique | client/src/components/SearchModal.tsx:71-73 | a list with distinct codes is kept whole |
| SearchModal.DedupIdempotent | client/src/components/SearchModal.tsx:71-73 | removing duplicates twice is removing them once |
| SearchModal.Filtered | client/src/components/SearchModal.tsx:113-132 | a blank term shows every option; otherwise only options whose field contains the normalised term, each code once |
| SearchModal.FilteredIsSubsequence | client/src/components/SearchModal.tsx:113-132 | the results keep the options' order |
| SearchModal.FilteredCoversMatches | client/src/components/SearchModal.tsx:113-132 | every matching option's code appears among the results |
| SearchModal.SubsequenceTransitive | client/src/components/SearchModal.tsx:121-129 | filtering a filtered list still keeps the original's order |
| SearchModal.Shown | client/src/components/SearchModal.tsx:187 | at most the first 100 results are shown, and all of them when there are no more |
| SearchModal.TruncatedIffRowsHidden | client/src/components/SearchModal.tsx:207 | the "more results" notice appears exactly when some results are not shown |
| SearchModal.SearchModalState.constructor | client/src/components/SearchModal.tsx:29-32 | the modal starts with an empty term, no options and page 1 |
| SearchModal.SearchModalState.LoadOptions | client/src/components/SearchModal.tsx:62-88 | the loaded options without duplicate codes, or none when the request fails |
| SearchModal.SearchModalState.OpenChanged | client/src/components/SearchModal.tsx:90-98 | opening loads the options and keeps the term; closing clears the term and the options and returns to page 1 |
| SearchModal.SearchModalState.HandleSelect | client/src/components/SearchModal.tsx:100-103 | the option is passed to onSelect and then the modal closed, in that order |
| ProcessSearchModal.Filtered | client/src/components/ProcessSearchModal.tsx:84-100 | a blank term shows every option; otherwise exactly the options whose description (for processes) or colour code or knit (for colours) contains the normalised term |
| ProcessSearchModal.FilteredIsSubsequence | client/src/components/ProcessSearchModal.tsx:84-100 | the results keep the options' order, and at most 100 are shown |
| ProcessSearchModal.AllMatchingKeepsAll | client/src/components/ProcessSearchModal.tsx:91-100 | when every option matches, all are shown |
| ProcessSearchModal.ProcessSearchState.constructor | client/src/components/ProcessSearchModal.tsx:21-22 | the modal starts with an empty term and no options |
| ProcessSearchModal.ProcessSearchState.OpenChanged | client/src/components/ProcessSearchModal.tsx:46-69 | opening loads `data || []`, or nothing when the request fails, and keeps the term; closing clears the term and the options |
| OperacoesPage.OperacaoDetalhada | client/src/pages/tinturaria/OperacoesPage.tsx:84-91 | the operation followed by the machine's description when there is one, else by the sheet and process when both are given; `operacao || 'Operação'` without details |
| OperacoesPage.LeituraFor | client/src/pages/tinturaria/OperacoesPage.tsx:93-112 | the reading keeps the code and time; a failed request is an "Erro" reading with the error's message; otherwise the detailed operation, successful exactly when the answer says so, with the answer's message or 'Gravação OK: ' and the random number |
| OperacoesPage.Pushed | client/src/pages/tinturaria/OperacoesPage.tsx:101 | the new reading goes first and at most 10 readings are kept, the rest being the newest of the old ones |
| OperacoesPage.LogAfterIsLatest | client/src/pages/tinturaria/OperacoesPage.tsx:101-115 | after any run of readings the log holds the latest ten, newest first |
| OperacoesPage.RowColor | client/src/pages/tinturaria/OperacoesPage.tsx:129-140 | red for a free machine (sheet 0), green for an entry, yellow for an exit, white otherwise, tested in that order |
| OperacoesPage.FormatValue | client/src/pages/tinturaria/OperacoesPage.tsx:142-144 | zero is shown as empty and any other value as its decimal text |
| OperacoesPage.FormatValueRoundTrip | client/src/pages/tinturaria/OperacoesPage.tsx:142-144 | the text is empty exactly for zero, and reading any other value's text back gives the value |
| OperacoesPage.OperacoesState.constructor | client/src/pages/tinturaria/OperacoesPage.tsx:27-31 | the page starts with no code, no readings, no machines and not connected |
| OperacoesPage.OperacoesState.LoadMaquinasStatus | client/src/pages/tinturaria/OperacoesPage.tsx:56-65 | a successful answer replaces the machines (`data || []`) and marks the page connected; a failure keeps them and marks it disconnected |
| OperacoesPage.OperacoesState.ProcessBarCode | client/src/pages/tinturaria/OperacoesPage.tsx:67-119 | a blank code does nothing; otherwise the reading is pushed on the log, and the machines are refreshed only after a successful request; the log never grows past 10 |
| OperacoesPage.OperacoesState.HandleEnter | client/src/pages/tinturaria/OperacoesPage.tsx:121-127 | Enter processes the typed code and clears the field |
| ReportDesigner.ViewFor | client/src/pages/admin/SimpleReportDesigner.tsx:19-25 | the designer is shown exactly to administrators; anyone else sees the restricted-access message |
| ReportDesigner.DefaultStyle | client/src/pages/admin/SimpleReportDesigner.tsx:76-87 | a text element gets only padding; header, footer and table get their own three- or four-property styles |
| ReportDesigner.Updated | client/src/pages/admin/SimpleReportDesigner.tsx:89-93 | the elements with the id get the new content and every other element is kept, in place |
| ReportDesigner.UpdatedKeepsShape | client/src/pages/admin/SimpleReportDesigner.tsx:89-93 | an update never changes an element's id, type or style |
| ReportDesigner.Deleted | client/src/pages/admin/SimpleReportDesigner.tsx:96 | the kept elements are exactly those with another id |
| ReportDesigner.DeletedIsSubsequence | client/src/pages/admin/SimpleReportDesigner.tsx:96 | deletion keeps the elements' order |
| ReportDesigner.Kebab | client/src/pages/admin/SimpleReportDesigner.tsx:144 | a style key becomes a CSS name without upper-case letters |
| ReportDesigner.KebabRoundTrip | client/src/pages/admin/SimpleReportDesigner.tsx:144 | for a key made of letters, turning the CSS name back into camel case gives the key again, so distinct keys give distinct CSS names |
| ReportDesigner.StyleParts | client/src/pages/admin/SimpleReportDesigner.tsx:143-145 | one `name: value` declaration per style entry, in order |
| ReportDesigner.ProcessedContent | client/src/pages/admin/SimpleReportDesigner.tsx:129-141 | the page placeholders are replaced in every element and the example data only in tables |
| ReportDesigner.NoPagePlaceholdersOutsideTables | client/src/pages/admin/SimpleReportDesigner.tsx:130-134 | outside tables no page-number placeholder survives the replacements |
| ReportDesigner.ElementParts | client/src/pages/admin/SimpleReportDesigner.tsx:128-150 | one `div` per element, in order |
| ReportDesigner.GenerateHtmlAppend | client/src/pages/admin/SimpleReportDesigner.tsx:128-151 | adding an element appends its `div` on a new line and changes nothing before it |
| ReportDesigner.DesignerState.constructor | client/src/pages/admin/SimpleReportDesigner.tsx:14-17 | a new report is named "Novo Report", has no elements and no selection, and reads from `producao` |
| ReportDesigner.DesignerState.AddElement | client/src/pages/admin/SimpleReportDesigner.tsx:27-36 | the new element, with the clock as id and its type's default content and style, is appended |
| ReportDesigner.DesignerState.UpdateElement | client/src/pages/admin/SimpleReportDesigner.tsx:89-93 | the elements become their update |
| ReportDesigner.DesignerState.DeleteElement | client/src/pages/admin/SimpleReportDesigner.tsx:95-100 | the element is removed, and so is the selection when it was that element |
| Sidebar.Toggled | client/src/components/layout/Sidebar.tsx:18-24 | an expanded section is collapsed, a collapsed one appended; no other section changes |
| Sidebar.ToggleTwice | client/src/components/layout/Sidebar.tsx:18-24 | toggling twice restores which sections are expanded, and the list itself when the section was collapsed |
| Sidebar.VisibleSections | client/src/components/layout/Sidebar.tsx:80-87 | the shown sections are exactly those the user may see |
| Sidebar.NoAdminSectionForOthers | client/src/components/layout/Sidebar.tsx:85 | a user who is not an administrator never sees the administration section |
| Sidebar.SidebarState.constructor | client/src/components/layout/Sidebar.tsx:14 | the administration section starts expanded |
| Sidebar.SidebarState.ClickSection | client/src/components/layout/Sidebar.tsx:93 | a click toggles the section, except when the bar is collapsed |
| EntregasPage.SaldoRolos | client/src/pages/tinturaria/EntregasPage.tsx:90 | the balance plus the rolls delivered (0 when missing) is the rolls received |
| EntregasPage.AllDeliveredIffNoBalance | client/src/pages/tinturaria/EntregasPage.tsx:334 | the "all delivered" notice appears exactly when no rolls remain to deliver |
| EntregasPage.EntregaBody | client/src/pages/tinturaria/EntregasPage.tsx:147-152 | the rolls typed, or 0 when empty, the weight, the chosen state's id and the notes |
| EntregasPage.EntregasState.constructor | client/src/pages/tinturaria/EntregasPage.tsx:34-43 | the page starts with no sheet, no error and an empty form |
| EntregasPage.EntregasState.HandleSearch | client/src/pages/tinturaria/EntregasPage.tsx:73-111 | a blank number is an error; a found sheet is shown with its roll balance proposed and the weight cleared, and the "no more rolls" notice when all were delivered; otherwise "not found" or the search error, with no sheet |
| EntregasPage.EntregasState.ClearForm | client/src/pages/tinturaria/EntregasPage.tsx:126-131 | the delivery form is emptied |
| EntregasPage.EntregasState.HandleClearScreen | client/src/pages/tinturaria/EntregasPage.tsx:119-124 | the number, the sheet, the error and the form are all cleared |
| EntregasPage.EntregasState.HandleUpdateEntrega | client/src/pages/tinturaria/EntregasPage.tsx:133-169 | nothing without a sheet; an error without a weight or a state; otherwise exactly that body for that sheet is sent; a success reloads the sheet as the search does (its balance proposed, or the not-found or failure error), while a refusal or a failure sets its error and keeps the sheet and the quantities |
| ProcessosPage.FillIfEmpty | client/src/pages/tinturaria/ProcessosPage.tsx:167-172 | a typed value is kept; an empty one takes the sheet's value, as text that reads back as it |
| ProcessosPage.FillIfEmptyIdempotent | client/src/pages/tinturaria/ProcessosPage.tsx:167-172 | selecting a process again changes no quantity |
| ProcessosPage.AddBody | client/src/pages/tinturaria/ProcessosPage.tsx:200-208 | the process id, the colour id or null, and the typed quantities, notes, grammage and measures |
| ProcessosPage.AddBodyMeasuresIgnored | client/src/pages/tinturaria/ProcessosPage.tsx:206-207 | the grammage and measures the page sends never reach the stored procedure |
| ProcessosPage.FaSegment | client/src/pages/tinturaria/ProcessosPage.tsx:198 | the sheet's number in the address, and `undefined` when no sheet is loaded |
| ProcessosPage.ProcessosState.constructor | client/src/pages/tinturaria/ProcessosPage.tsx:47-67 | the page starts empty, with no last sheet known |
| ProcessosPage.ProcessosState.LoadProcessos | client/src/pages/tinturaria/ProcessosPage.tsx:88-101 | the sheet's process lines on success, and none otherwise |
| ProcessosPage.ProcessosState.HandleSearch | client/src/pages/tinturaria/ProcessosPage.tsx:105-135 | a blank number is an error; a found sheet is shown with its process lines; otherwise "not found" or the search error, with no sheet and no lines |
| ProcessosPage.ProcessosState.ClearForm | client/src/pages/tinturaria/ProcessosPage.tsx:150-158 | the process, the colour and every field of the form are cleared |
| ProcessosPage.ProcessosState.HandleClearScreen | client/src/pages/tinturaria/ProcessosPage.tsx:142-148 | the number, the sheet, the lines, the error and the form are cleared; the last sheet stays |
| ProcessosPage.ProcessosState.HandleProcessoSelect | client/src/pages/tinturaria/ProcessosPage.tsx:160-173 | the process is selected and empty quantities take the sheet's |
| ProcessosPage.ProcessosState.HandleCorSelect | client/src/pages/tinturaria/ProcessosPage.tsx:175-181 | the colour is selected, with an empty knit when it has none |
| ProcessosPage.ProcessosState.HandleAddProcesso | client/src/pages/tinturaria/ProcessosPage.tsx:183-228 | an error without a process or without both quantities; otherwise exactly that body for the sheet is sent; a success clears every form field and reloads the lines, while every error path keeps the form fields and the lines |
| ProcessosPage.ProcessosState.HandleRemoveProcesso | client/src/pages/tinturaria/ProcessosPage.tsx:230-260 | a line is removed only with a sheet and a confirmation; a success reloads the lines, a refusal or a failure sets its error |
| ProcessosPage.ProcessosState.LoadUltimaFa | client/src/pages/tinturaria/ProcessosPage.tsx:300-312 | a successful answer replaces the last sheet; anything else keeps it |
| ProcessosPage.ProcessosState.HandleRemoveFichaEntrada | client/src/pages/tinturaria/ProcessosPage.tsx:262-298 | a sheet is removed only when loaded and confirmed; a success clears the screen and reloads the last sheet, a refusal or a failure sets its error |
| RecepcaoPage.PrevPage | client/src/pages/Recepcao.tsx:506 | one page back, never before page 1 |
| RecepcaoPage.NextPage | client/src/pages/Recepcao.tsx:514 | one page on, never past the last page, and the last page from any page at or beyond it |
| RecepcaoPage.PagingStaysInRange | client/src/pages/Recepcao.tsx:506-514 | from a page in range both buttons stay in range, and going on then back (or back then on) returns to the same page |
| RecepcaoPage.PendingRolos | client/src/pages/Recepcao.tsx:446 | the rolls pending plus those delivered are the rolls received |
| RecepcaoPage.PendingPesos | client/src/pages/Recepcao.tsx:454 | the weight pending plus that delivered is the weight received |
| RecepcaoPage.Flagged | client/src/pages/Recepcao.tsx:462-466 | the treatments whose flag is `S`, each exactly when flagged, in the order bleach, desize, dye |
| RecepcaoPage.FlaggedSubsequence | client/src/pages/Recepcao.tsx:462-466 | the flagged treatments keep the fixed order |
| RecepcaoPage.ProcessLabel | client/src/pages/Recepcao.tsx:462-466 | `-` exactly when no treatment is flagged; otherwise the list begins with the first flagged treatment |
| RecepcaoPage.DatePart | client/src/pages/Recepcao.tsx:190 | the date up to the first `T`, a prefix of the timestamp without any `T` |
| RecepcaoPage.SplitHeadIsPrefix | client/src/pages/Recepcao.tsx:190 | the first piece of a split is a prefix that ends at the first separator |
| RecepcaoPage.DatePartOfDate | client/src/pages/Recepcao.tsx:190 | a plain date is kept as it is |
| RecepcaoPage.EmptyForm | client/src/pages/Recepcao.tsx:299-320 | section 1, today's date, every code and quantity 0 (including grammage, measures and delivered rolls and weights), every text empty and no treatment flagged |
| RecepcaoPage.FormOf | client/src/pages/Recepcao.tsx:185-207 | the form holds every field of the lot (codes, descriptions, quantities, grammage, measures, deliveries, flags), its date without the time and its requisition or '' |
| RecepcaoPage.FindEntry | client/src/pages/Recepcao.tsx:323-341 | the first entry with the code, and none when no entry has it |
| RecepcaoPage.LookupText | client/src/pages/Recepcao.tsx:322-347 | the found entry's text, and '' for an unknown code |
| RecepcaoPage.Get | client/src/pages/Recepcao.tsx:116-123 | the value sent under a key, and none when the key is not sent |
| RecepcaoPage.GetAppend | client/src/pages/Recepcao.tsx:116-123 | a key of the first part of the query is read from it, any other from the rest |
| RecepcaoPage.Optional | client/src/pages/Recepcao.tsx:119-122 | a filter is sent only when it is non-empty |
| RecepcaoPage.QueryParams | client/src/pages/Recepcao.tsx:116-123 | page and limit come first and every filter sent is non-empty |
| RecepcaoPage.GetQueryParams | client/src/pages/Recepcao.tsx:116-123 | page and limit read back as sent, each of the four filters reads back when non-empty, and nothing else is sent |
| RecepcaoPage.QueryParamsReadBack | client/src/pages/Recepcao.tsx:116-125 | the server receives exactly the page, the limit and the non-empty filters |
| RecepcaoPage.ListingQueryRoundTrip | client/src/pages/Recepcao.tsx:116-125 | the server lists the page asked for, 10 per page, with the page's name, requisition and date filters |
| RecepcaoPage.RecepcaoState.constructor | client/src/pages/Recepcao.tsx:45-88 | the page starts on page 1 of 1 with no rows, no filters, an empty form and no dialog |
| RecepcaoPage.RecepcaoState.LoadRecepcoes | client/src/pages/Recepcao.tsx:114-131 | the query asks for the current page, 10 rows, with the filters; a success replaces the rows and the page count, a failure keeps them |
| RecepcaoPage.RecepcaoState.ReportQuery | client/src/pages/Recepcao.tsx:239-288 | the printed and previewed report asks for page 1 with up to 1000 rows and the same filters |
| RecepcaoPage.RecepcaoState.GoPrevious | client/src/pages/Recepcao.tsx:506 | the current page goes one back, never before 1 |
| RecepcaoPage.RecepcaoState.GoNext | client/src/pages/Recepcao.tsx:514 | the current page goes one on, never past the last |
| RecepcaoPage.RecepcaoState.HandleEdit | client/src/pages/Recepcao.tsx:185-209 | the lot is selected, its form filled and the dialog opened in edit mode |
| RecepcaoPage.RecepcaoState.ResetForm | client/src/pages/Recepcao.tsx:299-320 | the form becomes the empty form for today |
| RecepcaoPage.RecepcaoState.HandleSubmit | client/src/pages/Recepcao.tsx:159-183 | the form is sent to the lot's key when editing, and created otherwise; a success closes the dialog, ends edit mode, clears the selection, reloads the rows and page count (kept when the reload fails) and resets the form; a failure keeps the dialog, the mode, the selection, the form, the rows and the page count |
| RecepcaoPage.RecepcaoState.HandleKeyedAction | client/src/pages/Recepcao.tsx:211-237 | a delete or close is sent on the lot's key exactly when confirmed, and a success reloads the list |
| RecepcaoPage.RecepcaoState.HandleClienteChange | client/src/pages/Recepcao.tsx:322-329 | the client code and its name, or '' when unknown |
| RecepcaoPage.RecepcaoState.HandleArtigoChange | client/src/pages/Recepcao.tsx:331-338 | the article code and its description, or '' when unknown |
| RecepcaoPage.RecepcaoState.HandleComposicaoChange | client/src/pages/Recepcao.tsx:340-347 | the composition code and its description, or '' when unknown |
| ReportingPage.Copy | client/src/pages/admin/ReportingPage.tsx:58-62 | the copy keeps the template, styles and description, takes the id with `-copy-` and the clock appended, and the name with " (cópia)" |
| ReportingPage.CopyIsDistinct | client/src/pages/admin/ReportingPage.tsx:58-62 | a copy never has its original's id, and its id begins with the original's |
| ReportingPage.AutoSelected | client/src/pages/admin/ReportingPage.tsx:28-30 | a selection is kept; with none, the first template of a non-empty list is chosen; the result is always the old selection or a listed template's id |
| ReportingPage.RecepcoesPreviewUrl | client/src/pages/admin/ReportingPage.tsx:91 | the base and the receptions preview path, followed by exactly the encoded template id |
| ReportingPage.FaPreviewUrl | client/src/pages/admin/ReportingPage.tsx:92-96 | empty exactly when the section or the number is missing; otherwise the FA preview address for them with the template |
| ReportingPage.ReportingState.constructor | client/src/pages/admin/ReportingPage.tsx:16-20 | the page starts with no templates, no selection and no model |
| ReportingPage.ReportingState.LoadTemplates | client/src/pages/admin/ReportingPage.tsx:22-37 | a successful answer replaces the list (`data || []`) and selects the first when none is; anything else changes nothing |
| ReportingPage.ReportingState.LoadTemplate | client/src/pages/admin/ReportingPage.tsx:39-51 | a successful answer becomes the model; anything else keeps it |
| ReportingPage.ReportingState.Duplicate | client/src/pages/admin/ReportingPage.tsx:56-66 | without a model nothing happens; otherwise its copy is put first, selected and edited |
| ReportingPage.ReportingState.CreateNew | client/src/pages/admin/ReportingPage.tsx:68-79 | a template is requested exactly when a name was given; once created, a successful reload replaces the list and the new id is selected (or the usual one when none came back); a refusal or a failed reload keeps the list |
| ReportingPage.ReportingState.Save | client/src/pages/admin/ReportingPage.tsx:81-88 | the model is sent, and only a saved model reloads the list |
| IniEditorPage.IniEditorState.constructor | client/src/pages/ConfigPage.tsx:7-10 | the editor starts empty with nothing pending |
| IniEditorPage.IniEditorState.Load | client/src/pages/ConfigPage.tsx:16-45 | a successful read sets both the edited and the saved text to the file's, so nothing is pending; anything else keeps them |
| IniEditorPage.IniEditorState.Save | client/src/pages/ConfigPage.tsx:47-77 | the edited text is sent; only a successful save makes it the saved text, leaving nothing pending |
| IniEditorPage.IniEditorState.Reset | client/src/pages/ConfigPage.tsx:79-82 | the edited text goes back to the saved one, leaving nothing pending |
| AdminConfigPage.Updated | client/src/pages/admin/ConfigPage.tsx:111-121 | one field of one section takes the value; every other field and the other section are kept |
| AdminConfigPage.UpdatesCommute | client/src/pages/admin/ConfigPage.tsx:111-121 | the last edit of a field wins, and edits of different fields commute |
| AdminConfigPage.ConnectionText | client/src/pages/admin/ConfigPage.tsx:132-135 | "Não testado", "Conexão OK" or "Falha na conexão" for untested, connected and failed |
| AdminConfigPage.ConnectionColor | client/src/pages/admin/ConfigPage.tsx:137-140 | grey, green or red for untested, connected and failed |
| AdminConfigPage.StatusShownFaithfully | client/src/pages/admin/ConfigPage.tsx:132-140 | the three states read differently in words and in colour |
| AdminConfigPage.Tested | client/src/pages/admin/ConfigPage.tsx:60-78 | a failed request marks the database failed, a refusal leaves it untested, and an answer marks it connected exactly when it says so |
| AdminConfigPage.AdminConfigState.constructor | client/src/pages/admin/ConfigPage.tsx:10-16 | the page starts with no configuration, both databases untested and no messages |
| AdminConfigPage.AdminConfigState.LoadConfig | client/src/pages/admin/ConfigPage.tsx:22-35 | a successful answer replaces the configuration (`data || null`); a failed request is an error |
| AdminConfigPage.AdminConfigState.ReloadConfig | client/src/pages/admin/ConfigPage.tsx:100-109 | after the server rereads its file the configuration is loaded again and the reload reported; a failed reload shows the server's error or the default one |
| AdminConfigPage.AdminConfigState.UpdateConfig | client/src/pages/admin/ConfigPage.tsx:111-121 | the configuration becomes its update; nothing without one |
| AdminConfigPage.AdminConfigState.HandleSave | client/src/pages/admin/ConfigPage.tsx:37-58 | nothing is sent without a configuration; otherwise the success message, or the server's error, or the default error |
| AdminConfigPage.AdminConfigState.TestConnection | client/src/pages/admin/ConfigPage.tsx:60-78 | only the tested database's status changes, to what the test leaves |
| AdminConfigPage.AdminConfigState.TestAllConnections | client/src/pages/admin/ConfigPage.tsx:80-98 | both statuses as a single test would leave them, both failed on a failed request, both untested on a refusal |
| UsersPage.RoleLabel | client/src/pages/admin/UsersPage.tsx:148-155 | the three roles in Portuguese and any other role as it is |
| UsersPage.RoleBadgeColor | client/src/pages/admin/UsersPage.tsx:157-164 | red for administrators, blue for operators and grey for anyone else |
| UsersPage.KnownRolesAreLabelled | client/src/pages/admin/UsersPage.tsx:148-155 | each role the service reports has its own label, never its code |
| UsersPage.CreateBodyOf | client/src/pages/admin/UsersPage.tsx:68 | the body carries the form's name, email, password and role |
| UsersPage.AllowedFormIsComplete | client/src/pages/admin/UsersPage.tsx:63-68 | a form the page lets through, with a role, passes the server's required-fields check |
| UsersPage.EditBody | client/src/pages/admin/UsersPage.tsx:93-96 | only the form's role and the user's current active flag are sent |
| UsersPage.ErrorText | client/src/pages/admin/UsersPage.tsx:80-83 | the server's error text when there is one, and the fallback otherwise |
| UsersPage.UsersState.constructor | client/src/pages/admin/UsersPage.tsx:26-38 | no users, an empty viewer form, no selection, no dialog and no error |
| UsersPage.UsersState.LoadUsers | client/src/pages/admin/UsersPage.tsx:44-57 | a successful answer replaces the list (`data || []`); a failed request is an error |
| UsersPage.UsersState.HandleCreate | client/src/pages/admin/UsersPage.tsx:59-85 | an incomplete form is an error and sends nothing; otherwise the form is sent, and a success closes the dialog and resets the form |
| UsersPage.UsersState.OpenEditDialog | client/src/pages/admin/UsersPage.tsx:132-141 | the user is selected and shown with the password blanked |
| UsersPage.UsersState.HandleEdit | client/src/pages/admin/UsersPage.tsx:87-110 | nothing without a selected user; otherwise the role and active flag are sent, and a success closes the dialog and clears the selection |
| UsersPage.UsersState.OpenDeleteDialog | client/src/pages/admin/UsersPage.tsx:143-146 | the user is selected and the delete dialog opened |
| UsersPage.UsersState.HandleDelete | client/src/pages/admin/UsersPage.tsx:112-130 | nothing without a selected user; otherwise that user's removal is asked, and a success closes the dialog and clears the selection |

## Left out

- The BIRT engine (`birt-engine/`): calls into the BIRT platform and a console loop, no logic of its own.
- Firebird, node-firebird and the stored procedures (OBTER_*, GRAVA_*, Insert_Maq_Leituras, Fechar_Mov_Recepcao): a query is a function parameter from its parameters to rows or a failure; what the procedures do inside the database is not modelled.
- bcrypt, jsonwebtoken and uuid: hashing, signing, verifying and fresh ids are function parameters; the `iat`/`exp` claims a signature adds are not modelled.
- The clock: `Date.now()`, `new Date()` and `toISOString`/`toLocaleString`/`toLocaleDateString` values are parameters (a number or a text); date parsing, formatting and moment are not modelled.
- Floating point: `parseFloat` is modelled like `parseInt` (fractions dropped), and weights, measures and totals are integers; `toFixed`/`toLocaleString` rounding is not modelled.
- Js.ToNumber: `Number(s)` is modelled for blank text and signed decimal digits only; a fractional text such as `12.5` reads as NaN instead of 12.5, so `FaController.MapItem`, `TotalRolos` and `TotalPesos` count it as 0 and `FichasAcabamentoPage.Quantity` refuses it, where JavaScript would take the number.
- Js.Upper: `toUpperCase` raises only the ASCII letters; accented letters in a search term stay as typed in the upper-cased SQL search parameters of the tables, receptions and users services, where JavaScript would raise them.
- Js.Trim: `trim` removes only space, tab, line feed and carriage return; the other Unicode white space JavaScript removes (no-break space, form feed, vertical tab and others) is kept.
- JavaScript's `parseInt` is modelled for optional sign and decimal digits after leading blanks; the `0x` prefix and `Infinity` are not.
- String `replace` with `$`-patterns in the replacement text is not modelled; replacements are literal.
- Unicode: `normalize('NFD')` and accent stripping in the search modals are a parameter `norm`; lower-casing is ASCII.
- `encodeURIComponent` in the report page is a parameter `encode`.
- File system: reads, writes, directory listings and the temporary directory of the Jasper renderer are parameters or maps; the clean-up of that directory after rendering is not modelled.
- PDF and HTML rendering: puppeteer, Handlebars compilation and jasperstarter itself are parameters; the service models only the helpers (`subtract`, `eq`, `eachWithIndex`), the argument list and the exit-code rule.
- `getActiveTemplateId`, `setActiveTemplateId` and `generateFAPDF`, which `reportController.ts` calls but `reportService.ts` does not define, are parameters of the controller's handlers.
- Wiring: `src/routes/*.ts` (except the visual-reports route, which holds logic), `src/server.ts`, `client/src/App.tsx` and the axios client in `client/src/services/api.ts`. The routes in `src/routes/tabelas.ts` that name controller methods missing from `tabelasController.ts` are not modelled.
- `src/services/configService.ts`: it only forwards to the configuration manager and opens a test connection.
- `getMaquinasStatus` in the operations controller, `searchProcessos`/`searchCores` in the processes controller, `getClientes`/`getArtigos`/`getComposicoes` and the `delete*` methods of the tables service, and `deleteRecepcao`/`fecharRecepcao` of the receptions service: each runs one fixed statement with its parameters and renames or trims the columns; the trimming is `Sql.TrimOrEmpty`.
- Thin handlers: `getAllUsers` of the user controller, `listTemplates`/`getTemplate` of the report controller and `getConfig`/`testAllConnections`/`reloadConfig` of the configuration controller pass a service result through unchanged.
- Timers and concurrency: the 30-second machine refresh, `Promise.all` in the pages, the three-second message timeout and the ordering of React state updates; each handler is modelled as running to completion on the state it starts from.
- Busy flags, toasts, alerts, `console` output and styling: the `loading`/`saving`/`testing` flags, notification texts that change no state and the markup are not modelled.
- `ReportDesigner`: `handleSave` and `handlePreview` only post or display the generated HTML; `generateHTML` itself is modelled.
- `Sidebar.IsActivePath` and `Sidebar.HasActiveItem` state the highlighting rule as definitions; icons and logout are not modelled.
- The UI-only pages (login, dashboard, header, dialogs, not-found page, menu data, the `pages/tabelas` CRUD pages) and the type declarations.
- Operacoes: a leading code that parses to NaN passes the `<= 0` check and is dispatched with a NaN operation, as the code does (`Operacoes.NaNOperacaoDispatched`).
- FirebirdTypes.TypeDescription: follows the script's labels, which name code 14 VARCHAR and code 37 CHAR; Firebird's own catalogue uses 14 for CHAR and 37 for VARCHAR. The script only prints these labels, so they are modelled as written.
- FirebirdTypes.TypeDescription: a NULL length, precision or scale is taken as 0, so a CHAR column without a length reads `CHAR(0)` where the script would print `CHAR(null)`.
- JasperService.Resolve: `path.resolve` and `path.join` are modelled as plain concatenation with `/`; their normalisation (dropping `.` segments, folding `..` into the parent, collapsing repeated or trailing `/`) is not, so `./t` resolves to `cwd/./t` where Node gives `cwd/t`, and `JasperService.PathJoin` likewise keeps such segments in the report candidates and the output file name.
- VisualReports.Listed: its own contract only bounds the count; what is listed is stated by `VisualReports.ListedFromJsonFiles`.

## Findings

| source | as written | input that shows it | evidently intended | confidence | as-written member | corrected member |
|---|---|---|---|---|---|---|
| scripts/generate-models.js:46-67 | `mapType` types code 14 as a date and lets code 35 fall to `string \| null` | a TIMESTAMP column (code 35) is typed `string \| null`; a CHAR column (code 14) is typed `Date \| string \| null` | dates for DATE (12) and TIMESTAMP (35), as `check-mov-recepcao.js` describes those codes | high, not executed | GenerateModels.MapTypeAsWritten (lemma GenerateModels.AsWrittenMistypesTimestamps) | GenerateModels.MapType (lemma GenerateModels.MapTypeMatchesDescription) |
| src/routes/visualReports.ts:63 | saving a visual report requires `user.administrador === 'S'` | any token issued by `login`: its claims are id, username, role, seccao and isAdmin, so every save is refused with 403 | administrators, whose token carries `isAdmin: true`, may save | high, not executed | VisualReports.SaveAsWritten (lemma VisualReports.LoginTokensCannotSave) | VisualReports.Save (lemma VisualReports.AdminsCanSave) |
