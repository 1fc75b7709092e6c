/**
 * DatabaseConnection: connection options derived from the configuration, and `executeQuery`,
 * which attaches, runs one query and detaches. node-firebird's `attach` and `query` are the
 * `attach` / `run` parameters; the connections a query opens and closes are recorded in `log`.
 */
module Database {
  import opened Wrappers
  import opened Js
  import opened Sql
  import opened Config

  const DefaultPort := 3050
  const PageSize := 4096

  /** `servidor.split('/')[0]`: the host is the text before the first '/'. */
  function HostOf(servidor: string): (host: string)
    ensures '/' !in host
  {
    Split(servidor, '/')[0]
  }

  /** `parseInt(servidor.split('/')[1]) || 3050`: a missing, non-numeric or zero port is 3050. */
  function PortOf(servidor: string): (port: int)
    ensures port != 0
  {
    var parts := Split(servidor, '/');
    if |parts| >= 2 then ParseInt(parts[1]).Or(DefaultPort) else DefaultPort
  }

  /** A `host/port` text splits back into its host and its port. */
  lemma {:induction false} HostPortRoundTrip(host: string, port: nat)
    requires '/' !in host && port > 0
    ensures HostOf(host + "/" + NatToString(port)) == host
    ensures PortOf(host + "/" + NatToString(port)) == port
  {
    var digits := NatToString(port);
    SplitCons(host, '/', digits);
    assert '/' !in digits by {
      forall i | 0 <= i < |digits| ensures digits[i] != '/' {
        assert IsDigit(digits[i]);
      }
    }
    SplitWithoutSep(digits, '/');
    ParseNatToString(port);
  }

  /** A server named without a port is the host, on port 3050. */
  lemma {:induction false} BareHostUsesDefaultPort(host: string)
    requires '/' !in host
    ensures HostOf(host) == host && PortOf(host) == DefaultPort
  {
    SplitWithoutSep(host, '/');
  }

  /** The options handed to `Firebird.attach`; `role` is absent when it is `undefined`. */
  datatype ConnectOptions = ConnectOptions(
    host: string, port: int, database: string, user: string, password: string,
    lowercaseKeys: bool, role: Option<string>, pageSize: int)

  /** `connectToProducao`'s options. */
  function ProducaoOptions(c: AppConfig): (o: ConnectOptions)
    ensures o.host == HostOf(c.producao.bdServidor) && o.port == PortOf(c.producao.bdServidor)
    ensures o.database == c.producao.bdPath && o.user == c.producao.bdUsername && o.password == c.producao.bdPassword
    ensures !o.lowercaseKeys && o.role == None && o.pageSize == PageSize
  {
    ConnectOptions(HostOf(c.producao.bdServidor), PortOf(c.producao.bdServidor),
                   c.producao.bdPath, c.producao.bdUsername, c.producao.bdPassword, false, None, PageSize)
  }

  /** `connectToGescom`'s options: the same rule on the BD2 fields. */
  function GescomOptions(c: AppConfig): (o: ConnectOptions)
    ensures o.host == HostOf(c.gescom.bd2Servidor) && o.port == PortOf(c.gescom.bd2Servidor)
    ensures o.database == c.gescom.bd2Path && o.user == c.gescom.bd2Username && o.password == c.gescom.bd2Password
    ensures !o.lowercaseKeys && o.role == None && o.pageSize == PageSize
  {
    ConnectOptions(HostOf(c.gescom.bd2Servidor), PortOf(c.gescom.bd2Servidor),
                   c.gescom.bd2Path, c.gescom.bd2Username, c.gescom.bd2Password, false, None, PageSize)
  }

  datatype ConnEvent = Attached(options: ConnectOptions) | Detached(options: ConnectOptions)

  /** Connections attached and not yet detached, by the record of events. */
  function OpenConnections(log: seq<ConnEvent>): int
  {
    if log == [] then 0
    else OpenConnections(log[..|log| - 1]) + (if log[|log| - 1].Attached? then 1 else -1)
  }

  /** An attach followed by its detach leaves the number of open connections as it was. */
  lemma {:induction false} AttachDetachBalanced(log: seq<ConnEvent>, o: ConnectOptions)
    ensures OpenConnections(log + [Attached(o), Detached(o)]) == OpenConnections(log)
  {
    var l2 := log + [Attached(o), Detached(o)];
    assert l2[..|l2| - 1] == log + [Attached(o)];
    assert (log + [Attached(o)])[..|log|] == log;
  }

  class DatabaseConnection {
    const config: AppConfig
    var log: seq<ConnEvent>

    constructor(config: AppConfig)
      ensures this.config == config && log == []
    {
      this.config := config;
      log := [];
    }

    /** The options `executeQuery` connects with: Producao for 'producao', Gescom otherwise. */
    function OptionsFor(database: string): (o: ConnectOptions)
      ensures database == "producao" ==> o == ProducaoOptions(config)
      ensures database != "producao" ==> o == GescomOptions(config)
    {
      if database == "producao" then ProducaoOptions(config) else GescomOptions(config)
    }

    /**
     * `executeQuery`: connect to the named database; a failed attach rejects with no connection
     * left; otherwise the query runs, the connection is detached whether it failed or not, and
     * its outcome is the result.
     */
    method ExecuteQuery<R>(
      database: string, query: string, params: seq<Param>,
      attach: ConnectOptions -> Result<()>,
      run: (ConnectOptions, string, seq<Param>) -> Result<R>)
      returns (r: Result<R>)
      modifies this`log
      ensures attach(OptionsFor(database)).Failure? ==>
        r == Failure(attach(OptionsFor(database)).message) && log == old(log)
      ensures attach(OptionsFor(database)).Ok? ==>
        r == run(OptionsFor(database), query, params) &&
        log == old(log) + [Attached(OptionsFor(database)), Detached(OptionsFor(database))]
      ensures OpenConnections(log) == OpenConnections(old(log))
    {
      var o := OptionsFor(database);
      var attached := attach(o);
      if attached.Failure? {
        return Failure(attached.message);
      }
      log := log + [Attached(o)];
      r := run(o, query, params);
      log := log + [Detached(o)];
      assert log == old(log) + [Attached(o), Detached(o)];
      AttachDetachBalanced(old(log), o);
    }
  }

  /** The static `instance` of DatabaseConnection. */
  class DatabaseRegistry {
    var instance: DatabaseConnection?

    constructor()
      ensures instance == null
    {
      instance := null;
    }

    /** `getInstance(config)`: the first call's configuration is kept; later ones are ignored. */
    method GetInstance(config: AppConfig) returns (d: DatabaseConnection)
      modifies this
      ensures old(instance) != null ==> d == old(instance)
      ensures old(instance) == null ==> fresh(d) && d.config == config && d.log == []
      ensures instance == d
    {
      if instance == null {
        instance := new DatabaseConnection(config);
      }
      d := instance;
    }
  }
}
