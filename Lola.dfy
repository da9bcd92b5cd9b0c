/** The application object of src/index.js and src/index.ts: seed, start, stop. */
module Lola {
  import opened Wrappers
  import opened Js
  import opened Variants
  import opened Nodes
  import opened Errors
  import Rbac
  import Server

  /** What `createSchema` receives: one schema object or a list of them. */
  datatype SchemaArg = Single(schema: Value) | List(schemas: seq<Value>)

  /** `{ _label: 'users' }`. */
  const UsersSchema := Obj(map[LabelKey := Str(UsersLabel)])

  /**
   * The schema passed to `createSchema`: the CommonJS variant always adds the users
   * schema, the TypeScript variant passes the caller's schema unchanged.
   */
  function SchemaArgument(d: Dialect, schema: Value): (s: SchemaArg)
    ensures d == TypeScript ==> s == Single(schema)
    ensures d == CommonJs && !Truthy(schema) ==> s == Single(UsersSchema)
    ensures d == CommonJs && Truthy(schema) ==> s == List([schema, UsersSchema])
  {
    match d
    case TypeScript => Single(schema)
    case CommonJs => if !Truthy(schema) then Single(UsersSchema) else List([schema, UsersSchema])
  }

  /** The seed function: the default no-op or a caller's function. */
  datatype SeedFn = NoOpSeed | GivenSeed(id: nat)

  /** A call on the graph client, in the order `seed` makes them. */
  datatype KonektoCall =
    | Connect
    | CreateGraph(name: string)
    | SetGraph(name: string)
    | CreateSchema(schema: SchemaArg)
    | RunSeed(fn: SeedFn)  // the seed function, called with the graph client

  /** The calls a successful `seed` makes. */
  function SeedCalls(d: Dialect, graphName: string, schema: Value, seedFn: Option<nat>): (calls: seq<KonektoCall>)
    ensures |calls| == 5
    ensures calls[..3] == [Connect, CreateGraph(graphName), SetGraph(graphName)]
    ensures calls[3] == CreateSchema(SchemaArgument(d, schema))
    ensures calls[4] == RunSeed(if seedFn.Some? then GivenSeed(seedFn.value) else NoOpSeed)
  {
    [Connect, CreateGraph(graphName), SetGraph(graphName),
     CreateSchema(SchemaArgument(d, schema)),
     RunSeed(if seedFn.Some? then GivenSeed(seedFn.value) else NoOpSeed)]
  }

  const GraphNameMessage := "graphName must be a string"
  const SeedFirstMessage := "You need to seed the database before starting the server"

  /** `!graphName || typeof graphName !== 'string'` fails. */
  predicate ValidGraphName(graphName: Value)
  {
    graphName.Str? && graphName.s != ""
  }

  class Lola {
    const server: Server.Server
    var seeded: bool
    /** The calls made on the graph client, in order. */
    var calls: seq<KonektoCall>

    constructor (server: Server.Server)
      ensures this.server == server && !seeded && calls == []
    {
      this.server := server;
      seeded := false;
      calls := [];
    }

    /**
     * `seed`: the graph-name check before any graph-client call, then connect, create and
     * set the graph, create the schema, run the seed function, and only then `_seeded`.
     * `failAt` is the index of the first call that rejects (5 or more: none does).
     */
    method Seed(d: Dialect, graphName: Value, schema: Value, seedFn: Option<nat>, failAt: nat)
      returns (r: Outcome<Error>)
      modifies this`seeded, this`calls
      ensures !ValidGraphName(graphName)
              ==> r == Fail(Plain(GraphNameMessage)) && calls == old(calls) && seeded == old(seeded)
      ensures ValidGraphName(graphName) && failAt < 5
              ==> r == Fail(External) && seeded == old(seeded)
                  && calls == old(calls) + SeedCalls(d, graphName.s, schema, seedFn)[..failAt + 1]
      ensures ValidGraphName(graphName) && failAt >= 5
              ==> r == Pass && seeded && calls == old(calls) + SeedCalls(d, graphName.s, schema, seedFn)
    {
      if !Truthy(graphName) || !IsString(graphName) {
        return Fail(Plain(GraphNameMessage));
      }
      var name := graphName.s;
      var s := SchemaArgument(d, schema);
      var fn := if seedFn.Some? then GivenSeed(seedFn.value) else NoOpSeed;
      ghost var all := SeedCalls(d, name, schema, seedFn);
      calls := calls + [Connect];
      if failAt == 0 {
        assert all[..1] == [Connect];
        return Fail(External);
      }
      calls := calls + [CreateGraph(name)];
      if failAt == 1 {
        assert all[..2] == [Connect, CreateGraph(name)];
        return Fail(External);
      }
      calls := calls + [SetGraph(name)];
      if failAt == 2 {
        assert all[..3] == [Connect, CreateGraph(name), SetGraph(name)];
        return Fail(External);
      }
      calls := calls + [CreateSchema(s)];
      if failAt == 3 {
        assert all[..4] == [Connect, CreateGraph(name), SetGraph(name), CreateSchema(s)];
        return Fail(External);
      }
      calls := calls + [RunSeed(fn)];
      if failAt == 4 {
        assert all[..5] == all;
        return Fail(External);
      }
      seeded := true;
      return Pass;
    }

    /** `start`: refuse until seeded, then forward the arguments to the server's `listen`. */
    method Start(hostname: Value, port: Value, granted: Option<Server.Socket>) returns (r: Outcome<Error>)
      modifies server`isOnline, server`socket
      ensures !seeded ==> r == Fail(Plain(SeedFirstMessage))
                          && server.isOnline == old(server.isOnline) && server.socket == old(server.socket)
      ensures seeded ==> r == Server.ListenOutcome(hostname, port, granted)
      ensures seeded && r.Pass? ==> server.isOnline && server.socket == granted
      ensures seeded && r.Fail? ==> server.isOnline == old(server.isOnline) && server.socket == old(server.socket)
    {
      if !seeded {
        return Fail(Plain(SeedFirstMessage));
      }
      r := server.Listen(hostname, port, granted);
    }

    /** `stop` (CommonJS variant only): the server's `disconnect`. */
    method Stop()
      modifies server`closed
      ensures server.closed == old(server.closed) + [server.socket]
    {
      server.Disconnect();
    }
  }

  /**
   * The lifecycle the application's own tests describe: `start` before `seed` refuses,
   * a numeric or empty graph name is refused without any graph-client call, a good `seed`
   * makes its five calls and sets `_seeded`, and `start` then reaches `listen`.
   */
  method LifecycleScenario(d: Dialect, p: Rbac.Policy)
    returns (early: Outcome<Error>, numericName: Outcome<Error>, emptyName: Outcome<Error>,
             seeded: Outcome<Error>, started: Outcome<Error>)
    ensures early == Fail(Plain(SeedFirstMessage))
    ensures numericName == Fail(Plain(GraphNameMessage)) && emptyName == Fail(Plain(GraphNameMessage))
    ensures seeded == Pass && started == Pass
  {
    var server := new Server.Server(p);
    var lola := new Lola(server);
    early := lola.Start(Str("hostname"), Num(1337.0), Some(7));
    assert !server.isOnline;
    numericName := lola.Seed(d, Num(1.0), Obj(map[LabelKey := Str("nice")]), None, 5);
    emptyName := lola.Seed(d, Str(""), Obj(map[LabelKey := Str("nice")]), None, 5);
    assert lola.calls == [] && !lola.seeded;
    seeded := lola.Seed(d, Str("xd"), Obj(map[LabelKey := Str("hehe")]), None, 5);
    assert lola.seeded && |lola.calls| == 5;
    started := lola.Start(Str("hostname"), Num(1337.0), Some(7));
    assert server.isOnline && server.socket == Some(7);
  }
}
