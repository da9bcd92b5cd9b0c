/** The server object of src/server.ts: its policy choice, `listen` and `disconnect`. */
module Server {
  import opened Wrappers
  import opened Js
  import opened Rbac
  import opened Errors

  /** The constructor's policy: missing options throw, empty options mean allow-all. */
  function ServerPolicy(rbacOptions: Option<RbacOptions>): (r: Result<Policy, Error>)
    ensures rbacOptions.None? <==> r == Failure(Plain(RbacRequiredMessage))
    ensures rbacOptions.Some? && NoKeys(rbacOptions.value)
            ==> r.Success? && forall role, resource, op, ctx :: Can(r.value, role, resource, op, ctx)
    ensures rbacOptions.Some? && !NoKeys(rbacOptions.value) ==> r == Success(FromOptions(rbacOptions.value))
  {
    if rbacOptions.None? then Failure(Plain(RbacRequiredMessage))
    else Success(ChoosePolicy(rbacOptions.value))
  }

  const HostnameMessage := "You must provide a hostname and it must be a string"
  const PortMessage := "Port must be a number greather or equal to zero"
  const StartFailedMessage := "failed to start server"

  /** The argument checks of `listen`, in their order. */
  function ListenArgumentError(hostname: Value, port: Value): (r: Option<Error>)
    ensures r == Some(Plain(HostnameMessage)) <==> !(hostname.Str? && hostname.s != "")
    ensures r == Some(Plain(PortMessage))
            <==> hostname.Str? && hostname.s != "" && !(port.Num? && port.r >= 0.0)
    ensures r.None? <==> hostname.Str? && hostname.s != "" && port.Num? && port.r >= 0.0
  {
    if !Truthy(hostname) || !IsString(hostname) then Some(Plain(HostnameMessage))
    // `isNaN` coerces its argument, but a non-number fails the `typeof` test anyway
    else if port.NaN? || !IsNumber(port) || (port.Num? && port.r < 0.0) then Some(Plain(PortMessage))
    else None
  }

  /** A listen socket handle of the HTTP library. */
  type Socket = nat

  /**
   * How `listen` settles: the argument errors first, then the callback; `granted` is the
   * socket the callback receives (None for a falsy one).
   */
  function ListenOutcome(hostname: Value, port: Value, granted: Option<Socket>): (r: Outcome<Error>)
    ensures r.Pass? <==> ListenArgumentError(hostname, port).None? && granted.Some?
    ensures ListenArgumentError(hostname, port).Some? ==> r == Fail(ListenArgumentError(hostname, port).value)
    ensures ListenArgumentError(hostname, port).None? && granted.None? ==> r == Fail(Plain(StartFailedMessage))
  {
    match ListenArgumentError(hostname, port)
    case Some(e) => Fail(e)
    case None => if granted.Some? then Pass else Fail(Plain(StartFailedMessage))
  }

  /** The examples of the server's own tests. */
  lemma ListenExamples()
    ensures ListenArgumentError(Str("localhost"), Num(8080.0)).None?
    ensures ListenArgumentError(Str("localhost"), Num(0.0)).None?
    ensures ListenArgumentError(Undefined, Undefined) == Some(Plain(HostnameMessage))
    ensures ListenArgumentError(Num(8080.0), Undefined) == Some(Plain(HostnameMessage))
    ensures ListenArgumentError(Str(""), Undefined) == Some(Plain(HostnameMessage))
    ensures ListenArgumentError(Str("localhost"), Undefined) == Some(Plain(PortMessage))
    ensures ListenArgumentError(Str("localhost"), Num(-1.0)) == Some(Plain(PortMessage))
    ensures ListenArgumentError(Str("localhost"), NaN) == Some(Plain(PortMessage))
    ensures ListenArgumentError(Str("localhost"), Str("1")) == Some(Plain(PortMessage))
  {
  }

  class Server {
    const rbac: Policy
    var isOnline: bool
    var socket: Option<Socket>
    /** The handles passed to the library's socket-close call, in order. */
    var closed: seq<Option<Socket>>

    constructor (rbac: Policy)
      ensures this.rbac == rbac && !isOnline && socket.None? && closed == []
    {
      this.rbac := rbac;
      isOnline := false;
      socket := None;
      closed := [];
    }

    /** `listen`: on a granted socket the server stores it and goes online. */
    method Listen(hostname: Value, port: Value, granted: Option<Socket>) returns (r: Outcome<Error>)
      modifies this`isOnline, this`socket
      ensures r == ListenOutcome(hostname, port, granted)
      ensures r.Pass? ==> isOnline && socket == granted
      ensures r.Fail? ==> isOnline == old(isOnline) && socket == old(socket)
    {
      if !Truthy(hostname) || !IsString(hostname) {
        return Fail(Plain(HostnameMessage));
      }
      if port.NaN? || !IsNumber(port) || (port.Num? && port.r < 0.0) {
        return Fail(Plain(PortMessage));
      }
      if granted.Some? {
        socket := granted;
        isOnline := true;
        return Pass;
      }
      return Fail(Plain(StartFailedMessage));
    }

    /** `disconnect`: close the stored socket; `isOnline` is not reset. */
    method Disconnect()
      modifies this`closed
      ensures closed == old(closed) + [socket]
    {
      closed := closed + [socket];
    }
  }

  /** `new Server(...)`: the RBAC check, then a fresh server that is not online. */
  method NewServer(rbacOptions: Option<RbacOptions>) returns (r: Result<Server, Error>)
    ensures ServerPolicy(rbacOptions).Failure? ==> r == Failure(ServerPolicy(rbacOptions).error)
    ensures ServerPolicy(rbacOptions).Success?
            ==> r.Success? && fresh(r.value) && r.value.rbac == ServerPolicy(rbacOptions).value
                && !r.value.isOnline && r.value.socket.None?
  {
    var policy := ServerPolicy(rbacOptions);
    if policy.Failure? {
      return Failure(policy.error);
    }
    var s := new Server(policy.value);
    return Success(s);
  }

  const RootNotFound := Obj(map["message" := Str("root not found")])

  /** The body of `GET /api/id/:id`: the lookup result, or a not-found message when falsy. */
  function IdRouteBody(result: Value): (body: Value)
    ensures Truthy(body)
    ensures Truthy(result) ==> body == result
    ensures !Truthy(result) ==> body == RootNotFound
  {
    if Truthy(result) then result else RootNotFound
  }
}
