/** The way of a request from the front end over the dispatcher and a back-end handler to a provider call. */
module Requests {
  import opened Types
  import opened Opcodes

  datatype BodyType = Protobuf | OtherBody

  datatype AuthType = NoAuth | Direct | Jwt | UnixPeerCredentials | JwtSvid

  datatype Header = Header(provider: ProviderId, opcode: Opcode, contentType: BodyType, acceptType: BodyType,
    authType: AuthType)

  datatype Request = Request(header: Header, auth: seq<Byte>, body: seq<Byte>)

  /** A response carries the header of its request, unless the request could not be read. */
  datatype Response = Response(header: Option<Header>, status: ResponseStatus, body: seq<Byte>)

  datatype Application = Application(name: Name, isAdmin: bool)

  datatype Operation = Operation(opcode: Opcode, input: seq<Byte>)

  /** A call of a provider: keyed operations run under an application name. */
  datatype Call<P> = Call(provider: P, operation: Operation, app: Option<Name>)

  /** The body converter. */
  datatype Converter = Converter(
    toOperation: (seq<Byte>, Opcode) -> Result<Operation, ResponseStatus>,
    toBody: (Opcode, seq<Byte>) -> Result<seq<Byte>, ResponseStatus>)
  {
    /** The operation is the one that the opcode names. */
    ghost predicate Matches() {
      forall body, opcode :: toOperation(body, opcode).Ok? ==> toOperation(body, opcode).value.opcode == opcode
    }
  }

  datatype BackEndHandler<P> = BackEndHandler(provider: P, providerId: ProviderId, contentType: BodyType,
    acceptType: BodyType)
  {
    function IsCapable(h: Header): (r: Result<(), ResponseStatus>) {
      if (providerId == Core) != h.opcode.IsCore() then Err(PsaErrorNotSupported)
      else if h.provider != providerId then Err(WrongProviderId)
      else if h.contentType != contentType then Err(ContentTypeNotSupported)
      else if h.acceptType != acceptType then Err(AcceptTypeNotSupported)
      else Ok(())
    }
  }

  type Authenticator = (seq<Byte>, Option<nat>) -> Result<Application, ResponseStatus>

  /** A service: its handlers and authenticators, the converter, and what each provider answers to a call. */
  datatype Service<!P> = Service(
    backends: map<ProviderId, BackEndHandler<P>>, authenticators: map<AuthType, Authenticator>,
    converter: Converter, serve: Call<P> -> Result<seq<Byte>, ResponseStatus>)

  function Refusal(req: Request, status: ResponseStatus): (r: Response) { Response(Some(req.header), status, []) }

  /** The answer to a provider's result. */
  function Reply<P>(s: Service<P>, req: Request, opcode: Opcode,
                    result: Result<seq<Byte>, ResponseStatus>): (r: Response) {
    match result
    case Err(status) => Refusal(req, status)
    case Ok(value) =>
      match s.converter.toBody(opcode, value)
      case Ok(body) => Response(Some(req.header), Success, body)
      case Err(status) => Refusal(req, status)
  }

  /** `execute_request`, with the provider call that it makes. */
  function Execute<P>(s: Service<P>, h: BackEndHandler<P>, req: Request,
                      app: Option<Application>): (r: (Response, Option<Call<P>>)) {
    if req.header.opcode.IsAdmin() && app.None? then (Refusal(req, NotAuthenticated), None)
    else if req.header.opcode.IsAdmin() && !app.value.isAdmin then (Refusal(req, AdminOperation), None)
    else
      match s.converter.toOperation(req.body, req.header.opcode)
      case Err(status) => (Refusal(req, status), None)
      case Ok(operation) =>
        if operation.opcode.IsKeyed() && app.None? then (Refusal(req, NotAuthenticated), None)
        else
          var call := Call(h.provider, operation, if operation.opcode.IsKeyed() then Some(app.value.name) else None);
          (Reply(s, req, operation.opcode, s.serve(call)), Some(call))
  }

  /** `dispatch_request`. */
  function Dispatch<P>(s: Service<P>, req: Request, app: Option<Application>): (r: (Response, Option<Call<P>>)) {
    if req.header.provider !in s.backends then (Refusal(req, ProviderNotRegistered), None)
    else
      var h := s.backends[req.header.provider];
      match h.IsCapable(req.header)
      case Err(status) => (Refusal(req, status), None)
      case Ok(_) => Execute(s, h, req, app)
  }

  /** Who sent the request: nobody in particular, an application, or an error. */
  function Authenticate<P>(s: Service<P>, req: Request,
                           metadata: Option<nat>): (r: Result<Option<Application>, ResponseStatus>) {
    if req.header.authType == NoAuth then Ok(None)
    else if req.header.authType !in s.authenticators then Err(AuthenticatorNotRegistered)
    else
      match s.authenticators[req.header.authType](req.auth, metadata)
      case Ok(app) => Ok(Some(app))
      case Err(status) => Err(status)
  }

  /** `handle_request`: the response that it writes, and the provider call that it makes. */
  function Handle<P>(s: Service<P>, incoming: Result<Request, ResponseStatus>,
                     metadata: Option<nat>): (r: (Response, Option<Call<P>>)) {
    match incoming
    case Err(status) => (Response(None, status, []), None)
    case Ok(req) =>
      match Authenticate(s, req, metadata)
      case Err(status) => (Refusal(req, status), None)
      case Ok(app) => Dispatch(s, req, app)
  }

  class Connection {
    const incoming: Result<Request, ResponseStatus>
    const metadata: Option<nat>
    const broken: bool
    var attempts: seq<Response>

    constructor (incoming: Result<Request, ResponseStatus>, metadata: Option<nat>, broken: bool)
      ensures this.incoming == incoming && this.metadata == metadata && this.broken == broken && attempts == []
    {
      this.incoming, this.metadata, this.broken, attempts := incoming, metadata, broken, [];
    }

    method Write(response: Response) returns (ok: bool)
      modifies this`attempts
      ensures attempts == old(attempts) + [response] && ok == !broken
    {
      attempts := attempts + [response];
      ok := !broken;
    }
  }

  class FrontEndHandler<!P> {
    const service: Service<P>

    constructor (service: Service<P>)
      ensures this.service == service
    {
      this.service := service;
    }

    /** Exactly one write is attempted for each connection, and at most one provider call is made. */
    method HandleRequest(connection: Connection) returns (call: Option<Call<P>>)
      modifies connection`attempts
      ensures connection.attempts ==
              old(connection.attempts) + [Handle(service, connection.incoming, connection.metadata).0]
      ensures call == Handle(service, connection.incoming, connection.metadata).1
      ensures connection.incoming.Err? ==>
                call == None
                && connection.attempts == old(connection.attempts) + [Response(None, connection.incoming.error, [])]
    {
      call := None;
      if connection.incoming.Err? {
        var _ := connection.Write(Response(None, connection.incoming.error, []));
        return;
      }
      var req := connection.incoming.value;
      var app: Option<Application>, refusal: Option<Response> := None, None;
      if req.header.authType == NoAuth {
      } else if req.header.authType in service.authenticators {
        match service.authenticators[req.header.authType](req.auth, connection.metadata) {
          case Ok(a) => app := Some(a);
          case Err(status) => refusal := Some(Refusal(req, status));
        }
      } else {
        refusal := Some(Refusal(req, AuthenticatorNotRegistered));
      }
      var response;
      if refusal.Some? {
        response := refusal.value;
      } else {
        var (answer, made) := Dispatch(service, req, app);
        response, call := answer, made;
      }
      var _ := connection.Write(response);
    }
  }

  // ----- What a request may do -----

  /** The handlers are those of a built service: each under its own id, the core provider's under Core. */
  predicate Built<P>(backends: map<ProviderId, BackEndHandler<P>>) {
    Core in backends && forall id | id in backends :: backends[id].providerId == id
  }

  /** The call is what the request asks of the provider it names, by an application with the right to it. */
  predicate MayRun<P(==)>(s: Service<P>, req: Request, metadata: Option<nat>, call: Call<P>) {
    var h := req.header;
    && h.provider in s.backends && call.provider == s.backends[h.provider].provider
    && h.contentType == s.backends[h.provider].contentType && h.acceptType == s.backends[h.provider].acceptType
    && (h.opcode.IsCore() <==> h.provider == Core)
    && s.converter.toOperation(req.body, h.opcode) == Ok(call.operation)
    && (h.authType != NoAuth ==> h.authType in s.authenticators && s.authenticators[h.authType](req.auth, metadata).Ok?)
    && (h.opcode.IsAdmin() ==> h.authType != NoAuth && s.authenticators[h.authType](req.auth, metadata).value.isAdmin)
    && (call.operation.opcode.IsKeyed() ==>
          h.authType != NoAuth && call.app == Some(s.authenticators[h.authType](req.auth, metadata).value.name))
    && (!call.operation.opcode.IsKeyed() ==> call.app == None)
  }

  /** A request makes a call if and only if it may. */
  lemma RunsExactlyWhatItMay<P>(s: Service<P>, req: Request, metadata: Option<nat>, call: Call<P>)
    requires Built(s.backends)
    ensures Handle(s, Ok(req), metadata).1 == Some(call) <==> MayRun(s, req, metadata, call)
  {
  }

  /**
   With a converter that yields the operation of the opcode, whatever a request makes a provider do: it is
   the provider and the operation the request names; core operations run on the core provider only; keyed
   operations run under the name that the authenticator returned; admin operations run for admins only.
   */
  lemma CallsAreAuthorised<P>(s: Service<P>, req: Request, metadata: Option<nat>, call: Call<P>)
    requires Built(s.backends) && s.converter.Matches() && Handle(s, Ok(req), metadata).1 == Some(call)
    ensures var h := req.header;
            && h.provider in s.backends && call.provider == s.backends[h.provider].provider
                && call.operation.opcode == h.opcode
            && (call.operation.opcode.IsCore() <==> h.provider == Core)
            && (call.operation.opcode.IsKeyed() || call.operation.opcode.IsAdmin() ==>
                  h.authType in s.authenticators && s.authenticators[h.authType](req.auth, metadata).Ok?)
            && (call.operation.opcode.IsKeyed() ==>
                call.app == Some(s.authenticators[h.authType](req.auth, metadata).value.name))
            && (call.operation.opcode.IsAdmin() ==> s.authenticators[h.authType](req.auth, metadata).value.isAdmin)
    ensures call.app == None <==>
            call.operation.opcode in {Ping, ListProviders, ListOpcodes, ListAuthenticators, ListClients, DeleteClient,
                                      PsaHashCompute, PsaHashCompare, PsaGenerateRandom}
    ensures call.operation.opcode in {ListClients, DeleteClient} ==>
            req.header.authType in s.authenticators
            && s.authenticators[req.header.authType](req.auth, metadata).Ok?
            && s.authenticators[req.header.authType](req.auth, metadata).value.isAdmin
    ensures req.header.provider == Core <==>
            call.operation.opcode in {Ping, ListProviders, ListOpcodes, ListAuthenticators, ListKeys, ListClients,
                                      DeleteClient}
  {
    RunsExactlyWhatItMay(s, req, metadata, call);
    assert s.converter.toOperation(req.body, req.header.opcode).value.opcode == req.header.opcode;
  }

  // ----- What a request is answered -----

  /** No component that the service is built from fails with the status. */
  ghost predicate NeverFailsWith<P(!new)>(s: Service<P>, status: ResponseStatus) {
    && (forall call: Call<P> :: s.serve(call) != Err(status))
    && (forall body, opcode :: s.converter.toOperation(body, opcode) != Err(status))
    && (forall opcode, value :: s.converter.toBody(opcode, value) != Err(status))
    && (forall a, auth, metadata | a in s.authenticators :: s.authenticators[a](auth, metadata) != Err(status))
  }

  /** The body that a provider's result of the call is converted to, if the call succeeds and its result converts. */
  function Outcome<P>(s: Service<P>, call: Call<P>): (r: Result<seq<Byte>, ResponseStatus>) {
    match s.serve(call)
    case Ok(value) => s.converter.toBody(call.operation.opcode, value)
    case Err(status) => Err(status)
  }

  /** The response to a request that makes a call is the outcome of the call, under the header of the request. */
  lemma AnswerIsTheOutcome<P>(s: Service<P>, req: Request, metadata: Option<nat>, call: Call<P>)
    requires Built(s.backends) && MayRun(s, req, metadata, call)
    ensures Handle(s, Ok(req), metadata).0 ==
            match Outcome(s, call)
            case Ok(body) => Response(Some(req.header), Success, body)
            case Err(status) => Response(Some(req.header), status, [])
  {
    RunsExactlyWhatItMay(s, req, metadata, call);
  }

  /**
   A request is answered Success if and only if it may make a call that succeeds and whose result converts, and
   then the body is the converted result; every other answer has an empty body, and all have the request's header.
   */
  lemma SuccessIsEarned<P(!new)>(s: Service<P>, req: Request, metadata: Option<nat>)
    requires Built(s.backends) && NeverFailsWith(s, Success)
    ensures var r := Handle(s, Ok(req), metadata).0;
            && r.header == Some(req.header)
            && (r.status == Success <==> exists call :: MayRun(s, req, metadata, call) && Outcome(s, call).Ok?)
            && (forall call | MayRun(s, req, metadata, call) && r.status == Success :: Outcome(s, call) == Ok(r.body))
            && (r.status != Success ==> r.body == [])
  {
    var (r, made) := Handle(s, Ok(req), metadata);
    if made.Some? {
      RunsExactlyWhatItMay(s, req, metadata, made.value);
      AnswerIsTheOutcome(s, req, metadata, made.value);
    }
    forall call | MayRun(s, req, metadata, call) ensures made == Some(call) {
      RunsExactlyWhatItMay(s, req, metadata, call);
    }
  }

  /** The sender is nobody in particular, or an application that its authenticator knows. */
  predicate Identified<P>(s: Service<P>, req: Request, metadata: Option<nat>) {
    var a := req.header.authType;
    a == NoAuth || (a in s.authenticators && s.authenticators[a](req.auth, metadata).Ok?)
  }

  /** The handler of the provider takes the request. */
  predicate IsTaken<P>(s: Service<P>, req: Request, metadata: Option<nat>) {
    var h := req.header;
    && Identified(s, req, metadata) && h.provider in s.backends && (h.opcode.IsCore() <==> h.provider == Core)
    && h.contentType == s.backends[h.provider].contentType && h.acceptType == s.backends[h.provider].acceptType
  }

  /** Where no component uses it as well, each status of the service's own tells exactly why a request was refused. */
  lemma StatusTellsTheCause<P(!new)>(s: Service<P>, req: Request, metadata: Option<nat>, status: ResponseStatus)
    requires Built(s.backends) && NeverFailsWith(s, status)
    requires status in {AuthenticatorNotRegistered, ProviderNotRegistered, ContentTypeNotSupported,
                        AcceptTypeNotSupported, NotAuthenticated, AdminOperation}
    ensures Handle(s, Ok(req), metadata).0.status == status <==>
            var h := req.header;
            match status
            case AuthenticatorNotRegistered => h.authType != NoAuth && h.authType !in s.authenticators
            case ProviderNotRegistered => Identified(s, req, metadata) && h.provider !in s.backends
            case ContentTypeNotSupported =>
              Identified(s, req, metadata) && h.provider in s.backends && (h.opcode.IsCore() <==> h.provider == Core)
              && h.contentType != s.backends[h.provider].contentType
            case AcceptTypeNotSupported =>
              Identified(s, req, metadata) && h.provider in s.backends && (h.opcode.IsCore() <==> h.provider == Core)
              && h.contentType == s.backends[h.provider].contentType
              && h.acceptType != s.backends[h.provider].acceptType
            case AdminOperation =>
              IsTaken(s, req, metadata) && h.opcode in {ListClients, DeleteClient} && h.authType != NoAuth
              && !s.authenticators[h.authType](req.auth, metadata).value.isAdmin
            case NotAuthenticated =>
              IsTaken(s, req, metadata) && h.authType == NoAuth
              && (h.opcode in {ListClients, DeleteClient}
                  || var operation := s.converter.toOperation(req.body, h.opcode);
                     operation.Ok? && operation.value.opcode.IsKeyed())
            case _ => false
  {
  }

  /** What an authenticator or the converter fails with is the answer, and so is an opcode of the wrong provider. */
  lemma FailuresArePassedOn<P>(s: Service<P>, req: Request, metadata: Option<nat>)
    requires Built(s.backends)
    ensures var h, status := req.header, Handle(s, Ok(req), metadata).0.status;
            && (h.authType != NoAuth && h.authType in s.authenticators
                && s.authenticators[h.authType](req.auth, metadata).Err? ==>
                  status == s.authenticators[h.authType](req.auth, metadata).error)
            && (Identified(s, req, metadata) && h.provider in s.backends
                && (h.opcode.IsCore() <==> h.provider != Core) ==>
                  status == PsaErrorNotSupported)
            && (IsTaken(s, req, metadata) && s.converter.toOperation(req.body, h.opcode).Err?
                && (h.opcode in {ListClients, DeleteClient} ==>
                      h.authType != NoAuth && s.authenticators[h.authType](req.auth, metadata).value.isAdmin) ==>
                  status == s.converter.toOperation(req.body, h.opcode).error)
  {
  }

  /** In a built service the check of the provider id never fails, so no request is answered WrongProviderId. */
  lemma WrongProviderIdIsUnreachable<P(!new)>(s: Service<P>, req: Request, metadata: Option<nat>)
    requires Built(s.backends)
    ensures req.header.provider in s.backends ==>
        s.backends[req.header.provider].IsCapable(req.header) != Err(WrongProviderId)
    ensures NeverFailsWith(s, WrongProviderId) ==> Handle(s, Ok(req), metadata).0.status != WrongProviderId
  {
  }
}
