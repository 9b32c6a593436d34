/**
 HTTP request reassembly and demultiplexing (src/common/http_parser).
 llhttp is a parameter: a deterministic automaton that turns the bytes of one
 connection into callbacks.
 */
module HttpParser {

  type ConnId = nat

  /** The callbacks an HttpSession registers. Body carries what is left in
      `content_length` once `at` has been subtracted from it. */
  datatype Callback =
    | MessageBegin
    | Method(at: string)
    | Url(at: string)
    | Version(at: string)
    | HeadersComplete
    | Body(at: string, remaining: nat)
    | MessageComplete

  /** A message under construction: its head fields, and the arguments given
      so far to from_string on its body. */
  datatype Request = Request(head: map<string, string>, parsed: seq<string>)

  const NEW_REQUEST := Request(map[], [])

  /** `request_`, `content_`, and what was passed to the message handler. */
  datatype Session = Session(request: Request, content: string, delivered: seq<Request>)

  const NEW_SESSION := Session(NEW_REQUEST, "", [])

  /** set_value on the head of `request_`. */
  function WithHead(s: Session, name: string, at: string): Session {
    s.(request := s.request.(head := s.request.head[name := at]))
  }

  function Parse(s: Session, text: string): Session {
    s.(request := s.request.(parsed := s.request.parsed + [text]))
  }

  function OnBody(s: Session, at: string, remaining: nat): Session {
    if |s.content| == |at| then Parse(s, at)
    else
      var t := s.(content := s.content + at);
      if remaining == 0 then Parse(t, t.content) else t
  }

  function Dispatch(s: Session, cb: Callback): Session {
    match cb
    case MessageBegin => s.(request := NEW_REQUEST)
    case Method(at) => WithHead(s, "method", at)
    case Url(at) => WithHead(s, "url", at)
    case Version(at) => WithHead(s, "version", at)
    case HeadersComplete => s.(content := "")
    case Body(at, remaining) => OnBody(s, at, remaining)
    case MessageComplete => s.(delivered := s.delivered + [s.request])
  }

  function Feed(s: Session, cbs: seq<Callback>): Session {
    if cbs == [] then s else Dispatch(Feed(s, cbs[..|cbs|-1]), cbs[|cbs|-1])
  }

  // ---------------------------------------------------------------------
  // The parser and the connections
  // ---------------------------------------------------------------------

  /** What llhttp_execute did: the new state, the callbacks made, HPE_OK or not. */
  datatype Executed<P> = Executed(state: P, made: seq<Callback>, ok: bool)

  datatype Llhttp<!P> = Llhttp(init: P, execute: (P, string) -> Executed<P>, reset: P -> P)

  /** One connection's HttpSession with the llhttp_t it derives from. */
  datatype Conn<P> = Conn(state: P, session: Session)

  function NewConn<P>(llhttp: Llhttp<P>): Conn<P> { Conn(llhttp.init, NEW_SESSION) }

  /** HttpSession::on_recv. */
  function Recv<P>(llhttp: Llhttp<P>, c: Conn<P>, data: string): Conn<P> {
    var done := llhttp.execute(c.state, data);
    Conn(if done.ok then done.state else llhttp.reset(done.state), Feed(c.session, done.made))
  }

  /** HttpServer::on_recv: find or make the session of the connection. */
  function Serve<P>(llhttp: Llhttp<P>, conns: map<ConnId, Conn<P>>, conn: ConnId, data: string): map<ConnId, Conn<P>> {
    var c := if conn in conns then conns[conn] else NewConn(llhttp);
    conns[conn := Recv(llhttp, c, data)]
  }

  // ---------------------------------------------------------------------
  // The objects
  // ---------------------------------------------------------------------

  class HttpSession<P> {
    const llhttp: Llhttp<P>
    var state: P
    var request: Request
    var content: string
    var delivered: seq<Request>

    ghost function Value(): Session
      reads this
    {
      Session(request, content, delivered)
    }

    ghost function View(): Conn<P>
      reads this
    {
      Conn(state, Value())
    }

    constructor (llhttp: Llhttp<P>)
      ensures this.llhttp == llhttp && View() == NewConn(llhttp)
    {
      this.llhttp := llhttp;
      state := llhttp.init;
      request, content, delivered := NEW_REQUEST, "", [];
    }

    method SetHead(name: string, at: string)
      modifies this
      ensures Value() == WithHead(old(Value()), name, at) && state == old(state)
    {
      request := request.(head := request.head[name := at]);
    }

    method FromString(text: string)
      modifies this
      ensures Value() == Parse(old(Value()), text) && state == old(state)
    {
      request := request.(parsed := request.parsed + [text]);
    }

    method HandleOnBody(at: string, remaining: nat)
      modifies this
      ensures Value() == OnBody(old(Value()), at, remaining) && state == old(state)
    {
      if |content| == |at| {
        FromString(at);
      } else {
        content := content + at;
        if remaining == 0 {
          FromString(content);
        }
      }
    }

    method Handle(cb: Callback)
      modifies this
      ensures Value() == Dispatch(old(Value()), cb) && state == old(state)
    {
      match cb
      case MessageBegin => request := NEW_REQUEST;
      case Method(at) => SetHead("method", at);
      case Url(at) => SetHead("url", at);
      case Version(at) => SetHead("version", at);
      case HeadersComplete => content := "";
      case Body(at, remaining) => HandleOnBody(at, remaining);
      case MessageComplete => delivered := delivered + [request];
    }

    method OnRecv(data: string)
      modifies this
      ensures View() == Recv(llhttp, old(View()), data)
    {
      var done := llhttp.execute(state, data);
      for i := 0 to |done.made|
        invariant Value() == Feed(old(Value()), done.made[..i]) && state == old(state)
      {
        assert done.made[..i+1][..i] == done.made[..i];
        Handle(done.made[i]);
      }
      assert done.made[..|done.made|] == done.made;
      state := if done.ok then done.state else llhttp.reset(done.state);
    }
  }

  class HttpServer<P> {
    const llhttp: Llhttp<P>
    var sessions: map<ConnId, HttpSession<P>>

    /** Every connection has a session object of its own. */
    ghost predicate Valid()
      reads this, sessions.Values
    {
      && (forall k :: k in sessions ==> sessions[k].llhttp == llhttp)
      && (forall k, l :: k in sessions && l in sessions && k != l ==> sessions[k] != sessions[l])
    }

    ghost function View(): map<ConnId, Conn<P>>
      reads this, sessions.Values
    {
      map k | k in sessions :: sessions[k].View()
    }

    constructor (llhttp: Llhttp<P>)
      ensures Valid() && View() == map[] && this.llhttp == llhttp
    {
      this.llhttp := llhttp;
      sessions := map[];
    }

    /** Find the session of a connection, or make it. */
    method SessionOf(conn: ConnId) returns (session: HttpSession<P>)
      requires Valid()
      modifies this
      ensures Valid() && conn in sessions && sessions[conn] == session
      ensures sessions.Values <= old(sessions.Values) + {session}
      ensures session in old(sessions.Values) || fresh(session)
      ensures View() == if conn in old(sessions) then old(View()) else old(View())[conn := NewConn(llhttp)]
    {
      if conn in sessions {
        session := sessions[conn];
      } else {
        session := new HttpSession(llhttp);
        sessions := sessions[conn := session];
      }
    }

    method Deliver(conn: ConnId, data: string)
      requires Valid() && conn in sessions
      modifies sessions[conn]
      ensures Valid() && View() == old(View())[conn := Recv(llhttp, old(View())[conn], data)]
    {
      hide Recv;
      sessions[conn].OnRecv(data);
    }

    method OnRecv(conn: ConnId, data: string)
      requires Valid()
      modifies this, sessions.Values
      ensures Valid() && fresh(sessions.Values - old(sessions.Values))
      ensures View() == Serve(llhttp, old(View()), conn, data)
    {
      hide Recv, Valid;
      assert forall k :: k in View() <==> k in sessions;
      var session := SessionOf(conn);
      Deliver(conn, data);
    }
  }
}
