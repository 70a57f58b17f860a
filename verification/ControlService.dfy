// The service's end of the control protocol (internal/core/service.go): one
// connection's lines, in order, behind a handshake.

module ControlService {
  import opened Wrappers

  const HELLO := "hello"
  const SHUTDOWN := "shutdown"

  datatype Request = Request(id: nat, cmd: string, token: string, body: string)

  /** A blank line is skipped; one that is not a request is answered without an id. */
  datatype Line = Blank | Malformed(error: string) | Asked(request: Request)

  datatype Response = Response(id: nat, ok: bool, body: string)

  /** What the service does for an authenticated request. */
  datatype World = World(
    token: string, greet: Request -> string, perform: Request -> (bool, string), delivers: Response -> bool)

  function Answer(w: World, q: Request): Response {
    Response(q.id, w.perform(q).0, w.perform(q).1)
  }

  predicate TokenMatches(w: World, candidate: string) {
    w.token != "" && candidate == w.token
  }

  predicate Admits(w: World, q: Request) {
    q.cmd == HELLO && TokenMatches(w, q.token)
  }

  const UNAUTHORIZED := "unauthorized"

  /** A connection so far; log holds the requests read with the reply each was sent. */
  datatype Session = Session(
    authenticated: bool, open: bool, shutdown: bool, sent: seq<Response>, log: seq<(Request, Response)>, performed: seq<Request>)

  const FRESH := Session(false, true, false, [], [], [])

  function Reply(s: Session, q: Request, r: Response): Session {
    s.(sent := s.sent + [r], log := s.log + [(q, r)])
  }

  function Hear(w: World, s: Session, line: Line): Session {
    if !s.open then s
    else match line
      case Blank => s
      case Malformed(error) => s.(sent := s.sent + [Response(0, false, error)])
      case Asked(q) =>
        if !s.authenticated then
          if Admits(w, q) then Reply(s, q, Response(q.id, true, w.greet(q))).(authenticated := true)
          else Reply(s, q, Response(q.id, false, UNAUTHORIZED)).(open := false)
        else
          var next := Reply(s, q, Answer(w, q)).(performed := s.performed + [q]);
          if !w.delivers(Answer(w, q)) then next.(open := false)
          else if q.cmd == SHUTDOWN then next.(open := false, shutdown := true)
          else next
  }

  function Heard(w: World, lines: seq<Line>): Session {
    if lines == [] then FRESH else Hear(w, Heard(w, lines[..|lines| - 1]), lines[|lines| - 1])
  }

  /** A connection being served. */
  class Connection {
    const w: World
    var authenticated: bool
    var sent: seq<Response>
    var shutdown: bool
    ghost var log: seq<(Request, Response)>
    ghost var performed: seq<Request>

    constructor (w: World)
      ensures this.w == w && View(true) == FRESH
    {
      this.w := w;
      authenticated, sent, shutdown, log, performed := false, [], false, [], [];
    }

    ghost function View(open: bool): Session
      reads this
    {
      Session(authenticated, open, shutdown, sent, log, performed)
    }

    /** One request, up to whether the connection goes on. */
    method Handle(q: Request) returns (goOn: bool)
      modifies this
      ensures View(goOn) == Hear(w, old(View(true)), Asked(q))
    {
      if !authenticated {
        var admitted := Admits(w, q);
        var reply := if admitted then Response(q.id, true, w.greet(q)) else Response(q.id, false, UNAUTHORIZED);
        authenticated := admitted;
        sent, log := sent + [reply], log + [(q, reply)];
        return admitted;
      }
      var reply := Answer(w, q);
      sent, log, performed := sent + [reply], log + [(q, reply)], performed + [q];
      if !w.delivers(reply) { return false; }
      if q.cmd == SHUTDOWN {
        shutdown := true;
        return false;
      }
      return true;
    }

    method Serve(lines: seq<Line>)
      requires View(true) == FRESH
      modifies this
      ensures View(Heard(w, lines).open) == Heard(w, lines)
    {
      var goOn := true;
      var i := 0;
      while i < |lines| && goOn
        invariant 0 <= i <= |lines|
        invariant View(goOn) == Heard(w, lines[..i])
        decreases |lines| - i
      {
        assert lines[..i + 1][..i] == lines[..i];
        match lines[i] {
          case Blank =>
          case Malformed(error) => sent := sent + [Response(0, false, error)];
          case Asked(q) => goOn := Handle(q);
        }
        i := i + 1;
      }
      ClosedHearsNothing(w, lines, i);
      assert lines[..|lines|] == lines;
    }
  }

  lemma {:induction false} ClosedHearsNothing(w: World, lines: seq<Line>, i: nat)
    requires i <= |lines| && (i < |lines| ==> !Heard(w, lines[..i]).open)
    ensures Heard(w, lines) == Heard(w, lines[..i])
    decreases |lines|
  {
    if i == |lines| {
      assert lines[..i] == lines;
    } else {
      assert lines[..|lines| - 1][..i] == lines[..i];
      ClosedHearsNothing(w, lines[..|lines| - 1], i);
    }
  }

  // ------------------------------------------------------------ the promises

  function RequestsOf(lines: seq<Line>): seq<Request> {
    if lines == [] then []
    else
      var last := lines[|lines| - 1];
      RequestsOf(lines[..|lines| - 1]) + (if last.Asked? then [last.request] else [])
  }

  function Told(log: seq<(Request, Response)>): seq<Request> {
    seq(|log|, i requires 0 <= i < |log| => log[i].0)
  }

  /** The request a connection's fate hangs on: the first one it sends. */
  predicate Welcome(w: World, lines: seq<Line>) {
    RequestsOf(lines) != [] && Admits(w, RequestsOf(lines)[0])
  }

  /** What a line can add: at most one request with the reply to it. */
  lemma HearAdds(w: World, s: Session, line: Line)
    ensures var next := Hear(w, s, line);
      if s.open && line.Asked?
      then
        && |next.log| == |s.log| + 1 && next.log[..|s.log|] == s.log
        && next.log[|s.log|].0 == line.request && next.log[|s.log|].1.id == line.request.id
        && next.sent == s.sent + [next.log[|s.log|].1]
      else
        && next.log == s.log && next.performed == s.performed && next.authenticated == s.authenticated
        && next.open == s.open && s.sent <= next.sent && next.shutdown == s.shutdown
  {
  }

  /** How many lines are read: all of them, or those up to the one the connection ended on. */
  function LinesRead(w: World, lines: seq<Line>): (n: nat)
    ensures n <= |lines|
  {
    if lines == [] then 0
    else if Heard(w, lines[..|lines| - 1]).open then |lines|
    else LinesRead(w, lines[..|lines| - 1])
  }

  /** Line by line: nothing for a blank one, a complaint for one that is no request, and for a request its reply. */
  function Transcript(lines: seq<Line>, replies: seq<Response>): seq<Response>
    requires |replies| == |RequestsOf(lines)|
  {
    if lines == [] then []
    else
      var init := lines[..|lines| - 1];
      match lines[|lines| - 1]
      case Blank => Transcript(init, replies)
      case Malformed(error) => Transcript(init, replies) + [Response(0, false, error)]
      case Asked(_) => Transcript(init, replies[..|replies| - 1]) + [replies[|replies| - 1]]
  }

  function Replies(log: seq<(Request, Response)>): seq<Response> {
    seq(|log|, i requires 0 <= i < |log| => log[i].1)
  }

  lemma TranscriptMore(lines: seq<Line>, line: Line, log: seq<(Request, Response)>, entry: (Request, Response))
    requires |log| == |RequestsOf(lines)|
    ensures RequestsOf(lines + [line]) == RequestsOf(lines) + if line.Asked? then [line.request] else []
    ensures Told(log + [entry]) == Told(log) + [entry.0] && Replies(log + [entry]) == Replies(log) + [entry.1]
    ensures line.Asked? ==> Transcript(lines + [line], Replies(log + [entry])) == Transcript(lines, Replies(log)) + [entry.1]
    ensures line.Malformed? ==>
      Transcript(lines + [line], Replies(log)) == Transcript(lines, Replies(log)) + [Response(0, false, line.error)]
    ensures line.Blank? ==> Transcript(lines + [line], Replies(log)) == Transcript(lines, Replies(log))
  {
    assert (lines + [line])[..|lines|] == lines;
    assert Replies(log + [entry])[..|log|] == Replies(log);
  }

  /** The lines read so far, answered one by one. */
  ghost predicate Answered(s: Session, read: seq<Line>) {
    && Told(s.log) == RequestsOf(read) && s.sent == Transcript(read, Replies(s.log))
    && (forall entry <- s.log :: entry.1.id == entry.0.id)
    && (!s.open ==> read != [] && read[|read| - 1].Asked?)
  }

  lemma HearAnswered(w: World, s: Session, read: seq<Line>, line: Line)
    requires Answered(s, read) && s.open
    ensures Answered(Hear(w, s, line), read + [line])
  {
    var next := Hear(w, s, line);
    HearAdds(w, s, line);
    assert |RequestsOf(read)| == |s.log|;
    if line.Asked? {
      var entry := next.log[|s.log|];
      assert next.log == s.log + [entry];
      TranscriptMore(read, line, s.log, entry);
    } else {
      TranscriptMore(read, line, s.log, (Request(0, "", "", ""), Response(0, false, "")));
    }
  }

  /**
   * One reply to each request read, in order and under the request's own id,
   * and nothing else but a complaint for each line that is no request: what is
   * sent is, line by line, what the lines read ask for. An open connection has
   * read everything; a closed one nothing after the request it closed on.
   */
  lemma {:induction false} OneReplyEach(w: World, lines: seq<Line>)
    ensures var s, n := Heard(w, lines), LinesRead(w, lines);
      && Told(s.log) == RequestsOf(lines[..n]) && s.sent == Transcript(lines[..n], Replies(s.log))
      && (forall entry <- s.log :: entry.1.id == entry.0.id)
      && (s.open ==> n == |lines|)
      && (!s.open ==> n > 0 && lines[n - 1].Asked?)
  {
    if lines != [] {
      var init, last := lines[..|lines| - 1], lines[|lines| - 1];
      OneReplyEach(w, init);
      var n := LinesRead(w, init);
      assert lines[..n] == init[..n];
      if Heard(w, init).open {
        assert init[..n] == init && lines == init + [last] && lines[..|lines|] == lines;
        HearAnswered(w, Heard(w, init), init, last);
      }
    }
  }

  /** A request among the lines read is a request among the lines. */
  lemma {:induction false} ReadAsks(lines: seq<Line>, n: nat)
    requires n <= |lines|
    ensures 0 < n && lines[n - 1].Asked? ==> RequestsOf(lines) != []
  {
    if n < |lines| {
      ReadAsks(lines[..|lines| - 1], n);
    }
  }

  /** Before the gate nothing is performed; behind it, everything after the greeting is, in order. */
  ghost predicate Gated(w: World, s: Session, asked: seq<Request>) {
    && (s.authenticated <==> asked != [] && Admits(w, asked[0]))
    && (if s.authenticated then
          |s.performed| == |s.log| - 1 && forall k :: 0 <= k < |s.performed| ==>
            s.performed[k] == s.log[k + 1].0 && s.log[k + 1].1 == Answer(w, s.performed[k])
        else
          && s.performed == [] && !s.shutdown && |s.log| <= 1 && (s.open <==> asked == []) && (s.open <==> s.log == [])
          && (s.log != [] ==> s.log[0].1 == Response(asked[0].id, false, UNAUTHORIZED)))
  }

  lemma HearGated(w: World, s: Session, line: Line, asked: seq<Request>)
    requires Gated(w, s, asked) && (!s.open ==> asked != [])
    ensures Gated(w, Hear(w, s, line), if line.Asked? then asked + [line.request] else asked)
  {
    if line.Asked? && asked != [] {
      assert (asked + [line.request])[0] == asked[0];
    }
  }

  /**
   * The handshake is a gate: the service performs nothing for a connection whose
   * first request is not a greeting with the session's token, and sends it one
   * refusal; behind the gate every request read is performed, in order.
   */
  lemma {:induction false} OnlyBehindTheToken(w: World, lines: seq<Line>)
    ensures Gated(w, Heard(w, lines), RequestsOf(lines))
    ensures Heard(w, lines).performed != [] ==> Welcome(w, lines)
  {
    if lines != [] {
      var init, last := lines[..|lines| - 1], lines[|lines| - 1];
      OnlyBehindTheToken(w, init);
      OneReplyEach(w, init);
      ReadAsks(init, LinesRead(w, init));
      HearGated(w, Heard(w, init), last, RequestsOf(init));
    }
  }

  /** An empty token admits nobody. */
  lemma NoTokenAdmitsNobody(w: World, lines: seq<Line>)
    requires w.token == ""
    ensures Heard(w, lines).performed == [] && !Heard(w, lines).authenticated
  {
    OnlyBehindTheToken(w, lines);
  }
}
