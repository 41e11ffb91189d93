/** The resumable parser of HTTP requests: a state machine over the bytes not solved yet. */
module RequestParser {
  import opened Wrappers
  import Pacing

  // ----- Searching -----

  predicate At(s: string, pat: string, i: nat) {
    i + |pat| <= |s| && s[i..i + |pat|] == pat
  }

  function FindFrom(s: string, pat: string, i: nat): (r: Option<nat>)
    requires i <= |s|
    ensures r.Some? ==> i <= r.value && At(s, pat, r.value) && forall j :: i <= j < r.value ==> !At(s, pat, j)
    ensures r.None? ==> forall j :: i <= j <= |s| ==> !At(s, pat, j)
    decreases |s| - i
  {
    if At(s, pat, i) then Some(i) else if i == |s| then None else FindFrom(s, pat, i + 1)
  }

  function Find(s: string, pat: string): (r: Option<nat>)
    ensures r.Some? ==> At(s, pat, r.value) && forall j :: 0 <= j < r.value ==> !At(s, pat, j)
    ensures r.None? ==> forall j :: 0 <= j <= |s| ==> !At(s, pat, j)
  {
    FindFrom(s, pat, 0)
  }

  /** Cuts `s` at the last `c`, as rfind and two substrings do. */
  function CutLast(s: string, c: char): (r: (string, Option<string>))
    ensures r.1.None? ==> c !in s && r.0 == s
    ensures r.1.Some? ==> s == r.0 + [c] + r.1.value && c !in r.1.value
    decreases |s|
  {
    if s == [] then (s, None)
    else
      var n := |s| - 1;
      assert s == s[..n] + [s[n]];
      if s[n] == c then (s[..n], Some(""))
      else
        var (head, tail) := CutLast(s[..n], c);
        if tail.None? then (s, None)
        else
          assert s == head + [c] + (tail.value + [s[n]]);
          (head, Some(tail.value + [s[n]]))
  }

  lemma AtMore(s: string, more: string, pat: string, i: nat)
    ensures i + |pat| <= |s| ==> (At(s + more, pat, i) <==> At(s, pat, i))
  {
    if i + |pat| <= |s| {
      assert (s + more)[i..i + |pat|] == s[i..i + |pat|];
    }
  }

  /** What has been found stays found when more text comes. */
  lemma FindStands(s: string, more: string, pat: string)
    ensures Find(s, pat).Some? ==> Find(s + more, pat) == Find(s, pat)
  {
    if Find(s, pat).Some? {
      var i := Find(s, pat).value;
      AtMore(s, more, pat, i);
      var j := Find(s + more, pat).value;
      if j < i { AtMore(s, more, pat, j); }
    }
  }

  // ----- The request -----

  datatype Request = Request(
    method_: string, uri: string, query: string, fragment: string, version: string,
    headers: map<string, string>, body: string)

  const NoRequest := Request("", "", "", "", "", map[], "")

  const Methods := ["GET", "HEAD", "POST", "PUT", "DELETE", "CONNECT", "OPTIONS", "TRACE", "PATCH"]
  const LONG_MAX: nat := 0x7fff_ffff_ffff_ffff

  predicate IsControl(c: char) {
    c < ' ' || c == 127 as char
  }

  predicate IsDigit(c: char) {
    '0' <= c <= '9'
  }

  function CheckMethod(method_: string, q: Request): Option<Request> {
    if method_ in Methods then Some(q.(method_ := method_)) else None
  }

  function CheckUri(uri: string, q: Request): Option<Request> {
    if uri == "" || exists c :: c in uri && IsControl(c) then None
    else
      var (rest, fragment) := CutLast(uri, '#');
      var q1 := if fragment.Some? then q.(fragment := fragment.value) else q;
      var (path, query) := CutLast(rest, '?');
      var q2 := if query.Some? then q1.(query := query.value) else q1;
      Some(q2.(uri := path))
  }

  function CheckVersion(version: string, q: Request): Option<Request> {
    if version != "HTTP/1.1" && version != "HTTP/1.0" then None else Some(q.(version := version))
  }

  function CheckHeaderValue(name: string, text: string, q: Request): Option<Request> {
    if |text| <= 1 || text[0] != ' ' then None
    else
      var value := text[1..];
      if name == "Content-Length" && exists c :: c in value && !IsDigit(c) then None
      else Some(q.(headers := q.headers[name := value]))
  }

  /** atol of a run of digits, which stops at LONG_MAX. */
  function Atol(digits: string): (n: nat)
    ensures n <= LONG_MAX
  {
    if digits == "" || !IsDigit(digits[|digits| - 1]) then 0
    else
      var n := 10 * Atol(digits[..|digits| - 1]) + (digits[|digits| - 1] - '0') as nat;
      if n > LONG_MAX then LONG_MAX else n
  }

  predicate AllDigits(s: string) {
    forall i :: 0 <= i < |s| ==> IsDigit(s[i])
  }

  function Decimal(digits: string): nat
    requires AllDigits(digits)
  {
    if digits == "" then 0
    else 10 * Decimal(digits[..|digits| - 1]) + (digits[|digits| - 1] - '0') as nat
  }

  // What the digits say in decimal, no more than a long holds; 0 of anything else.
  function AsLong(digits: string): nat {
    if !AllDigits(digits) then 0
    else if Decimal(digits) <= 0x7fff_ffff_ffff_ffff then Decimal(digits) else 0x7fff_ffff_ffff_ffff
  }

  lemma {:induction false} AtolSaturates(digits: string)
    requires AllDigits(digits)
    ensures Atol(digits) == AsLong(digits)
  {
    if digits != "" {
      AtolSaturates(digits[..|digits| - 1]);
    }
  }

  function BodySize(q: Request): nat {
    if "Content-Length" in q.headers then Atol(q.headers["Content-Length"]) else 0
  }

  // ----- One turn of the loop -----

  datatype Mode = Method | Uri | Version | HeaderName | HeaderValue | Body

  datatype Turn =
    | Next(mode: Mode, rest: string, name: string, q: Request)
    | Keep
    | Bad
    | Done(rest: string, q: Request)

  function Advance(q: Option<Request>, mode: Mode, rest: string, name: string): Turn {
    if q.None? then Bad else Next(mode, rest, name, q.value)
  }

  lemma MethodsAreShort(method_: string)
    ensures method_ in Methods ==> |method_| <= 7
  {
  }

  function TurnOf(mode: Mode, content: string, name: string, q: Request): (r: Turn)
    ensures r.Next? ==> |r.rest| < |content| && (r.mode.Method? ==> mode.Method?)
    ensures r.Done? ==> mode.Body? && |r.rest| <= |content|
  {
    match mode
    case Method =>
      var pos := Find(content, " ");
      MethodsAreShort(content);
      if pos.None? && |content| < 8 then Keep
      else if pos.None? then
        // The method is all there is: 8 characters without a space are too many for any.
        (if CheckMethod(content, q).None? then Bad else assert false; Bad)
      else Advance(CheckMethod(content[..pos.value], q), Uri, content[pos.value + 1..], name)
    case Uri =>
      var pos := Find(content, " ");
      if pos.None? then Keep else Advance(CheckUri(content[..pos.value], q), Version, content[pos.value + 1..], name)
    case Version =>
      var pos := Find(content, "\r\n");
      if pos.None? then Keep else Advance(CheckVersion(content[..pos.value], q), HeaderName, content[pos.value + 2..], name)
    case HeaderName =>
      if Find(content, "\r\n") == Some(0) then Next(Body, content[2..], name, q)
      else
        var pos := Find(content, ":");
        if pos.None? then Keep
        else if pos.value == 0 then Bad
        else Next(HeaderValue, content[pos.value + 1..], content[..pos.value], q)
    case HeaderValue =>
      var pos := Find(content, "\r\n");
      if pos.None? then Keep
      else Advance(CheckHeaderValue(name, content[..pos.value], q), HeaderName, content[pos.value + 2..], name)
    case Body =>
      var size := BodySize(q);
      if |content| < size then Keep else Done(content[size..], q.(body := content[..size]))
  }

  /** More text does not change the outcome of a turn that had enough. */
  lemma TurnStands(mode: Mode, content: string, name: string, q: Request, more: string)
    ensures var t, t' := TurnOf(mode, content, name, q), TurnOf(mode, content + more, name, q);
            match t
              case Next(m, rest, n, q1) => t' == Next(m, rest + more, n, q1)
              case Done(rest, q1) => t' == Done(rest + more, q1)
              case Bad => t' == Bad
              case Keep => true
  {
    match mode
    case Method => MethodStands(content, name, q, more);
    case Uri => CutStands(content, more, " ");
    case Version => CutStands(content, more, "\r\n");
    case HeaderName => HeaderNameStands(content, name, q, more);
    case HeaderValue => CutStands(content, more, "\r\n");
    case Body => BodyStands(content, name, q, more);
  }

  lemma BodyStands(content: string, name: string, q: Request, more: string)
    ensures var t, t' := TurnOf(Body, content, name, q), TurnOf(Body, content + more, name, q);
            && (t.Done? ==> t' == Done(t.rest + more, t.q)) && !t.Next? && !t.Bad?
  {
    var size := BodySize(q);
    if |content| >= size {
      assert (content + more)[..size] == content[..size];
      assert (content + more)[size..] == content[size..] + more;
    }
  }

  lemma CutStands(content: string, more: string, pat: string)
    ensures Find(content, pat).Some? ==>
      var i := Find(content, pat).value;
      && Find(content + more, pat) == Some(i)
      && (content + more)[..i] == content[..i]
      && (content + more)[i + |pat|..] == content[i + |pat|..] + more
  {
    FindStands(content, more, pat);
  }

  lemma MethodStands(content: string, name: string, q: Request, more: string)
    ensures var t, t' := TurnOf(Method, content, name, q), TurnOf(Method, content + more, name, q);
            && (t.Next? ==> t' == Next(t.mode, t.rest + more, t.name, t.q))
            && (t.Bad? ==> t' == Bad) && !t.Done?
  {
    CutStands(content, more, " ");
    var i := Find(content + more, " ");
    if Find(content, " ").None? && |content| >= 8 && i.Some? {
      AtMore(content, more, " ", i.value);
      MethodsAreShort((content + more)[..i.value]);
    }
  }

  lemma HeaderNameStands(content: string, name: string, q: Request, more: string)
    ensures var t, t' := TurnOf(HeaderName, content, name, q), TurnOf(HeaderName, content + more, name, q);
            && (t.Next? ==> t' == Next(t.mode, t.rest + more, t.name, t.q))
            && (t.Bad? ==> t' == Bad) && !t.Done?
  {
    CutStands(content, more, "\r\n");
    CutStands(content, more, ":");
    if Find(content + more, "\r\n") == Some(0) && Find(content, ":").Some? {
      var i := Find(content, ":").value;
      assert (content + more)[0..2] == "\r\n";
      assert content[i..i + 1] == ":" && content[i] == ':';
      assert (content + more)[0] == '\r' && (content + more)[1] == '\n';
      assert i >= 2;
      AtMore(content, more, "\r\n", 0);
    }
  }

  // ----- Parsing -----

  // unsolved: the text kept for the next Parse.
  datatype State = State(mode: Mode, unsolved: string, name: string)

  datatype Verdict = OK | KEEP | BAD

  // After BAD the state is not used again.
  datatype Outcome = Outcome(verdict: Verdict, s: State, q: Request)

  const Fresh := State(Method, "", "")

  function Run(s: State, q: Request): (r: Outcome)
    ensures r.verdict.OK? ==> r.s.mode.Method? && |r.s.unsolved| <= |s.unsolved|
    ensures r.verdict.OK? && !s.mode.Body? ==> |r.s.unsolved| < |s.unsolved|
    ensures |r.s.unsolved| <= |s.unsolved|
    decreases |s.unsolved|
  {
    match TurnOf(s.mode, s.unsolved, s.name, q)
    case Next(mode, rest, name, q') => Run(State(mode, rest, name), q')
    case Keep => Outcome(KEEP, s, q)
    case Bad => Outcome(BAD, s, q)
    case Done(rest, q') => Outcome(OK, State(Method, rest, s.name), q')
  }

  function Feed(s: State, text: string): State {
    s.(unsolved := s.unsolved + text)
  }

  function Parsed(s: State, text: string, q: Request): Outcome {
    Run(Feed(s, text), q)
  }

  /** Prefix stability, in one lemma: from what a prefix led to, more text leads where the
      whole text leads; what is complete or bad after a prefix stays so. */
  lemma {:induction false} RunStands(s: State, q: Request, more: string)
    ensures Run(s, q).verdict.KEEP? ==> Run(Feed(s, more), q) == Run(Feed(Run(s, q).s, more), Run(s, q).q)
    ensures Run(s, q).verdict.OK? ==> Run(Feed(s, more), q) == Run(s, q).(s := Feed(Run(s, q).s, more))
    ensures Run(s, q).verdict.BAD? ==> Run(Feed(s, more), q).verdict.BAD?
    decreases |s.unsolved|
  {
    TurnStands(s.mode, s.unsolved, s.name, q, more);
    match TurnOf(s.mode, s.unsolved, s.name, q)
    case Next(mode, rest, name, q') => RunStands(State(mode, rest, name), q', more);
    case _ =>
  }

  /** Parsing two pieces after KEEP is parsing them at once. */
  lemma PiecesJoin(s: State, a: string, b: string, q: Request)
    requires Parsed(s, a, q).verdict.KEEP?
    ensures Parsed(Parsed(s, a, q).s, b, Parsed(s, a, q).q) == Parsed(s, a + b, q)
  {
    RunStands(Feed(s, a), q, b);
    FeedTwice(s, a, b);
  }

  lemma FeedTwice(s: State, a: string, b: string)
    ensures Feed(Feed(s, a), b) == Feed(s, a + b)
  {
    assert (s.unsolved + a) + b == s.unsolved + (a + b);
  }

  // ----- Many requests on one connection -----

  // The requests completed; whether one was bad; and the parser and request after them.
  datatype Served = Served(done: seq<Request>, bad: bool, s: State, q: Request)

  function Before(done: seq<Request>, r: Served): Served {
    r.(done := done + r.done)
  }

  lemma BeforeTwice(a: seq<Request>, b: seq<Request>, r: Served)
    ensures Before(a, Before(b, r)) == Before(a + b, r) && Before([], r) == r
  {
    assert a + (b + r.done) == (a + b) + r.done;
  }

  /** Parse as long as it completes requests, each into a new one. */
  function Serve(s: State, q: Request): Served {
    Settle(Run(s, q))
  }

  function Settle(r: Outcome): Served
    requires r.verdict.OK? ==> r.s.mode.Method?
    decreases |r.s.unsolved|, if r.verdict.OK? then 1 else 0
  {
    match r.verdict
    case KEEP => Served([], false, r.s, r.q)
    case BAD => Served([], true, r.s, r.q)
    case OK => Before([r.q], Settle(Run(r.s, NoRequest)))
  }

  /** The verdict `all` on a whole text agrees with `a` on a beginning of it: requests already
      recovered stay, what was bad is bad, and else it goes on from where `a` stood. */
  ghost predicate Extends(a: Served, more: string, all: Served) {
    if a.bad then all.bad && all.done == a.done else all == Before(a.done, Serve(Feed(a.s, more), a.q))
  }

  lemma {:induction false} ServeStands(s: State, q: Request, more: string)
    ensures Extends(Serve(s, q), more, Serve(Feed(s, more), q))
    decreases |s.unsolved|, if s.mode.Body? then 1 else 0
  {
    RunStands(s, q, more);
    var r := Run(s, q);
    if r.verdict.OK? {
      ServeStands(r.s, NoRequest, more);
      ExtendsBefore([r.q], Serve(r.s, NoRequest), more, Serve(Feed(r.s, more), NoRequest));
    } else if r.verdict.KEEP? {
      BeforeTwice([], [], Serve(Feed(r.s, more), r.q));
    }
  }

  lemma ExtendsBefore(done: seq<Request>, a: Served, more: string, all: Served)
    requires Extends(a, more, all)
    ensures Extends(Before(done, a), more, Before(done, all))
  {
    BeforeTwice(done, a.done, Serve(Feed(a.s, more), a.q));
  }

  function Join(pieces: seq<string>): string {
    if pieces == [] then "" else pieces[0] + Join(pieces[1..])
  }

  /** The connection's loop over the pieces read, until one is bad. */
  function ServePieces(s: State, q: Request, pieces: seq<string>): Served
    requires pieces != []
    decreases |pieces|
  {
    var a := Serve(Feed(s, pieces[0]), q);
    if a.bad || |pieces| == 1 then a else Before(a.done, ServePieces(a.s, a.q, pieces[1..]))
  }

  /** The same requests, the same verdict, and the same state unless it is over. */
  predicate Agree(a: Served, b: Served) {
    a.done == b.done && a.bad == b.bad && (!a.bad ==> a == b)
  }

  /** Any cutting of the text into pieces recovers the same requests and the same verdict. */
  lemma {:induction false} AnyCutting(s: State, q: Request, pieces: seq<string>)
    requires pieces != []
    ensures Agree(ServePieces(s, q, pieces), Serve(Feed(s, Join(pieces)), q))
    decreases |pieces|
  {
    var later := pieces[1..];
    var a := Serve(Feed(s, pieces[0]), q);
    ServeStands(Feed(s, pieces[0]), q, Join(later));
    FeedTwice(s, pieces[0], Join(later));
    if |pieces| == 1 {
      assert pieces[0] + Join(later) == pieces[0];
    } else if !a.bad {
      AnyCutting(a.s, a.q, later);
    }
  }

  // ----- Pipelining -----

  lemma TurnForgetsName(mode: Mode, content: string, name: string, other: string, q: Request)
    requires !mode.HeaderValue?
    ensures var t, u := TurnOf(mode, content, name, q), TurnOf(mode, content, other, q);
            u == if t.Next? && !t.mode.HeaderValue? then t.(name := other) else t
  {
  }

  /** The name of the last header matters to nobody but a header value. */
  lemma {:induction false} NameIsForgotten(s: State, q: Request, name: string)
    requires !s.mode.HeaderValue?
    ensures var a, b := Run(s, q), Run(s.(name := name), q);
            a.verdict == b.verdict && a.q == b.q && a.s.(name := "") == b.s.(name := "")
    decreases |s.unsolved|
  {
    TurnForgetsName(s.mode, s.unsolved, s.name, name, q);
    match TurnOf(s.mode, s.unsolved, s.name, q)
    case Next(mode, rest, n, q') =>
      if !mode.HeaderValue? { NameIsForgotten(State(mode, rest, n), q', name); }
    case _ =>
  }

  /** A text that is one request: parsed from the start it completes and nothing is left. */
  predicate IsRequest(text: string, q: Request) {
    var r := Run(State(Method, text, ""), NoRequest);
    r.verdict.OK? && r.q == q && r.s.unsolved == ""
  }

  /** Requests one after the other are recovered one after the other. */
  lemma {:induction false} Pipelined(texts: seq<string>, qs: seq<Request>, name: string)
    requires |texts| == |qs| && forall i :: 0 <= i < |texts| ==> IsRequest(texts[i], qs[i])
    ensures var r := Serve(State(Method, Join(texts), name), NoRequest);
            r.done == qs && !r.bad && r.s.mode.Method? && r.s.unsolved == "" && r.q == NoRequest
    decreases |texts|
  {
    if texts == [] {
      assert Find("", " ").None?;
    } else {
      assert IsRequest(texts[0], qs[0]);
      FirstOf(texts, qs[0], name);
      var s := State(Method, Join(texts), name);
      Pipelined(texts[1..], qs[1..], Run(s, NoRequest).s.name);
      ServeFirst(s);
      assert qs == [qs[0]] + qs[1..];
    }
  }

  lemma ServeFirst(s: State)
    requires Run(s, NoRequest).verdict.OK?
    ensures Serve(s, NoRequest) == Before([Run(s, NoRequest).q], Serve(Run(s, NoRequest).s, NoRequest))
  {
  }

  lemma FirstOf(texts: seq<string>, q: Request, name: string)
    requires texts != [] && IsRequest(texts[0], q)
    ensures var r := Run(State(Method, Join(texts), name), NoRequest);
            r.verdict.OK? && r.q == q && r.s == State(Method, Join(texts[1..]), r.s.name)
  {
    NameIsForgotten(State(Method, texts[0], ""), NoRequest, name);
    RunStands(State(Method, texts[0], name), NoRequest, Join(texts[1..]));
    assert Feed(State(Method, texts[0], name), Join(texts[1..])) == State(Method, Join(texts), name);
  }

  /** So under any cut: n requests in, the same n requests out, in order. */
  lemma PipelinedUnderAnyCut(texts: seq<string>, qs: seq<Request>, pieces: seq<string>)
    requires |texts| == |qs| && forall i :: 0 <= i < |texts| ==> IsRequest(texts[i], qs[i])
    requires pieces != [] && Join(pieces) == Join(texts)
    ensures ServePieces(Fresh, NoRequest, pieces).done == qs && !ServePieces(Fresh, NoRequest, pieces).bad
  {
    Pipelined(texts, qs, "");
    AnyCutting(Fresh, NoRequest, pieces);
    assert Feed(Fresh, Join(pieces)) == State(Method, Join(texts), "");
  }

  /** Parse completes one request: of those that come in one piece the first, and the others
      are left in the parser. */
  lemma OneRequestPerRead(texts: seq<string>, qs: seq<Request>)
    requires |texts| == |qs| > 0 && forall i :: 0 <= i < |texts| ==> IsRequest(texts[i], qs[i])
    ensures var r := Parsed(Fresh, Join(texts), NoRequest);
            r.verdict.OK? && r.q == qs[0] && r.s.unsolved == Join(texts[1..])
  {
    assert IsRequest(texts[0], qs[0]);
    FirstOf(texts, qs[0], "");
    assert Feed(Fresh, Join(texts)) == State(Method, Join(texts), "");
  }

  // ----- The server: one Parse for each read -----

  // answered: the requests answered so far.  open: the connection goes on.
  datatype Server = Server(s: State, q: Request, answered: seq<Request>, open: bool)

  const Listening := Server(Fresh, NoRequest, [], true)

  /** One turn of DoHttp with what a read returned. */
  function Turned(v: Server, text: string): Server {
    var r := Parsed(v.s, text, v.q);
    match r.verdict
    case KEEP => v.(s := r.s, q := r.q)
    case BAD => v.(s := r.s, q := r.q, open := false)
    case OK => Server(r.s, NoRequest, v.answered + [r.q], r.q.version != "HTTP/1.0")
  }

  /** The server after these reads. */
  function AfterReads(pieces: seq<string>): Server {
    if pieces == [] then Listening else Turned(AfterReads(pieces[..|pieces| - 1]), pieces[|pieces| - 1])
  }

  /** A connection that goes on: every read finds it open, and nothing read is bad. */
  predicate GoingOn(pieces: seq<string>) {
    pieces == [] ||
      (var v, more := AfterReads(pieces[..|pieces| - 1]), pieces[|pieces| - 1];
      GoingOn(pieces[..|pieces| - 1]) && v.open && !Parsed(v.s, more, v.q).verdict.BAD?)
  }

  lemma {:induction false} JoinLast(pieces: seq<string>)
    requires pieces != []
    ensures Join(pieces) == Join(pieces[..|pieces| - 1]) + pieces[|pieces| - 1]
    decreases |pieces|
  {
    var later := pieces[1..];
    if |pieces| == 1 {
      assert Join(later) == "" && pieces[..0] == [];
    } else {
      JoinLast(later);
      assert pieces[..|pieces| - 1][1..] == later[..|later| - 1];
      assert pieces[..|pieces| - 1][0] == pieces[0];
      assert Join(pieces) == pieces[0] + (Join(later[..|later| - 1]) + pieces[|pieces| - 1]);
    }
  }

  function ServeAll(text: string): Served {
    Serve(Feed(Fresh, text), NoRequest)
  }

  /** The requests that are whole in what the parser holds. */
  function Unanswered(v: Server): seq<Request> {
    Serve(v.s, v.q).done
  }

  /** Answered and unanswered requests together are those in the text read. */
  ghost predicate ServerInv(v: Server, text: string) {
    Agree(Before(v.answered, Serve(v.s, v.q)), ServeAll(text))
  }

  lemma KeepStays(s: State, q: Request)
    requires Run(s, q).verdict.KEEP?
    ensures Run(Run(s, q).s, Run(s, q).q) == Run(s, q)
  {
    RunStands(s, q, "");
    assert Feed(s, "") == s && Feed(Run(s, q).s, "") == Run(s, q).s;
  }

  /** More text goes the same way from two states that agree. */
  lemma AgreeMore(a: Served, b: Served, x: Served, y: Served, more: string)
    requires Agree(a, b) && Extends(a, more, x) && Extends(b, more, y)
    ensures Agree(x, y)
  {
  }

  lemma FeedKeepsServer(v: Server, text: string, more: string)
    requires ServerInv(v, text)
    ensures Agree(Before(v.answered, Serve(Feed(v.s, more), v.q)), ServeAll(text + more))
  {
    ServeStands(v.s, v.q, more);
    ExtendsBefore(v.answered, Serve(v.s, v.q), more, Serve(Feed(v.s, more), v.q));
    ServeStands(Feed(Fresh, text), NoRequest, more);
    FeedTwice(Fresh, text, more);
    AgreeMore(Before(v.answered, Serve(v.s, v.q)), ServeAll(text),
              Before(v.answered, Serve(Feed(v.s, more), v.q)), ServeAll(text + more), more);
  }

  lemma TurnedServes(v: Server, more: string)
    requires !Parsed(v.s, more, v.q).verdict.BAD?
    ensures Before(Turned(v, more).answered, Serve(Turned(v, more).s, Turned(v, more).q))
         == Before(v.answered, Serve(Feed(v.s, more), v.q))
    ensures |Unanswered(Turned(v, more))| == Pacing.LessOne(|Serve(Feed(v.s, more), v.q).done|)
  {
    var r := Parsed(v.s, more, v.q);
    if r.verdict.OK? {
      BeforeTwice(v.answered, [r.q], Serve(r.s, NoRequest));
    } else {
      KeepStays(Feed(v.s, more), v.q);
    }
  }

  lemma {:induction false} ReadsKeepServer(pieces: seq<string>)
    requires GoingOn(pieces)
    ensures ServerInv(AfterReads(pieces), Join(pieces))
    decreases |pieces|
  {
    if pieces == [] {
      assert Feed(Fresh, "") == Fresh;
      BeforeTwice([], [], Serve(Fresh, NoRequest));
    } else {
      var v, more := AfterReads(pieces[..|pieces| - 1]), pieces[|pieces| - 1];
      ReadsKeepServer(pieces[..|pieces| - 1]);
      FeedKeepsServer(v, Join(pieces[..|pieces| - 1]), more);
      TurnedServes(v, more);
      JoinLast(pieces);
    }
  }

  /** How many requests the first reads complete, for none, one, two and so on of them. */
  function Totals(pieces: seq<string>): (totals: seq<nat>)
    ensures |totals| == |pieces| + 1 && totals[|pieces|] == |ServeAll(Join(pieces)).done|
  {
    (if pieces == [] then [] else Totals(pieces[..|pieces| - 1])) + [|ServeAll(Join(pieces)).done|]
  }

  /** A read answers one of the requests that are whole then. */
  lemma TurnAnswersOne(v: Server, text: string, more: string)
    requires ServerInv(v, text) && !Parsed(v.s, more, v.q).verdict.BAD?
    ensures var was, now := |ServeAll(text).done|, |ServeAll(text + more).done|;
            was <= now && |Unanswered(Turned(v, more))| == Pacing.LessOne(|Unanswered(v)| + (now - was))
  {
    FeedKeepsServer(v, text, more);
    TurnedServes(v, more);
    ServeStands(v.s, v.q, more);
    assert ServeAll(text).done == v.answered + Unanswered(v);
    assert ServeAll(text + more).done == v.answered + Serve(Feed(v.s, more), v.q).done;
  }

  lemma {:induction false} WaitingIs(pieces: seq<string>)
    requires GoingOn(pieces)
    ensures Pacing.Growing(Totals(pieces)) && Pacing.Waiting(Totals(pieces)) == |Unanswered(AfterReads(pieces))|
    decreases |pieces|
  {
    if pieces == [] {
      assert Find("", " ").None?;
    } else {
      var init := pieces[..|pieces| - 1];
      WaitingIs(init);
      ReadsKeepServer(init);
      TurnAnswersOne(AfterReads(init), Join(init), pieces[|pieces| - 1]);
      JoinLast(pieces);
      Pacing.OneMoreRead(Totals(init), |ServeAll(Join(pieces)).done|, Totals(pieces));
    }
  }

  /** On a connection that goes on, no request is left unanswered that has been read whole, if
      and only if no last reads have completed more requests than there are of these reads. */
  lemma NothingWaitsIff(pieces: seq<string>)
    requires GoingOn(pieces)
    ensures Unanswered(AfterReads(pieces)) == [] <==> Pacing.Paced(Totals(pieces))
  {
    WaitingIs(pieces);
    Pacing.NothingWaitsIff(Totals(pieces));
  }

  // ----- What a request holds -----

  /** The length that announces a body is made of digits, in every request built from none. */
  predicate LengthIsDigits(q: Request) {
    "Content-Length" in q.headers ==> forall c :: c in q.headers["Content-Length"] ==> IsDigit(c)
  }

  lemma TurnKeepsDigits(mode: Mode, content: string, name: string, q: Request)
    requires LengthIsDigits(q)
    ensures var t := TurnOf(mode, content, name, q); t.Next? || t.Done? ==> LengthIsDigits(t.q)
  {
  }

  lemma {:induction false} LengthStaysDigits(s: State, q: Request)
    requires LengthIsDigits(q)
    ensures LengthIsDigits(Run(s, q).q)
    decreases |s.unsolved|
  {
    TurnKeepsDigits(s.mode, s.unsolved, s.name, q);
    match TurnOf(s.mode, s.unsolved, s.name, q)
    case Next(mode, rest, name, q') => LengthStaysDigits(State(mode, rest, name), q');
    case _ =>
  }

  // The body is as long as the request's own headers announce.
  predicate HasItsBody(q: Request) {
    |q.body| == if "Content-Length" in q.headers then AsLong(q.headers["Content-Length"]) else 0
  }

  lemma BodyTaken(content: string, name: string, q: Request)
    requires LengthIsDigits(q) && TurnOf(Body, content, name, q).Done?
    ensures HasItsBody(TurnOf(Body, content, name, q).q)
  {
    if "Content-Length" in q.headers {
      AtolSaturates(q.headers["Content-Length"]);
    }
  }

  /** A completed request holds the body its own headers announce, from whatever state. */
  lemma {:induction false} BodyIsAnnounced(s: State, q: Request)
    requires LengthIsDigits(q) && Run(s, q).verdict.OK?
    ensures HasItsBody(Run(s, q).q)
    decreases |s.unsolved|
  {
    TurnKeepsDigits(s.mode, s.unsolved, s.name, q);
    match TurnOf(s.mode, s.unsolved, s.name, q)
    case Next(mode, rest, name, q') => BodyIsAnnounced(State(mode, rest, name), q');
    case Done(_, _) => BodyTaken(s.unsolved, s.name, q);
  }

  // ----- Requests as they are written -----

  // text: all that stands between the colon and the end of the line.
  datatype Header = Header(name: string, text: string)

  // The pieces between the separators of a text, whatever is in them.  after: all that follows
  // the empty line.
  datatype Draft = Draft(method_: string, target: string, version: string, headers: seq<Header>, after: string)

  function Written(d: Draft): string {
    d.method_ + " " + (d.target + " " + (d.version + "\r\n" + WrittenHeaders(d.headers, d.after)))
  }

  function WrittenHeaders(hs: seq<Header>, after: string): string {
    if hs == [] then "\r\n" + after
    else hs[0].name + ":" + (hs[0].text + "\r\n" + WrittenHeaders(hs[1..], after))
  }

  predicate OneLine(s: string) {
    forall j :: 0 <= j < |s| ==> !At(s, "\r\n", j)
  }

  predicate HeaderApart(h: Header) {
    ':' !in h.name && !At(h.name, "\r\n", 0) && OneLine(h.text)
  }

  /** No piece holds the separator that ends it. */
  predicate Separable(d: Draft) {
    && ' ' !in d.method_ && ' ' !in d.target && OneLine(d.version)
    && forall h :: h in d.headers ==> HeaderApart(h)
  }

  predicate GoodHeader(h: Header) {
    && h.name != "" && |h.text| >= 2 && h.text[0] == ' '
    && (h.name == "Content-Length" ==> forall i :: 1 <= i < |h.text| ==> '0' <= h.text[i] <= '9')
  }

  predicate GoodHeaders(hs: seq<Header>) {
    forall i :: 0 <= i < |hs| ==> GoodHeader(hs[i])
  }

  /** What the server takes: of its nine methods, two versions, and so on. */
  predicate Acceptable(d: Draft) {
    && d.method_ in {"GET", "HEAD", "POST", "PUT", "DELETE", "CONNECT", "OPTIONS", "TRACE", "PATCH"}
    && d.target != "" && (forall c :: c in d.target ==> c >= 32 as char && c != 127 as char)
    && (d.version == "HTTP/1.1" || d.version == "HTTP/1.0")
    && GoodHeaders(d.headers)
  }

  function ButLast(hs: seq<Header>): seq<Header>
    requires hs != []
  {
    hs[..|hs| - 1]
  }

  /** The length of the body: what the last Content-Length says in decimal, no more than a long
      holds; none without that header. */
  function Announced(hs: seq<Header>): nat
    requires GoodHeaders(hs)
  {
    if hs == [] then 0
    else
      var h := hs[|hs| - 1];
      if h.name == "Content-Length" then AsLong(h.text[1..]) else Announced(ButLast(hs))
  }

  /** Values by name, each without its space; a later header replaces an earlier one. */
  function ValuesOf(hs: seq<Header>): map<string, string>
    requires GoodHeaders(hs)
  {
    if hs == [] then map[] else ValuesOf(ButLast(hs))[hs[|hs| - 1].name := hs[|hs| - 1].text[1..]]
  }

  function TextOf(o: Option<string>): string {
    match o case None => "" case Some(text) => text
  }

  /** The request that is meant. */
  function Meant(d: Draft): Request
    requires Acceptable(d) && |d.after| >= Announced(d.headers)
  {
    var (rest, fragment) := CutLast(d.target, '#');
    var (path, query) := CutLast(rest, '?');
    Request(d.method_, path, TextOf(query), TextOf(fragment), d.version, ValuesOf(d.headers),
            d.after[..Announced(d.headers)])
  }

  lemma FoundAt(s: string, pat: string, i: nat)
    requires At(s, pat, i) && forall j :: 0 <= j < i ==> !At(s, pat, j)
    ensures Find(s, pat) == Some(i)
  {
  }

  lemma Sandwich(a: string, pat: string, rest: string)
    ensures At(a + pat + rest, pat, |a|)
    ensures (a + pat + rest)[..|a|] == a && (a + pat + rest)[|a| + |pat|..] == rest
  {
    assert (a + pat + rest)[|a|..|a| + |pat|] == pat;
  }

  lemma FindChar(a: string, pat: string, rest: string)
    requires |pat| == 1 && pat[0] !in a
    ensures Find(a + pat + rest, pat) == Some(|a|)
  {
    var s := a + pat + rest;
    Sandwich(a, pat, rest);
    forall j | 0 <= j < |a| ensures !At(s, pat, j) {
      assert s[j..j + 1] == [a[j]];
    }
    FoundAt(s, pat, |a|);
  }

  lemma FindLine(a: string, rest: string)
    requires OneLine(a)
    ensures Find(a + "\r\n" + rest, "\r\n") == Some(|a|)
  {
    var s := a + "\r\n" + rest;
    Sandwich(a, "\r\n", rest);
    forall j | 0 <= j < |a| ensures !At(s, "\r\n", j) {
      if j + 2 <= |a| {
        assert s[j..j + 2] == a[j..j + 2];
        assert !At(a, "\r\n", j);
      } else {
        assert s[j..j + 2][1] == '\r';
      }
    }
    FoundAt(s, "\r\n", |a|);
  }

  lemma NameTurn(h: Header, rest: string, name: string, q: Request)
    requires HeaderApart(h)
    ensures TurnOf(HeaderName, h.name + ":" + rest, name, q)
         == if h.name == "" then Bad else Next(HeaderValue, rest, h.name, q)
  {
    var s := h.name + ":" + rest;
    FindChar(h.name, ":", rest);
    Sandwich(h.name, ":", rest);
    assert !At(s, "\r\n", 0) by {
      if |h.name| == 0 {
        assert s[0] == ':';
      } else if |h.name| == 1 {
        assert s[1] == ':';
      } else {
        assert s[0..2] == h.name[0..2];
      }
    }
  }

  lemma ValueTurn(h: Header, rest: string, q: Request)
    requires HeaderApart(h) && h.name != ""
    ensures TurnOf(HeaderValue, h.text + "\r\n" + rest, h.name, q)
         == if GoodHeader(h) then Next(HeaderName, rest, h.name, q.(headers := q.headers[h.name := h.text[1..]]))
            else Bad
  {
    FindLine(h.text, rest);
    Sandwich(h.text, "\r\n", rest);
    if |h.text| > 1 {
      DigitsFrom(h.text);
    }
  }

  lemma DigitsFrom(text: string)
    requires text != ""
    ensures (exists c :: c in text[1..] && !IsDigit(c)) <==> !(forall i :: 1 <= i < |text| ==> '0' <= text[i] <= '9')
  {
    if i :| 1 <= i < |text| && !IsDigit(text[i]) {
      assert text[1..][i - 1] == text[i];
    }
  }

  lemma {:induction false} LengthAnnounced(hs: seq<Header>)
    requires GoodHeaders(hs)
    ensures var values := ValuesOf(hs);
            Announced(hs) == if "Content-Length" in values then Atol(values["Content-Length"]) else 0
    decreases |hs|
  {
    if hs != [] {
      var h := hs[|hs| - 1];
      if h.name == "Content-Length" {
        AtolSaturates(h.text[1..]);
      } else {
        LengthAnnounced(ButLast(hs));
      }
    }
  }

  /** After the empty line. */
  lemma BodyVerdict(hs: seq<Header>, after: string, name: string, q: Request)
    requires GoodHeaders(hs) && q.headers == ValuesOf(hs)
    ensures var r := Run(State(HeaderName, "\r\n" + after, name), q);
            if |after| < Announced(hs) then r.verdict.KEEP?
            else r == Outcome(OK, State(Method, after[Announced(hs)..], name), q.(body := after[..Announced(hs)]))
  {
    var content := "\r\n" + after;
    assert At(content, "\r\n", 0);
    assert content[2..] == after;
    LengthAnnounced(hs);
    assert BodySize(q) == Announced(hs);
  }

  /** What becomes of the headers from the i-th on. */
  predicate HeadersEnd(hs: seq<Header>, after: string, q: Request, r: Outcome) {
    if !GoodHeaders(hs) then r.verdict.BAD?
    else if |after| < Announced(hs) then r.verdict.KEEP?
    else
      && r.verdict.OK? && r.s.unsolved == after[Announced(hs)..]
      && r.q == q.(headers := ValuesOf(hs), body := after[..Announced(hs)])
  }

  lemma HeaderVerdict(h: Header, rest: string, name: string, q: Request)
    requires HeaderApart(h)
    ensures var r := Run(State(HeaderName, h.name + ":" + (h.text + "\r\n" + rest), name), q);
            if GoodHeader(h)
            then r == Run(State(HeaderName, rest, h.name), q.(headers := q.headers[h.name := h.text[1..]]))
            else r.verdict.BAD?
  {
    NameTurn(h, h.text + "\r\n" + rest, name, q);
    if h.name != "" {
      ValueTurn(h, rest, q);
    }
  }

  lemma OneMoreGood(hs: seq<Header>, i: nat)
    requires i < |hs| && GoodHeaders(hs[..i])
    ensures GoodHeader(hs[i]) <==> GoodHeaders(hs[..i + 1])
    ensures GoodHeader(hs[i]) ==> ValuesOf(hs[..i + 1]) == ValuesOf(hs[..i])[hs[i].name := hs[i].text[1..]]
    ensures !GoodHeader(hs[i]) ==> !GoodHeaders(hs)
  {
    assert ButLast(hs[..i + 1]) == hs[..i];
    assert hs[..i + 1][i] == hs[i];
  }

  lemma WrittenFrom(hs: seq<Header>, i: nat, after: string)
    requires i < |hs|
    ensures WrittenHeaders(hs[i..], after)
         == hs[i].name + ":" + (hs[i].text + "\r\n" + WrittenHeaders(hs[i + 1..], after))
  {
    assert hs[i..][1..] == hs[i + 1..];
  }

  lemma {:induction false} HeadersVerdict(hs: seq<Header>, i: nat, after: string, name: string, q: Request)
    requires i <= |hs| && (forall h :: h in hs ==> HeaderApart(h))
    requires GoodHeaders(hs[..i]) && q.headers == ValuesOf(hs[..i])
    ensures HeadersEnd(hs, after, q, Run(State(HeaderName, WrittenHeaders(hs[i..], after), name), q))
    decreases |hs| - i
  {
    if i == |hs| {
      assert hs[..i] == hs;
      BodyVerdict(hs, after, name, q);
    } else {
      var h := hs[i];
      WrittenFrom(hs, i, after);
      HeaderVerdict(h, WrittenHeaders(hs[i + 1..], after), name, q);
      OneMoreGood(hs, i);
      if GoodHeader(h) {
        HeadersVerdict(hs, i + 1, after, h.name, q.(headers := q.headers[h.name := h.text[1..]]));
      }
    }
  }

  lemma MethodTurn(method_: string, rest: string, q: Request)
    requires ' ' !in method_
    ensures TurnOf(Method, method_ + " " + rest, "", q)
         == if method_ in Methods then Next(Uri, rest, "", q.(method_ := method_)) else Bad
  {
    FindChar(method_, " ", rest);
    Sandwich(method_, " ", rest);
  }

  lemma UriTurn(uri: string, rest: string, q: Request)
    requires ' ' !in uri
    ensures TurnOf(Uri, uri + " " + rest, "", q) == Advance(CheckUri(uri, q), Version, rest, "")
  {
    FindChar(uri, " ", rest);
    Sandwich(uri, " ", rest);
  }

  lemma VersionTurn(version: string, rest: string, q: Request)
    requires OneLine(version)
    ensures TurnOf(Version, version + "\r\n" + rest, "", q)
         == if version == "HTTP/1.1" || version == "HTTP/1.0" then Next(HeaderName, rest, "", q.(version := version))
            else Bad
  {
    FindLine(version, rest);
    Sandwich(version, "\r\n", rest);
  }

  lemma RunNext(s: State, q: Request, s': State, q': Request)
    requires TurnOf(s.mode, s.unsolved, s.name, q) == Next(s'.mode, s'.unsolved, s'.name, q')
    ensures Run(s, q) == Run(s', q')
  {
  }

  predicate GoodLine(d: Draft) {
    && d.method_ in Methods && d.target != "" && !(exists c :: c in d.target && IsControl(c))
    && (d.version == "HTTP/1.1" || d.version == "HTTP/1.0")
  }

  /** The request as it stands when the first line has been read. */
  function LineOf(d: Draft): Request {
    var (rest, fragment) := CutLast(d.target, '#');
    var (path, query) := CutLast(rest, '?');
    Request(d.method_, path, TextOf(query), TextOf(fragment), d.version, map[], "")
  }

  lemma TargetTaken(d: Draft)
    ensures var q := CheckUri(d.target, NoRequest.(method_ := d.method_));
            if d.target != "" && !(exists c :: c in d.target && IsControl(c))
            then q.Some? && q.value.(version := d.version) == LineOf(d)
            else q.None?
  {
  }

  lemma TargetVerdict(d: Draft, lines: string)
    requires ' ' !in d.target && OneLine(d.version) && d.method_ in Methods
    ensures var r := Run(State(Uri, d.target + " " + (d.version + "\r\n" + lines), ""), NoRequest.(method_ := d.method_));
            if GoodLine(d) then r == Run(State(HeaderName, lines, ""), LineOf(d)) else r.verdict.BAD?
  {
    var q1 := NoRequest.(method_ := d.method_);
    var version := d.version + "\r\n" + lines;
    TargetTaken(d);
    UriTurn(d.target, version, q1);
    var q := CheckUri(d.target, q1);
    if q.Some? {
      RunNext(State(Uri, d.target + " " + version, ""), q1, State(Version, version, ""), q.value);
      VersionTurn(d.version, lines, q.value);
    }
  }

  lemma LineVerdict(d: Draft, lines: string)
    requires ' ' !in d.method_ && ' ' !in d.target && OneLine(d.version)
    ensures var r := Run(State(Method, d.method_ + " " + (d.target + " " + (d.version + "\r\n" + lines)), ""), NoRequest);
            if GoodLine(d) then r == Run(State(HeaderName, lines, ""), LineOf(d)) else r.verdict.BAD?
  {
    var target := d.target + " " + (d.version + "\r\n" + lines);
    MethodTurn(d.method_, target, NoRequest);
    if d.method_ in Methods {
      RunNext(State(Method, d.method_ + " " + target, ""), NoRequest,
              State(Uri, target, ""), NoRequest.(method_ := d.method_));
      TargetVerdict(d, lines);
    }
  }

  lemma AcceptableIff(d: Draft)
    ensures Acceptable(d) <==> GoodLine(d) && GoodHeaders(d.headers)
  {
    if Acceptable(d) {
      assert d.method_ in Methods;
      assert forall c :: c in d.target ==> !IsControl(c);
    }
    if GoodLine(d) {
      assert forall c :: c in d.target ==> !IsControl(c);
    }
  }

  /** The verdict on every text that has the separators of a request: BAD if and only if a
      piece is not acceptable, else OK if and only if the announced body is there; then the
      request is the one meant and the text after its body is kept. */
  lemma WrittenVerdict(d: Draft)
    requires Separable(d)
    ensures var r := Run(State(Method, Written(d), ""), NoRequest);
            && (r.verdict.BAD? <==> !Acceptable(d))
            && (Acceptable(d) ==> (r.verdict.OK? <==> |d.after| >= Announced(d.headers)))
            && (r.verdict.OK? ==> r.q == Meant(d) && r.s.unsolved == d.after[Announced(d.headers)..])
  {
    LineVerdict(d, WrittenHeaders(d.headers, d.after));
    AcceptableIff(d);
    if GoodLine(d) {
      var hs := d.headers;
      assert hs[0..] == hs && hs[..0] == [];
      HeadersVerdict(hs, 0, d.after, "", LineOf(d));
    }
  }

  /** Whatever request is written down is parsed back: it is one request. */
  lemma WrittenParses(d: Draft)
    requires Separable(d) && Acceptable(d) && |d.after| == Announced(d.headers)
    ensures IsRequest(Written(d), Meant(d)) && Meant(d).body == d.after
  {
    WrittenVerdict(d);
  }

  /** Cutting at the first separator. */
  lemma CutAt(s: string, pat: string, i: nat)
    requires Find(s, pat) == Some(i)
    ensures i + |pat| <= |s| && s == s[..i] + pat + s[i + |pat|..]
    ensures forall j :: 0 <= j < i ==> !At(s[..i], pat, j)
  {
    forall j | 0 <= j < i ensures !At(s[..i], pat, j) {
      AtMore(s[..i], s[i..], pat, j);
      assert s[..i] + s[i..] == s;
    }
  }

  lemma CutAtChar(s: string, pat: string, i: nat)
    requires |pat| == 1 && Find(s, pat) == Some(i)
    ensures i < |s| && s == s[..i] + pat + s[i + 1..] && pat[0] !in s[..i]
  {
    CutAt(s, pat, i);
    forall j | 0 <= j < i ensures s[j] != pat[0] {
      assert !At(s[..i], pat, j);
      assert s[..i][j..j + 1] == [s[j]];
    }
  }

  lemma NameWritten(content: string, name: string, q: Request)
    requires TurnOf(HeaderName, content, name, q).Next? && TurnOf(HeaderName, content, name, q).mode.HeaderValue?
    ensures var t := TurnOf(HeaderName, content, name, q);
            content == t.name + ":" + t.rest && ':' !in t.name && !At(t.name, "\r\n", 0)
  {
    var i := Find(content, ":").value;
    CutAtChar(content, ":", i);
    AtMore(content[..i], content[i..], "\r\n", 0);
    assert content[..i] + content[i..] == content;
  }

  lemma LineWritten(content: string, i: nat)
    requires Find(content, "\r\n") == Some(i)
    ensures i + 2 <= |content| && content == content[..i] + "\r\n" + content[i + 2..] && OneLine(content[..i])
  {
    CutAt(content, "\r\n", i);
  }

  lemma {:induction false} HeadersWritten(content: string, name: string, q: Request)
    returns (hs: seq<Header>, after: string)
    requires Run(State(HeaderName, content, name), q).verdict.OK?
    ensures content == WrittenHeaders(hs, after)
    ensures forall h :: h in hs ==> HeaderApart(h)
    decreases |content|
  {
    var t := TurnOf(HeaderName, content, name, q);
    if t.mode.Body? {
      LineWritten(content, 0);
      hs, after := [], t.rest;
    } else {
      NameWritten(content, name, q);
      var i := Find(t.rest, "\r\n").value;
      LineWritten(t.rest, i);
      var u := TurnOf(HeaderValue, t.rest, t.name, q);
      var later;
      later, after := HeadersWritten(u.rest, u.name, u.q);
      hs := [Header(t.name, t.rest[..i])] + later;
      assert hs[1..] == later;
    }
  }

  lemma WordWritten(mode: Mode, content: string, q: Request) returns (word: string)
    requires (mode.Method? || mode.Uri?) && TurnOf(mode, content, "", q).Next?
    ensures var t := TurnOf(mode, content, "", q);
            t.name == "" && t.mode == (if mode.Method? then Uri else Version)
            && content == word + " " + t.rest && ' ' !in word
  {
    var i := Find(content, " ").value;
    CutAtChar(content, " ", i);
    word := content[..i];
  }

  lemma VersionWritten(content: string, q: Request) returns (version: string)
    requires TurnOf(Version, content, "", q).Next?
    ensures var t := TurnOf(Version, content, "", q);
            t.name == "" && t.mode == HeaderName && content == version + "\r\n" + t.rest && OneLine(version)
  {
    var i := Find(content, "\r\n").value;
    LineWritten(content, i);
    version := content[..i];
  }

  lemma LinesWritten(content: string, q: Request) returns (d: Draft)
    requires Run(State(Version, content, ""), q).verdict.OK?
    ensures content == d.version + "\r\n" + WrittenHeaders(d.headers, d.after)
    ensures OneLine(d.version) && forall h :: h in d.headers ==> HeaderApart(h)
  {
    var t := TurnOf(Version, content, "", q);
    var version := VersionWritten(content, q);
    var hs, after := HeadersWritten(t.rest, "", t.q);
    d := Draft("", "", version, hs, after);
  }

  lemma TargetWritten(content: string, q: Request) returns (d: Draft)
    requires Run(State(Uri, content, ""), q).verdict.OK?
    ensures content == d.target + " " + (d.version + "\r\n" + WrittenHeaders(d.headers, d.after))
    ensures Separable(d) && d.method_ == ""
  {
    var t := TurnOf(Uri, content, "", q);
    var target := WordWritten(Uri, content, q);
    var lines := LinesWritten(t.rest, t.q);
    d := Draft("", target, lines.version, lines.headers, lines.after);
  }

  lemma TextWritten(text: string) returns (d: Draft)
    requires Run(State(Method, text, ""), NoRequest).verdict.OK?
    ensures Separable(d) && text == Written(d)
  {
    var t := TurnOf(Method, text, "", NoRequest);
    var method_ := WordWritten(Method, text, NoRequest);
    var rest := TargetWritten(t.rest, t.q);
    d := rest.(method_ := method_);
  }

  /** A draft that is one request and perhaps more. */
  predicate Complete(d: Draft) {
    Separable(d) && Acceptable(d) && |d.after| >= Announced(d.headers)
  }

  /** The texts Parse completes a request of are those that can be written down so, and the
      request completed is the one written. */
  lemma CompletesIff(text: string)
    ensures var r := Run(State(Method, text, ""), NoRequest);
            && (r.verdict.OK? <==> exists d :: Complete(d) && text == Written(d))
            && (forall d :: Complete(d) && text == Written(d) ==>
                  r.q == Meant(d) && r.s.unsolved == d.after[Announced(d.headers)..])
  {
    forall d | Complete(d) && text == Written(d)
      ensures var r := Run(State(Method, text, ""), NoRequest);
              && r.verdict.OK? && r.q == Meant(d) && r.s.unsolved == d.after[Announced(d.headers)..]
    {
      WrittenVerdict(d);
    }
    if Run(State(Method, text, ""), NoRequest).verdict.OK? {
      var d := TextWritten(text);
      WrittenVerdict(d);
      assert Complete(d);
    }
  }

  /** What begins such a text is never called BAD. */
  lemma NeverBadEarly(text: string, more: string, d: Draft)
    requires Complete(d) && text + more == Written(d)
    ensures !Run(State(Method, text, ""), NoRequest).verdict.BAD?
  {
    WrittenVerdict(d);
    RunStands(State(Method, text, ""), NoRequest, more);
    assert Feed(State(Method, text, ""), more) == State(Method, text + more, "");
  }

  lemma FoundCharIsThere(s: string, pat: string)
    requires |pat| == 1 && Find(s, pat).Some?
    ensures pat[0] in s
  {
    CutAtChar(s, pat, Find(s, pat).value);
  }

  /** Without a space, 8 characters are too many for any method. */
  lemma NoSpaceYet(text: string)
    requires ' ' !in text
    ensures var r := Run(State(Method, text, ""), NoRequest);
            if |text| < 8 then r.verdict.KEEP? else r.verdict.BAD?
  {
    assert Find(text, " ").None? by {
      if Find(text, " ").Some? {
        FoundCharIsThere(text, " ");
        assert false;
      }
    }
  }

  predicate MadeOf(target: string, q: Request, hasQuery: bool, hasFragment: bool) {
    && target == q.uri + (if hasQuery then "?" + q.query else "") + (if hasFragment then "#" + q.fragment else "")
    && (if hasFragment then '#' !in q.fragment else '#' !in target && q.fragment == "")
    && (if hasQuery then '?' !in q.query else '?' !in q.uri && q.query == "")
  }

  /** An accepted target is put together again from its parts: it was cut at the last # and
      then at the last question mark before that. */
  lemma TargetIsWhole(d: Draft)
    requires Complete(d)
    ensures exists hasQuery, hasFragment :: MadeOf(d.target, Meant(d), hasQuery, hasFragment)
  {
    var (rest, fragment) := CutLast(d.target, '#');
    var (path, query) := CutLast(rest, '?');
    PartsMade(d.target, Meant(d), rest, fragment, query);
    assert MadeOf(d.target, Meant(d), query.Some?, fragment.Some?);
  }

  /** Cutting at the last `c`, the tail being empty if there is none. */
  lemma CutMakes(s: string, c: char, head: string, tail: Option<string>)
    requires (head, tail) == CutLast(s, c)
    ensures s == head + (if tail.Some? then [c] + TextOf(tail) else "")
    ensures if tail.Some? then c !in TextOf(tail) else c !in s && head == s && TextOf(tail) == ""
  {
  }

  lemma PartsMade(target: string, q: Request, rest: string, fragment: Option<string>, query: Option<string>)
    requires (rest, fragment) == CutLast(target, '#') && (q.uri, query) == CutLast(rest, '?')
    requires q.fragment == TextOf(fragment) && q.query == TextOf(query)
    ensures MadeOf(target, q, query.Some?, fragment.Some?)
  {
    CutMakes(target, '#', rest, fragment);
    CutMakes(rest, '?', q.uri, query);
  }

  /** A header's value is what stands behind the space in the last one of its name ... */
  lemma {:induction false} LastValueCounts(hs: seq<Header>, i: nat)
    requires GoodHeaders(hs) && i < |hs| && forall j :: i < j < |hs| ==> hs[j].name != hs[i].name
    ensures hs[i].name in ValuesOf(hs) && hs[i].text == " " + ValuesOf(hs)[hs[i].name]
    decreases |hs|
  {
    if i == |hs| - 1 {
      assert hs[i].text == " " + hs[i].text[1..];
    } else {
      assert ButLast(hs)[i] == hs[i];
      LastValueCounts(ButLast(hs), i);
    }
  }

  /** ... and there are no other names. */
  lemma {:induction false} NamesThere(hs: seq<Header>, name: string)
    requires GoodHeaders(hs)
    ensures name in ValuesOf(hs) <==> exists i :: 0 <= i < |hs| && hs[i].name == name
    decreases |hs|
  {
    if hs != [] {
      var init := ButLast(hs);
      assert forall i :: 0 <= i < |init| ==> init[i] == hs[i];
      NamesThere(init, name);
    }
  }

  /** What the server does with a request in its first read: answers it and goes on if it is of
      version 1.1, waits while the body is short, closes if it is bad. */
  lemma ServerTakes(d: Draft)
    requires Separable(d)
    ensures var v := Turned(Listening, Written(d));
            if !Acceptable(d) then !v.open && v.answered == []
            else if |d.after| < Announced(d.headers) then v.open && v.answered == []
            else v.answered == [Meant(d)] && (v.open <==> d.version == "HTTP/1.1")
  {
    WrittenVerdict(d);
    assert Feed(Fresh, Written(d)) == State(Method, Written(d), "");
  }

  // ----- The parser object -----

  class RequestParser {
    var unsolved: string
    var latestHeaderName: string
    var state: Mode

    function View(): State
      reads this
    {
      State(state, unsolved, latestHeaderName)
    }

    constructor ()
      ensures View() == Fresh
    {
      unsolved, latestHeaderName, state := "", "", Method;
    }

    method Reset()
      modifies this
      ensures View() == old(View()).(mode := Method, unsolved := "")
    {
      state := Method;
      unsolved := "";
    }

    /** After BAD nothing is promised of the parser. */
    method Parse(content: string, request: Request) returns (verdict: Verdict, q: Request)
      modifies this
      ensures var r := Parsed(old(View()), content, request);
              verdict == r.verdict && q == r.q && (!verdict.BAD? ==> View() == r.s)
    {
      ghost var whole := Parsed(View(), content, request);
      unsolved := unsolved + content;
      var rest := unsolved;
      q := request;
      while true
        invariant Run(State(state, rest, latestHeaderName), q) == whole
        decreases |rest|
      {
        match TurnOf(state, rest, latestHeaderName, q)
        case Next(mode, more, name, q') =>
          state, rest, latestHeaderName, q := mode, more, name, q';
        case Keep =>
          unsolved := rest;
          return KEEP, q;
        case Bad =>
          return BAD, q;
        case Done(more, q') =>
          state, unsolved := Method, more;
          return OK, q';
      }
    }
  }
}
