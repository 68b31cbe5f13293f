/**
  The incremental HTTP parser.  `Parse` is `parseRequest` as a function of the context and the buffered
  bytes; `RefRequests` is an independent reading of a whole stream, cut into lines first.  The theorems
  say that how TCP cuts the bytes makes no difference, and that the server hands out exactly the
  requests of the reference, in order.
 */
module Http {

  import opened Buffers
  import opened Options

  type Bytes = seq<Byte>

  datatype Method = Invalid | Get | Post | Head | Put | Delete

  datatype Version = Unknown | Http10 | Http11

  datatype Request = Request(verb: Method, version: Version, path: Bytes, receiveTime: int, headers: map<Bytes, Bytes>)

  datatype ParseState = ExpectRequestLine | ExpectHeaders | ExpectBody | GotAll

  datatype Context = Context(state: ParseState, request: Request)

  const EMPTY_REQUEST := Request(Invalid, Unknown, [], 0, map[])

  const FRESH := Context(ExpectRequestLine, EMPTY_REQUEST)

  // ---------------------------------------------------------------- one line

  /** `std::find`: the first position of `c`, or the end. */
  function Find(s: Bytes, c: Byte): (k: nat)
    ensures k <= |s| && c !in s[..k]
    ensures k < |s| ==> s[k] == c
  {
    if s == [] || s[0] == c then 0
    else
      var k := 1 + Find(s[1..], c);
      assert s[..k] == [s[0]] + s[1..][..k - 1];
      k
  }

  lemma FindIs(s: Bytes, c: Byte, k: nat)
    requires k <= |s| && c !in s[..k] && (k < |s| ==> s[k] == c)
    ensures Find(s, c) == k
  {
    var j := Find(s, c);
    assert forall i :: 0 <= i < k ==> s[..k][i] != c;
    assert forall i :: 0 <= i < j ==> s[..j][i] != c;
  }

  /** `setMethod`; a PUT is stored as a HEAD. */
  function MethodOf(word: Bytes): Method {
    if word == "GET" then Get
    else if word == "POST" then Post
    else if word == "HEAD" then Head
    else if word == "PUT" then Head
    else if word == "DELETE" then Delete
    else Invalid
  }

  datatype LineResult = LineResult(ok: bool, request: Request)

  /** `processRequestLine`: a bad line may leave its method and path behind. */
  function AfterRequestLine(line: Bytes, r: Request): LineResult {
    var space := Find(line, ' ');
    if space == |line| then LineResult(false, r) else
    var m := r.(verb := MethodOf(line[..space]));
    if m.verb.Invalid? then LineResult(false, m) else
    var rest := line[space + 1..];
    var second := Find(rest, ' ');
    if second == |rest| then LineResult(false, m) else
    var p := m.(path := rest[..second]);
    AfterVersion(rest[second + 1..], p)
  }

  function AfterVersion(tail: Bytes, r: Request): LineResult {
    if |tail| != 8 || tail[..7] != "HTTP/1." then LineResult(false, r)
    else if tail[7] == '1' then LineResult(true, r.(version := Http11))
    else if tail[7] == '0' then LineResult(true, r.(version := Http10))
    else LineResult(false, r)
  }

  /** The method that a request with this word is given; a PUT counts as a HEAD. */
  predicate IsMethodWord(word: Bytes, m: Method) {
    || (word == "GET" && m == Get) || (word == "POST" && m == Post) || (word == "DELETE" && m == Delete)
    || ((word == "HEAD" || word == "PUT") && m == Head)
  }

  lemma MethodWords(word: Bytes, m: Method)
    ensures IsMethodWord(word, m) <==> MethodOf(word) == m && m != Invalid
  {
  }

  /** The grammar of a request line: three words separated by single spaces. */
  ghost predicate IsRequestLine(line: Bytes, m: Method, path: Bytes, v: Version) {
    exists word: Bytes ::
      && line == word + [' '] + (path + [' '] + VersionText(v))
      && !v.Unknown? && IsMethodWord(word, m)
      && ' ' !in word && ' ' !in path
  }

  function VersionText(v: Version): Bytes {
    if v.Http11? then "HTTP/1.1" else "HTTP/1.0"
  }

  lemma GoodLineIsAccepted(word: Bytes, path: Bytes, v: Version, r: Request)
    requires !v.Unknown? && MethodOf(word) != Invalid && ' ' !in word && ' ' !in path
    ensures AfterRequestLine(word + [' '] + (path + [' '] + VersionText(v)), r)
            == LineResult(true, r.(verb := MethodOf(word), path := path, version := v))
  {
    hide MethodOf, Find;
    var end := VersionText(v);
    var rest := path + [' '] + end;
    var line := word + [' '] + rest;
    assert line[..|word|] == word && line[|word| + 1..] == rest;
    FindIs(line, ' ', |word|);
    assert rest[..|path|] == path && rest[|path| + 1..] == end;
    FindIs(rest, ' ', |path|);
    assert end[..7] == "HTTP/1.";
  }

  lemma AcceptedLineIsGood(line: Bytes, r: Request)
    requires AfterRequestLine(line, r).ok
    ensures var got := AfterRequestLine(line, r).request;
            && IsRequestLine(line, got.verb, got.path, got.version)
            && got == r.(verb := got.verb, path := got.path, version := got.version)
  {
    hide MethodOf, Find;
    var got := AfterRequestLine(line, r).request;
    var space := Find(line, ' ');
    var word, rest := line[..space], line[space + 1..];
    var second := Find(rest, ' ');
    var tail := rest[second + 1..];
    assert tail == tail[..7] + [tail[7]];
    assert "HTTP/1." + [tail[7]] == VersionText(got.version);
    assert rest == got.path + [' '] + tail;
    assert line == word + [' '] + rest;
    assert line == word + [' '] + (got.path + [' '] + VersionText(got.version));
    MethodWords(word, got.verb);
  }

  /** The code accepts exactly the lines of the grammar, and stores their parts. */
  lemma RequestLineExactly(line: Bytes, r: Request, m: Method, path: Bytes, v: Version)
    ensures IsRequestLine(line, m, path, v) <==>
            AfterRequestLine(line, r) == LineResult(true, r.(verb := m, path := path, version := v))
  {
    hide AfterRequestLine, MethodOf, VersionText;
    if IsRequestLine(line, m, path, v) {
      var word: Bytes :| line == word + [' '] + (path + [' '] + VersionText(v))
                         && !v.Unknown? && IsMethodWord(word, m) && ' ' !in word && ' ' !in path;
      MethodWords(word, m);
      GoodLineIsAccepted(word, path, v, r);
    }
    if AfterRequestLine(line, r).ok {
      AcceptedLineIsGood(line, r);
    }
  }

  predicate IsSpace(c: Byte) {
    c == ' ' || '\t' <= c <= '\r'
  }

  function TrimLeft(s: Bytes): Bytes {
    if s != [] && IsSpace(s[0]) then TrimLeft(s[1..]) else s
  }

  function TrimRight(s: Bytes): Bytes {
    if s != [] && IsSpace(s[|s| - 1]) then TrimRight(s[..|s| - 1]) else s
  }

  /** `addHeader` for a line with its first colon at `colon`; the last header of a name wins. */
  function WithHeader(headers: map<Bytes, Bytes>, line: Bytes): map<Bytes, Bytes>
    requires Find(line, ':') < |line|
  {
    var colon := Find(line, ':');
    headers[line[..colon] := TrimRight(TrimLeft(line[colon + 1..]))]
  }

  // ---------------------------------------------------------------- the grammar of a header line

  /** What `isspace` accepts in the C locale. */
  predicate Blank(s: Bytes) {
    forall i :: 0 <= i < |s| ==> s[i] in [' ', '\t', '\n', '\U{0b}', '\U{0c}', '\r']
  }

  /** A name without a colon, a colon, and a value with any blanks around it. */
  ghost predicate IsHeaderLine(line: Bytes, name: Bytes, value: Bytes) {
    && ':' !in name && (value == [] || (!Blank(value[..1]) && !Blank(value[|value| - 1..])))
    && exists a: Bytes, b: Bytes :: Blank(a) && Blank(b) && line == name + [':'] + (a + value + b)
  }

  lemma BlankIsSpace(c: Byte)
    ensures IsSpace(c) <==> Blank([c])
  {
    assert [c][0] == c;
  }

  lemma {:induction false} TrimLeftBlanks(a: Bytes, s: Bytes)
    requires Blank(a) && (s == [] || !Blank(s[..1]))
    ensures TrimLeft(a + s) == s
    decreases |a|
  {
    if a == [] {
      assert a + s == s;
      if s != [] {
        BlankIsSpace(s[0]);
        assert s[..1] == [s[0]];
      }
    } else {
      BlankIsSpace(a[0]);
      assert (a + s)[1..] == a[1..] + s && (a + s)[0] == a[0];
      TrimLeftBlanks(a[1..], s);
    }
  }

  lemma {:induction false} TrimRightBlanks(s: Bytes, b: Bytes)
    requires Blank(b) && (s == [] || !Blank(s[|s| - 1..]))
    ensures TrimRight(s + b) == s
    decreases |b|
  {
    if b == [] {
      assert s + b == s;
      if s != [] {
        BlankIsSpace(s[|s| - 1]);
        assert s[|s| - 1..] == [s[|s| - 1]];
      }
    } else {
      var n := |b| - 1;
      BlankIsSpace(b[n]);
      assert (s + b)[..|s + b| - 1] == s + b[..n] && (s + b)[|s + b| - 1] == b[n];
      TrimRightBlanks(s, b[..n]);
    }
  }

  lemma TrimBlanks(a: Bytes, value: Bytes, b: Bytes)
    requires Blank(a) && Blank(b) && (value == [] || (!Blank(value[..1]) && !Blank(value[|value| - 1..])))
    ensures TrimRight(TrimLeft(a + value + b)) == value
  {
    if value == [] {
      assert a + value + b == (a + b) + [];
      TrimLeftBlanks(a + b, []);
    } else {
      assert a + value + b == a + (value + b);
      assert (value + b)[..1] == value[..1];
      TrimLeftBlanks(a, value + b);
      TrimRightBlanks(value, b);
    }
  }

  /** `addHeader` stores the value without the blanks around it under the name before the first colon. */
  lemma HeaderIsStored(headers: map<Bytes, Bytes>, line: Bytes, name: Bytes, value: Bytes)
    requires IsHeaderLine(line, name, value)
    ensures Find(line, ':') < |line| && WithHeader(headers, line) == headers[name := value]
  {
    hide TrimLeft, TrimRight, Blank;
    var a: Bytes, b: Bytes :| Blank(a) && Blank(b) && line == name + [':'] + (a + value + b);
    assert line[..|name|] == name && line[|name|] == ':' && line[|name| + 1..] == a + value + b;
    FindIs(line, ':', |name|);
    TrimBlanks(a, value, b);
  }

  lemma {:induction false} LeftBlanks(s: Bytes) returns (a: Bytes)
    ensures Blank(a) && s == a + TrimLeft(s) && (TrimLeft(s) == [] || !Blank(TrimLeft(s)[..1]))
    decreases |s|
  {
    hide Blank, IsSpace;
    if s != [] && IsSpace(s[0]) {
      var rest := LeftBlanks(s[1..]);
      a := [s[0]] + rest;
      BlankLess(s[0], rest);
      assert s == [s[0]] + s[1..];
      assert [s[0]] + (rest + TrimLeft(s[1..])) == a + TrimLeft(s[1..]);
    } else {
      a := [];
      NoBlanks();
      assert [] + s == s;
      if s != [] {
        BlankIsSpace(s[0]);
        assert s[..1] == [s[0]];
      }
    }
  }

  lemma BlankLess(c: Byte, b: Bytes)
    requires Blank(b) && IsSpace(c)
    ensures Blank([c] + b)
  {
    BlankIsSpace(c);
    assert [c][0] == c;
  }

  lemma BlankMore(b: Bytes, c: Byte)
    requires Blank(b) && IsSpace(c)
    ensures Blank(b + [c])
  {
    BlankIsSpace(c);
    assert [c][0] == c;
  }

  lemma {:induction false} RightBlanks(s: Bytes) returns (b: Bytes)
    ensures Blank(b) && s == TrimRight(s) + b
    ensures TrimRight(s) == [] || !Blank(TrimRight(s)[|TrimRight(s)| - 1..])
    decreases |s|
  {
    hide Blank, IsSpace;
    if s != [] && IsSpace(s[|s| - 1]) {
      var n := |s| - 1;
      var rest := RightBlanks(s[..n]);
      b := rest + [s[n]];
      BlankMore(rest, s[n]);
      assert s == s[..n] + [s[n]];
      assert (TrimRight(s[..n]) + rest) + [s[n]] == TrimRight(s[..n]) + b;
    } else {
      b := [];
      NoBlanks();
      assert s + [] == s;
      if s != [] {
        BlankIsSpace(s[|s| - 1]);
        assert s[|s| - 1..] == [s[|s| - 1]];
      }
    }
  }

  lemma NoBlanks()
    ensures Blank([])
  {
  }

  /** Every line with a colon is a header line, with one reading. */
  lemma ColonMakesHeader(line: Bytes)
    requires ':' in line
    ensures exists name: Bytes, value: Bytes :: IsHeaderLine(line, name, value)
  {
    hide TrimLeft, TrimRight, Blank;
    assert line[..|line|] == line;
    var colon := Find(line, ':');
    var tail := line[colon + 1..];
    var a := LeftBlanks(tail);
    var b := RightBlanks(TrimLeft(tail));
    var value := TrimRight(TrimLeft(tail));
    assert tail == a + value + b;
    assert value != [] ==> value[..1] == TrimLeft(tail)[..1];
    assert line == line[..colon] + [':'] + (a + value + b);
    assert IsHeaderLine(line, line[..colon], value);
  }

  lemma HeaderIsReadOnce(line: Bytes, name: Bytes, value: Bytes, other: Bytes, second: Bytes)
    requires IsHeaderLine(line, name, value) && IsHeaderLine(line, other, second)
    ensures name == other && value == second
  {
    hide IsHeaderLine, WithHeader;
    HeaderIsStored(map[], line, name, value);
    HeaderIsStored(map[], line, other, second);
    var m, n: map<Bytes, Bytes> := map[name := value], map[other := second];
    assert m == n;
    assert name in m && other in n;
  }

  // ---------------------------------------------------------------- parseRequest

  datatype Parsed = Parsed(ok: bool, context: Context, rest: Bytes)

  /** The states in which `onMessage` calls the parser. */
  ghost predicate Legal(c: Context) {
    && (c.state.ExpectRequestLine? || c.state.ExpectHeaders?)
    && (c.state.ExpectRequestLine? ==> c.request.verb.Invalid? && c.request.headers == map[])
  }

  /** What one line does: go on with the next, reject the request, or complete it. */
  datatype Turn = Go(context: Context) | Bad(context: Context) | Done(context: Context)

  function OneLine(c: Context, line: Bytes, now: int): (t: Turn)
    requires c.state.ExpectRequestLine? || c.state.ExpectHeaders?
    ensures t.Go? ==> t.context.state.ExpectHeaders?
    ensures t.Bad? ==> t.context.state.ExpectRequestLine?
    ensures t.Done? ==> t.context.state.GotAll?
  {
    if c.state.ExpectRequestLine? then
      var got := AfterRequestLine(line, c.request);
      if got.ok then Go(Context(ExpectHeaders, got.request.(receiveTime := now)))
      else Bad(Context(ExpectRequestLine, got.request))
    else if Find(line, ':') < |line| then
      Go(c.(request := c.request.(headers := WithHeader(c.request.headers, line))))
    else
      Done(c.(state := GotAll))
  }

  function Parse(c: Context, buf: Bytes, now: int): (r: Parsed)
    requires c.state.ExpectRequestLine? || c.state.ExpectHeaders?
    ensures !r.context.state.ExpectBody?
    ensures r.ok && !r.context.state.GotAll? ==> FindCrlf(r.rest).None?
    ensures r.ok && c.state.ExpectHeaders? && !r.context.state.GotAll? ==> r.context.state.ExpectHeaders?
    ensures !r.ok ==> r.context.state.ExpectRequestLine?
    decreases |buf|
  {
    match FindCrlf(buf)
    case None => Parsed(true, c, buf)
    case Some(crlf) =>
      var rest := buf[crlf + 2..];
      match OneLine(c, buf[..crlf], now)
      case Go(d) => Parse(d, rest, now)
      case Bad(d) => Parsed(false, d, buf)
      case Done(d) => Parsed(true, d, rest)
  }

  /** The leftover is an end of the buffer. */
  lemma {:induction false} ParseLeavesAnEnd(c: Context, buf: Bytes, now: int)
    requires c.state.ExpectRequestLine? || c.state.ExpectHeaders?
    ensures var rest := Parse(c, buf, now).rest; |rest| <= |buf| && rest == buf[|buf| - |rest|..]
    decreases |buf|
  {
    hide OneLine, FindCrlf;
    if FindCrlf(buf).Some? {
      var crlf := FindCrlf(buf).value;
      var turn := OneLine(c, buf[..crlf], now);
      if turn.Go? { ParseLeavesAnEnd(turn.context, buf[crlf + 2..], now); }
    }
  }

  lemma {:induction false} ParseStaysLegal(c: Context, buf: Bytes, now: int)
    requires Legal(c)
    ensures var r := Parse(c, buf, now); r.ok && !r.context.state.GotAll? ==> Legal(r.context)
    decreases |buf|
  {
    hide OneLine, FindCrlf;
    if FindCrlf(buf).Some? {
      var crlf := FindCrlf(buf).value;
      var turn := OneLine(c, buf[..crlf], now);
      if turn.Go? { ParseStaysLegal(turn.context, buf[crlf + 2..], now); }
    }
  }

  // ---------------------------------------------------------------- chunks make no difference

  /** One call on `a + b` does what a call on `a` and then a call on its leftover and `b` do. */
  lemma {:induction false} ParseExtends(c: Context, a: Bytes, b: Bytes, now: int)
    requires c.state.ExpectRequestLine? || c.state.ExpectHeaders?
    ensures var r := Parse(c, a, now);
            Parse(c, a + b, now)
            == if !r.ok || r.context.state.GotAll? then r.(rest := r.rest + b) else Parse(r.context, r.rest + b, now)
    decreases |a|
  {
    hide OneLine, FindCrlf, Parse;
    ParseStep(c, a, now);
    if FindCrlf(a).Some? {
      FindCrlfExtends(a, b);
      ParseStep(c, a + b, now);
      var crlf := FindCrlf(a).value;
      var turn := OneLine(c, a[..crlf], now);
      assert (a + b)[..crlf] == a[..crlf];
      assert (a + b)[crlf + 2..] == a[crlf + 2..] + b;
      if turn.Go? { ParseExtends(turn.context, a[crlf + 2..], b, now); }
    }
  }

  lemma {:induction false} ParseStep(c: Context, buf: Bytes, now: int)
    requires c.state.ExpectRequestLine? || c.state.ExpectHeaders?
    ensures FindCrlf(buf).None? ==> Parse(c, buf, now) == Parsed(true, c, buf)
    ensures FindCrlf(buf).Some? ==>
              var crlf := FindCrlf(buf).value;
              var turn := OneLine(c, buf[..crlf], now);
              Parse(c, buf, now)
              == if turn.Go? then Parse(turn.context, buf[crlf + 2..], now)
                 else if turn.Bad? then Parsed(false, turn.context, buf)
                 else Parsed(true, turn.context, buf[crlf + 2..])
  {
    hide OneLine, FindCrlf;
  }

  /** The request without the time it was received. */
  function Timeless(r: Request): Request {
    r.(receiveTime := 0)
  }

  ghost predicate Alike(c: Context, d: Context) {
    c.state == d.state && Timeless(c.request) == Timeless(d.request)
  }

  lemma LineIgnoresTime(line: Bytes, c: Context, d: Context, t: int, u: int)
    requires c.state.ExpectRequestLine? || c.state.ExpectHeaders?
    requires Alike(c, d)
    ensures var r, s := OneLine(c, line, t), OneLine(d, line, u);
            r.Go? == s.Go? && r.Bad? == s.Bad? && Alike(r.context, s.context)
  {
    hide Find, MethodOf, WithHeader;
  }

  lemma {:induction false} ParseIgnoresTime(c: Context, d: Context, buf: Bytes, t: int, u: int)
    requires c.state.ExpectRequestLine? || c.state.ExpectHeaders?
    requires Alike(c, d)
    ensures var r, s := Parse(c, buf, t), Parse(d, buf, u);
            r.ok == s.ok && r.rest == s.rest && Alike(r.context, s.context)
    decreases |buf|
  {
    hide OneLine, FindCrlf;
    if FindCrlf(buf).Some? {
      var crlf := FindCrlf(buf).value;
      var line := buf[..crlf];
      LineIgnoresTime(line, c, d, t, u);
      if OneLine(c, line, t).Go? {
        ParseIgnoresTime(OneLine(c, line, t).context, OneLine(d, line, u).context, buf[crlf + 2..], t, u);
      }
    }
  }

  /** A request carries the time of the message with which its request line was read. */
  lemma {:induction false} ReceiveTimeExactly(c: Context, buf: Bytes, now: int)
    requires c.state.ExpectRequestLine? || c.state.ExpectHeaders?
    ensures var r := Parse(c, buf, now);
            r.context.state.ExpectHeaders? || r.context.state.GotAll? ==>
              r.context.request.receiveTime == if c.state.ExpectHeaders? then c.request.receiveTime else now
    decreases |buf|
  {
    hide FindCrlf, Find, MethodOf, AfterVersion, WithHeader;
    if FindCrlf(buf).Some? {
      var crlf := FindCrlf(buf).value;
      var turn := OneLine(c, buf[..crlf], now);
      if turn.Go? { ReceiveTimeExactly(turn.context, buf[crlf + 2..], now); }
    }
  }

  /**
    Chunk independence: from any legal state, two calls give the verdict, the request and the leftover
    of one call on all the bytes, even when the cut falls between CR and LF; and once a call has
    finished or failed, later bytes change only the leftover.
   */
  lemma ChunkIndependence(c: Context, a: Bytes, b: Bytes, t: int, u: int, w: int)
    requires Legal(c)
    ensures var r, whole := Parse(c, a, t), Parse(c, a + b, w);
            if !r.ok || r.context.state.GotAll? then
              whole.ok == r.ok && Alike(whole.context, r.context) && whole.rest == r.rest + b
            else
              Legal(r.context) &&
              var s := Parse(r.context, r.rest + b, u);
              whole.ok == s.ok && Alike(whole.context, s.context) && whole.rest == s.rest
  {
    ParseExtends(c, a, b, t);
    ParseIgnoresTime(c, c, a + b, t, w);
    ParseStaysLegal(c, a, t);
    var r := Parse(c, a, t);
    if r.ok && !r.context.state.GotAll? {
      ParseIgnoresTime(r.context, r.context, r.rest + b, t, u);
    }
  }

  // ---------------------------------------------------------------- the whole-stream reference

  /** The complete lines of a stream. */
  function Lines(s: Bytes): seq<Bytes>
    decreases |s|
  {
    match FindCrlf(s)
    case None => []
    case Some(k) => [s[..k]] + Lines(s[k + 2..])
  }

  ghost predicate HasColon(line: Bytes) {
    ':' in line
  }

  /** How many lines come before the first one without a colon. */
  ghost function HeaderCount(lines: seq<Bytes>): (n: nat)
    ensures n <= |lines|
    ensures forall i :: 0 <= i < n ==> HasColon(lines[i])
    ensures n < |lines| ==> !HasColon(lines[n])
  {
    if lines == [] || !HasColon(lines[0]) then 0 else 1 + HeaderCount(lines[1..])
  }

  /** The header map of a block of lines: for each name, the trimmed value of its last line. */
  ghost function HeaderMap(start: map<Bytes, Bytes>, lines: seq<Bytes>): map<Bytes, Bytes>
    requires forall i :: 0 <= i < |lines| ==> HasColon(lines[i])
    decreases |lines|
  {
    if lines == [] then start
    else
      ColonIsFound(lines[0]);
      HeaderMap(WithHeader(start, lines[0]), lines[1..])
  }

  lemma ColonIsFound(line: Bytes)
    ensures HasColon(line) <==> Find(line, ':') < |line|
  {
    assert line[..|line|] == line;
  }

  /** The requests of a list of lines; reading stops at the first bad request line. */
  ghost function RefRequests(lines: seq<Bytes>): seq<Request>
    decreases |lines|
  {
    if lines == [] || !AfterRequestLine(lines[0], EMPTY_REQUEST).ok then []
    else RefHeaders(AfterRequestLine(lines[0], EMPTY_REQUEST).request, lines[1..])
  }

  /** The requests of a list of lines that begins with the headers of `r`. */
  ghost function RefHeaders(r: Request, lines: seq<Bytes>): seq<Request>
    decreases |lines|
  {
    var n := HeaderCount(lines);
    if n == |lines| then []
    else [r.(headers := HeaderMap(r.headers, lines[..n]))] + RefRequests(lines[n + 1..])
  }

  // ---------------------------------------------------------------- the reference is the grammar

  /** Line `i` is the last header of its name. */
  ghost predicate LastOf(block: seq<Bytes>, i: nat, name: Bytes, value: Bytes) {
    && i < |block| && IsHeaderLine(block[i], name, value)
    && forall j, other: Bytes :: i < j < |block| ==> !IsHeaderLine(block[j], name, other)
  }

  ghost predicate HasHeader(block: seq<Bytes>, name: Bytes) {
    exists i, value: Bytes :: 0 <= i < |block| && IsHeaderLine(block[i], name, value)
  }

  ghost predicate HasLast(block: seq<Bytes>, name: Bytes, value: Bytes) {
    exists i :: 0 <= i < |block| && LastOf(block, i, name, value)
  }

  /** The map holds the names of the block, each with the value of its last line, and no other. */
  ghost predicate HeadersAre(m: map<Bytes, Bytes>, block: seq<Bytes>) {
    && (forall name :: name in m ==> HasLast(block, name, m[name]))
    && (forall name :: HasHeader(block, name) ==> name in m)
  }

  /** The same for a map that began as `start`. */
  ghost predicate HeadersFrom(start: map<Bytes, Bytes>, m: map<Bytes, Bytes>, block: seq<Bytes>) {
    && (forall name :: name in m ==>
          HasLast(block, name, m[name]) || (name in start && m[name] == start[name] && !HasHeader(block, name)))
    && (forall name :: HasHeader(block, name) || name in start ==> name in m)
  }

  lemma HeadersBegin(start: map<Bytes, Bytes>, line: Bytes, m: map<Bytes, Bytes>, block: seq<Bytes>, name: Bytes, value: Bytes)
    requires IsHeaderLine(line, name, value) && HeadersFrom(start[name := value], m, block)
    ensures HeadersFrom(start, m, [line] + block)
  {
    hide IsHeaderLine;
    var all := [line] + block;
    forall other | other in m
      ensures HasLast(all, other, m[other]) || (other in start && m[other] == start[other] && !HasHeader(all, other))
    {
      if HasLast(block, other, m[other]) {
        var i :| 0 <= i < |block| && LastOf(block, i, other, m[other]);
        LastStaysLast(line, block, i, other, m[other]);
      } else if other == name {
        assert LastOf(all, 0, name, value) by { NoneBehind(line, block, name, value); }
      } else if HasHeader(all, other) {
        FirstIsOther(line, block, name, value, other);
      }
    }
    forall other | HasHeader(all, other) || other in start
      ensures other in m
    {
      if other != name && HasHeader(all, other) { FirstIsOther(line, block, name, value, other); }
    }
  }

  lemma LastStaysLast(line: Bytes, block: seq<Bytes>, i: nat, name: Bytes, value: Bytes)
    requires LastOf(block, i, name, value)
    ensures HasLast([line] + block, name, value)
  {
    hide IsHeaderLine;
    var all := [line] + block;
    assert forall j :: 0 < j < |all| ==> all[j] == block[j - 1];
    assert LastOf(all, i + 1, name, value);
  }

  lemma NoneBehind(line: Bytes, block: seq<Bytes>, name: Bytes, value: Bytes)
    requires IsHeaderLine(line, name, value) && !HasHeader(block, name)
    ensures LastOf([line] + block, 0, name, value)
  {
    hide IsHeaderLine;
    var all := [line] + block;
    assert forall j :: 0 < j < |all| ==> all[j] == block[j - 1];
  }

  lemma FirstIsOther(line: Bytes, block: seq<Bytes>, name: Bytes, value: Bytes, other: Bytes)
    requires IsHeaderLine(line, name, value) && other != name && HasHeader([line] + block, other)
    ensures HasHeader(block, other)
  {
    hide IsHeaderLine;
    var all := [line] + block;
    var i, v: Bytes :| 0 <= i < |all| && IsHeaderLine(all[i], other, v);
    if i == 0 {
      HeaderIsReadOnce(line, name, value, other, v);
    } else {
      assert all[i] == block[i - 1];
    }
  }

  lemma {:induction false} HeaderMapFrom(start: map<Bytes, Bytes>, lines: seq<Bytes>)
    requires forall i :: 0 <= i < |lines| ==> HasColon(lines[i])
    ensures HeadersFrom(start, HeaderMap(start, lines), lines)
    decreases |lines|
  {
    hide IsHeaderLine, WithHeader, HeadersFrom;
    if lines == [] {
      NoHeaders(start);
    } else {
      ColonMakesHeader(lines[0]);
      var name: Bytes, value: Bytes :| IsHeaderLine(lines[0], name, value);
      HeaderIsStored(start, lines[0], name, value);
      HeaderMapFrom(start[name := value], lines[1..]);
      HeadersBegin(start, lines[0], HeaderMap(start, lines), lines[1..], name, value);
      assert lines == [lines[0]] + lines[1..];
    }
  }

  lemma NoHeaders(start: map<Bytes, Bytes>)
    ensures HeadersFrom(start, start, [])
  {
  }

  /** A header block: lines with colons, and one without at the end. */
  ghost predicate IsBlock(lines: seq<Bytes>) {
    lines != [] && !HasColon(lines[|lines| - 1]) && forall i :: 0 <= i < |lines| - 1 ==> HasColon(lines[i])
  }

  /** The lines are those of one request: a request line and its headers. */
  ghost predicate IsRequest(lines: seq<Bytes>, r: Request) {
    && |lines| >= 2 && IsRequestLine(lines[0], r.verb, r.path, r.version)
    && IsBlock(lines[1..]) && HeadersAre(r.headers, lines[1..|lines| - 1])
  }

  /** The requests are the first in the stream, one after the other. */
  ghost predicate Reads(lines: seq<Bytes>, rs: seq<Request>)
    decreases |rs|
  {
    rs == [] || exists n :: 2 <= n <= |lines| && IsRequest(lines[..n], rs[0]) && Reads(lines[n..], rs[1..])
  }

  /** And the stream has no further complete request behind them. */
  ghost predicate ReadsAll(lines: seq<Bytes>, rs: seq<Request>)
    decreases |rs|
  {
    if rs == [] then forall n, r :: 2 <= n <= |lines| ==> !IsRequest(lines[..n], r)
    else exists n :: 2 <= n <= |lines| && IsRequest(lines[..n], rs[0]) && ReadsAll(lines[n..], rs[1..])
  }

  lemma BadFirstLine(lines: seq<Bytes>)
    requires lines == [] || !AfterRequestLine(lines[0], EMPTY_REQUEST).ok
    ensures ReadsAll(lines, [])
  {
    hide AfterRequestLine, HeadersAre, IsBlock, IsRequestLine;
    forall n, r | 2 <= n <= |lines|
      ensures !IsRequest(lines[..n], r)
    {
      if IsRequest(lines[..n], r) { RequestLineExactly(lines[0], EMPTY_REQUEST, r.verb, r.path, r.version); }
    }
  }

  lemma OpenBlock(lines: seq<Bytes>)
    requires lines != [] && HeaderCount(lines[1..]) == |lines| - 1
    ensures ReadsAll(lines, [])
  {
    hide HeadersAre, IsRequestLine;
    forall n, r | 2 <= n <= |lines|
      ensures !IsRequest(lines[..n], r)
    {
      assert HasColon(lines[1..][n - 2]);
      assert lines[..n][1..][n - 2] == lines[1..][n - 2];
    }
  }

  lemma FirstRequest(lines: seq<Bytes>, n: nat)
    requires lines != [] && AfterRequestLine(lines[0], EMPTY_REQUEST).ok && n == HeaderCount(lines[1..]) < |lines| - 1
    ensures var r := AfterRequestLine(lines[0], EMPTY_REQUEST).request;
            IsRequest(lines[..n + 2], r.(headers := HeaderMap(r.headers, lines[1..][..n])))
  {
    hide AfterRequestLine, IsRequestLine;
    var r := AfterRequestLine(lines[0], EMPTY_REQUEST).request;
    AcceptedLineIsGood(lines[0], EMPTY_REQUEST);
    var block := lines[1..][..n];
    HeaderMapFrom(map[], block);
    assert lines[..n + 2][1..n + 1] == block && lines[..n + 2][1..] == lines[1..][..n + 1];
  }

  /** The reference reads exactly the requests of the grammar, up to the first bad line or the end of the stream. */
  lemma {:induction false} ReferenceIsTheGrammar(lines: seq<Bytes>)
    ensures ReadsAll(lines, RefRequests(lines))
    decreases |lines|
  {
    hide AfterRequestLine, IsRequest, HeaderMap;
    if lines == [] || !AfterRequestLine(lines[0], EMPTY_REQUEST).ok {
      BadFirstLine(lines);
    } else {
      var n := HeaderCount(lines[1..]);
      if n == |lines| - 1 {
        OpenBlock(lines);
      } else {
        FirstRequest(lines, n);
        assert lines[1..][n + 1..] == lines[n + 2..];
        ReferenceIsTheGrammar(lines[n + 2..]);
      }
    }
  }

  lemma {:induction false} FirstOfAll(lines: seq<Bytes>, rs: seq<Request>, all: seq<Request>)
    requires ReadsAll(lines, all) && |rs| <= |all| && forall i :: 0 <= i < |rs| ==> Timeless(rs[i]) == Timeless(all[i])
    ensures Reads(lines, rs)
    decreases |rs|
  {
    hide HeadersAre, IsRequestLine, IsBlock;
    if rs != [] {
      var n :| 2 <= n <= |lines| && IsRequest(lines[..n], all[0]) && ReadsAll(lines[n..], all[1..]);
      FirstOfAll(lines[n..], rs[1..], all[1..]);
      assert Timeless(rs[0]) == Timeless(all[0]);
      assert IsRequest(lines[..n], rs[0]);
    }
  }

  /** The requests that a parser in state `c` with the bytes `buf` still has to hand out. */
  ghost function Owed(c: Context, buf: Bytes): seq<Request>
    requires Legal(c)
  {
    if c.state.ExpectRequestLine? then RefRequests(Lines(buf)) else RefHeaders(Timeless(c.request), Lines(buf))
  }

  lemma HeaderLine(r: Request, line: Bytes, lines: seq<Bytes>)
    requires HasColon(line)
    ensures Find(line, ':') < |line|
    ensures RefHeaders(r, [line] + lines) == RefHeaders(r.(headers := WithHeader(r.headers, line)), lines)
  {
    ColonIsFound(line);
    var all := [line] + lines;
    assert all[1..] == lines;
    var n := HeaderCount(lines);
    assert HeaderCount(all) == n + 1;
    if n < |lines| {
      assert all[..n + 1][1..] == lines[..n];
      assert all[n + 2..] == lines[n + 1..];
    }
  }

  lemma LastHeaderLine(r: Request, line: Bytes, lines: seq<Bytes>)
    requires !HasColon(line)
    ensures RefHeaders(r, [line] + lines) == [r] + RefRequests(lines)
  {
    var all := [line] + lines;
    assert HeaderCount(all) == 0;
    assert all[..0] == [];
    assert all[1..] == lines;
  }

  /** What is owed before a line and after it. */
  lemma LinePays(c: Context, line: Bytes, lines: seq<Bytes>, now: int)
    requires Legal(c)
    ensures var turn := OneLine(c, line, now);
            (if c.state.ExpectRequestLine? then RefRequests([line] + lines) else RefHeaders(Timeless(c.request), [line] + lines))
            == if turn.Go? then RefHeaders(Timeless(turn.context.request), lines)
               else if turn.Bad? then []
               else [Timeless(turn.context.request)] + RefRequests(lines)
  {
    hide WithHeader, RefHeaders, HeaderMap;
    var all := [line] + lines;
    assert all[1..] == lines;
    ColonIsFound(line);
    if c.state.ExpectRequestLine? {
      FirstLine(line, c.request);
    } else if HasColon(line) {
      HeaderLine(Timeless(c.request), line, lines);
    } else {
      LastHeaderLine(Timeless(c.request), line, lines);
    }
  }

  lemma FirstLine(line: Bytes, r: Request)
    requires r.verb.Invalid? && r.headers == map[]
    ensures var got, clean := AfterRequestLine(line, r), AfterRequestLine(line, EMPTY_REQUEST);
            got.ok == clean.ok && (got.ok ==> Timeless(got.request) == clean.request)
  {
    hide Find, MethodOf;
  }

  /** One call hands out the first request owed, or none; a bad line ends what is owed. */
  lemma {:induction false} ParsePays(c: Context, buf: Bytes, now: int)
    requires Legal(c)
    ensures var r := Parse(c, buf, now);
            && (r.ok && r.context.state.GotAll? ==>
                  Owed(c, buf) == [Timeless(r.context.request)] + RefRequests(Lines(r.rest)))
            && (r.ok && !r.context.state.GotAll? ==> Legal(r.context) && Owed(c, buf) == Owed(r.context, r.rest))
            && (!r.ok ==> Owed(c, buf) == [])
    decreases |buf|
  {
    hide OneLine, FindCrlf, RefRequests, RefHeaders;
    ParseStaysLegal(c, buf, now);
    if FindCrlf(buf).Some? {
      var crlf := FindCrlf(buf).value;
      var line, rest := buf[..crlf], buf[crlf + 2..];
      assert Lines(buf) == [line] + Lines(rest);
      LinePays(c, line, Lines(rest), now);
      if OneLine(c, line, now).Go? { ParsePays(OneLine(c, line, now).context, rest, now); }
    }
  }

  // ---------------------------------------------------------------- the server

  /** One connection: the parser, its buffer, the bytes it consumed and the requests given to `onRequest`. */
  datatype Session = Session(context: Context, buf: Bytes, consumed: Bytes, served: seq<Request>, bad: bool)

  datatype Chunk = Chunk(bytes: Bytes, time: int)

  /** `HttpContext::reset`: the swap leaves the version of the last request in place. */
  function Reset(c: Context): Context {
    Context(ExpectRequestLine, EMPTY_REQUEST.(version := c.request.version))
  }

  /** `onMessage` after `chunk` was added to the buffer. */
  function OnMessage(s: Session, chunk: Chunk): Session
    requires s.context.state.ExpectRequestLine? || s.context.state.ExpectHeaders?
  {
    var buf := s.buf + chunk.bytes;
    var r := Parse(s.context, buf, chunk.time);
    ParseLeavesAnEnd(s.context, buf, chunk.time);
    var t := s.(buf := r.rest, consumed := s.consumed + buf[..|buf| - |r.rest|], bad := s.bad || !r.ok);
    if r.context.state.GotAll? then t.(context := Reset(r.context), served := s.served + [r.context.request])
    else t.(context := r.context)
  }

  /** The calls of `onMessage` up to the first bad request line. */
  ghost function Serve(s: Session, chunks: seq<Chunk>): Session
    requires s.bad || Legal(s.context)
    decreases |chunks|
  {
    if chunks == [] || s.bad then s
    else
      MessageStaysLegal(s, chunks[0]);
      Serve(OnMessage(s, chunks[0]), chunks[1..])
  }

  /** `onMessage` leaves the parser in a state from which it may be called again. */
  lemma MessageStaysLegal(s: Session, chunk: Chunk)
    requires Legal(s.context)
    ensures OnMessage(s, chunk).bad || Legal(OnMessage(s, chunk).context)
    ensures !OnMessage(s, chunk).context.state.GotAll? && !OnMessage(s, chunk).context.state.ExpectBody?
  {
    ParseStaysLegal(s.context, s.buf + chunk.bytes, chunk.time);
  }

  function AllBytes(chunks: seq<Chunk>): Bytes {
    if chunks == [] then [] else chunks[0].bytes + AllBytes(chunks[1..])
  }

  ghost function AllTimeless(rs: seq<Request>): (ts: seq<Request>)
    ensures |ts| == |rs|
  {
    seq(|rs|, i requires 0 <= i < |rs| => Timeless(rs[i]))
  }

  /** What the session has served, and what it owes for the bytes it holds and those to come. */
  ghost function Account(s: Session, future: Bytes): seq<Request>
    requires s.bad || Legal(s.context)
  {
    AllTimeless(s.served) + if s.bad then [] else Owed(s.context, s.buf + future)
  }

  lemma MessageKeepsAccount(s: Session, chunk: Chunk, future: Bytes)
    requires Legal(s.context) && !s.bad
    ensures OnMessage(s, chunk).bad || Legal(OnMessage(s, chunk).context)
    ensures Account(OnMessage(s, chunk), future) == Account(s, chunk.bytes + future)
  {
    hide Parse, Lines, RefRequests, RefHeaders;
    MessageStaysLegal(s, chunk);
    var t := OnMessage(s, chunk);
    var buf := s.buf + chunk.bytes;
    var now := chunk.time;
    var r := Parse(s.context, buf, now);
    assert s.buf + (chunk.bytes + future) == buf + future;
    ParseExtends(s.context, buf, future, now);
    ParsePays(s.context, buf + future, now);
    if !r.ok {
      assert t.served == s.served;
    } else if r.context.state.GotAll? {
      assert AllTimeless(t.served) == AllTimeless(s.served) + [Timeless(r.context.request)];
    } else {
      ParseStaysLegal(s.context, buf, now);
      ParsePays(r.context, r.rest + future, now);
    }
  }

  lemma MessageConserves(s: Session, chunk: Chunk)
    requires Legal(s.context)
    ensures OnMessage(s, chunk).consumed + OnMessage(s, chunk).buf == s.consumed + (s.buf + chunk.bytes)
  {
    hide Parse;
    var buf := s.buf + chunk.bytes;
    var r := Parse(s.context, buf, chunk.time);
    ParseLeavesAnEnd(s.context, buf, chunk.time);
    assert buf == buf[..|buf| - |r.rest|] + r.rest;
  }

  lemma {:induction false} ServeKeepsAccount(s: Session, chunks: seq<Chunk>)
    requires s.bad || Legal(s.context)
    ensures var t := Serve(s, chunks);
            && (t.bad || Legal(t.context))
            && (s.bad ==> t == s)
            && (!s.bad ==> Account(t, []) == Account(s, AllBytes(chunks)))
            && (!t.bad ==> t.consumed + t.buf == s.consumed + s.buf + AllBytes(chunks))
    decreases |chunks|
  {
    hide Parse, Owed, OnMessage, AllTimeless;
    if chunks == [] || s.bad {
      assert s.buf + [] == s.buf;
      assert s.consumed + s.buf + [] == s.consumed + s.buf;
    } else {
      var t := OnMessage(s, chunks[0]);
      MessageStaysLegal(s, chunks[0]);
      MessageKeepsAccount(s, chunks[0], AllBytes(chunks[1..]));
      MessageConserves(s, chunks[0]);
      ServeKeepsAccount(t, chunks[1..]);
      assert s.consumed + (s.buf + chunks[0].bytes) + AllBytes(chunks[1..]) == s.consumed + s.buf + AllBytes(chunks);
    }
  }

  const OPENED := Session(FRESH, [], [], [], false)

  /**
    Under any chunking the requests handed to `onRequest` are, in order, the first of those a reading
    of the whole stream yields; the rest are exactly those the parser owes for the bytes it holds; and
    a bad request line is met only when none is left.  No byte is lost: what was consumed and what is
    buffered make up what was received.
   */
  lemma ServerServesTheReference(chunks: seq<Chunk>)
    ensures var t := Serve(OPENED, chunks); var all := RefRequests(Lines(AllBytes(chunks)));
            && AllTimeless(t.served) <= all
            && (t.bad ==> AllTimeless(t.served) == all)
            && (!t.bad ==> Legal(t.context) && all == AllTimeless(t.served) + Owed(t.context, t.buf))
            && (!t.bad ==> t.consumed + t.buf == AllBytes(chunks))
  {
    ServeKeepsAccount(OPENED, chunks);
    var t := Serve(OPENED, chunks);
    assert OPENED.buf + AllBytes(chunks) == AllBytes(chunks);
    assert OPENED.consumed + OPENED.buf + AllBytes(chunks) == AllBytes(chunks);
    assert AllTimeless(OPENED.served) + RefRequests(Lines(AllBytes(chunks))) == RefRequests(Lines(AllBytes(chunks)));
    assert t.buf + [] == t.buf;
    assert AllTimeless(t.served) + [] == AllTimeless(t.served);
  }

  /**
    So what is served was written: under any chunking the requests given to `onRequest` are the first of
    the stream, each with the method, path and version of its request line and, for each name, the value
    of the last header line of that name.
   */
  lemma ServedAsWritten(chunks: seq<Chunk>)
    ensures Reads(Lines(AllBytes(chunks)), Serve(OPENED, chunks).served)
  {
    hide RefRequests, Reads, ReadsAll, Serve, Lines;
    var lines := Lines(AllBytes(chunks));
    var served := Serve(OPENED, chunks).served;
    ServerServesTheReference(chunks);
    ReferenceIsTheGrammar(lines);
    var all := RefRequests(lines);
    forall i | 0 <= i < |served|
      ensures Timeless(served[i]) == Timeless(all[i])
    {
      assert AllTimeless(served)[i] == all[i];
    }
    FirstOfAll(lines, served, all);
  }

  /** Two ways of cutting the same stream serve the same requests, up to what is still owed. */
  lemma ChunkingsAgree(one: seq<Chunk>, two: seq<Chunk>)
    requires AllBytes(one) == AllBytes(two)
    ensures var s, t := AllTimeless(Serve(OPENED, one).served), AllTimeless(Serve(OPENED, two).served);
            s <= t || t <= s
  {
    ServerServesTheReference(one);
    ServerServesTheReference(two);
  }

  /**
    Why the reference stops at a bad line: the line stays in the buffer, and another `onMessage` would
    fail the assert in `setMethod` exactly when the line begins with a known method and a space.
   */
  lemma {:induction false} BadLineLeavesMethodExactly(c: Context, buf: Bytes, now: int)
    requires Legal(c) && !Parse(c, buf, now).ok
    ensures var r := Parse(c, buf, now);
            && FindCrlf(r.rest).Some?
            && (!Legal(r.context) <==> BeginsWithMethod(r.rest[..FindCrlf(r.rest).value]))
    decreases |buf|
  {
    hide OneLine, BeginsWithMethod, FindCrlf;
    var crlf := FindCrlf(buf).value;
    var turn := OneLine(c, buf[..crlf], now);
    if turn.Go? {
      BadLineLeavesMethodExactly(turn.context, buf[crlf + 2..], now);
    } else {
      FailedLine(buf[..crlf], c, now);
    }
  }

  /** `processRequestLine` gets as far as `setMethod`, whose assert wants the method unset. */
  predicate FailsAssert(c: Context, line: Bytes) {
    c.state.ExpectRequestLine? && Find(line, ' ') < |line| && c.request.verb != Invalid
  }

  /** `parseRequest` with its assert: nothing if that fails. */
  function CheckedParse(c: Context, buf: Bytes, now: int): Option<Parsed>
    requires c.state.ExpectRequestLine? || c.state.ExpectHeaders?
    decreases |buf|
  {
    match FindCrlf(buf)
    case None => Some(Parsed(true, c, buf))
    case Some(crlf) =>
      if FailsAssert(c, buf[..crlf]) then None
      else
        match OneLine(c, buf[..crlf], now)
        case Go(d) => CheckedParse(d, buf[crlf + 2..], now)
        case Bad(d) => Some(Parsed(false, d, buf))
        case Done(d) => Some(Parsed(true, d, buf[crlf + 2..]))
  }

  /** A call from a state in which `onMessage` may be called fails no assert. */
  lemma {:induction false} LegalCallsFailNoAssert(c: Context, buf: Bytes, now: int)
    requires Legal(c)
    ensures CheckedParse(c, buf, now) == Some(Parse(c, buf, now))
    decreases |buf|
  {
    hide OneLine, FindCrlf, Find;
    if FindCrlf(buf).Some? {
      var crlf := FindCrlf(buf).value;
      var turn := OneLine(c, buf[..crlf], now);
      if turn.Go? {
        LineStaysLegal(c, buf[..crlf], now);
        LegalCallsFailNoAssert(turn.context, buf[crlf + 2..], now);
      }
    }
  }

  /**
    After a call that met a bad request line, the next call, with whatever bytes have come, fails the
    assert in `setMethod` exactly if that line begins with a known method and a space.
   */
  lemma NextCallFailsAssertExactly(c: Context, buf: Bytes, now: int, more: Bytes, later: int)
    requires Legal(c) && !Parse(c, buf, now).ok
    ensures var r := Parse(c, buf, now);
            && FindCrlf(r.rest).Some?
            && (CheckedParse(r.context, r.rest + more, later).None? <==> BeginsWithMethod(r.rest[..FindCrlf(r.rest).value]))
  {
    hide OneLine, FindCrlf, Parse;
    BadLineLeavesMethodExactly(c, buf, now);
    HeadersUntouched(c, buf, now);
    var r := Parse(c, buf, now);
    FindCrlfExtends(r.rest, more);
    var crlf := FindCrlf(r.rest).value;
    assert (r.rest + more)[..crlf] == r.rest[..crlf];
    if !BeginsWithMethod(r.rest[..crlf]) {
      LegalCallsFailNoAssert(r.context, r.rest + more, later);
    }
  }

  lemma {:induction false} HeadersUntouched(c: Context, buf: Bytes, now: int)
    requires Legal(c) && !Parse(c, buf, now).ok
    ensures Parse(c, buf, now).context.request.headers == map[]
    decreases |buf|
  {
    hide OneLine, FindCrlf;
    var crlf := FindCrlf(buf).value;
    var turn := OneLine(c, buf[..crlf], now);
    if turn.Go? {
      LineStaysLegal(c, buf[..crlf], now);
      HeadersUntouched(turn.context, buf[crlf + 2..], now);
    } else {
      BadLineKeepsHeaders(buf[..crlf], c, now);
    }
  }

  lemma BadLineKeepsHeaders(line: Bytes, c: Context, now: int)
    requires Legal(c) && OneLine(c, line, now).Bad?
    ensures OneLine(c, line, now).context.request.headers == map[]
  {
    hide Find, MethodOf;
  }

  predicate BeginsWithMethod(line: Bytes) {
    Find(line, ' ') < |line| && MethodOf(line[..Find(line, ' ')]) != Invalid
  }

  lemma FailedLine(line: Bytes, c: Context, now: int)
    requires Legal(c) && OneLine(c, line, now).Bad?
    ensures !Legal(OneLine(c, line, now).context) <==> BeginsWithMethod(line)
  {
    hide Find, MethodOf;
  }

  // ---------------------------------------------------------------- the code

  class HttpContext {
    var state: ParseState
    var request: Request

    function Value(): Context
      reads this
    {
      Context(state, request)
    }

    constructor ()
      ensures Value() == FRESH
    {
      state, request := ExpectRequestLine, EMPTY_REQUEST;
    }

    method Clear()
      modifies this
      ensures Value() == Reset(old(Value()))
    {
      state := ExpectRequestLine;
      request := Request(Invalid, request.version, [], 0, map[]);
    }

    method SetMethod(word: Bytes) returns (ok: bool)
      requires request.verb == Invalid
      modifies this`request
      ensures request == old(request).(verb := MethodOf(word)) && ok == (request.verb != Invalid)
    {
      var m := Invalid;
      if word == "GET" {
        m := Get;
      } else if word == "POST" {
        m := Post;
      } else if word == "HEAD" {
        m := Head;
      } else if word == "PUT" {
        m := Head;
      } else if word == "DELETE" {
        m := Delete;
      }
      request := request.(verb := m);
      ok := m != Invalid;
    }

    /** Trims the value with the two loops of the code. */
    method AddHeader(line: Bytes, colon: nat)
      requires colon == Find(line, ':') < |line|
      modifies this`request
      ensures request == old(request).(headers := WithHeader(old(request).headers, line))
    {
      var field := line[..colon];
      var start := colon + 1;
      while start < |line| && IsSpace(line[start])
        invariant colon < start <= |line|
        invariant TrimLeft(line[colon + 1..]) == TrimLeft(line[start..])
      {
        assert line[start..][1..] == line[start + 1..];
        start := start + 1;
      }
      var value := line[start..];
      while value != [] && IsSpace(value[|value| - 1])
        invariant TrimRight(value) == TrimRight(TrimLeft(line[colon + 1..]))
        decreases |value|
      {
        value := value[..|value| - 1];
      }
      request := request.(headers := request.headers[field := value]);
    }
  }

  method FindFrom(s: Bytes, start: nat, c: Byte) returns (k: nat)
    requires start <= |s|
    ensures start <= k <= |s| && k == start + Find(s[start..], c)
  {
    k := start;
    while k < |s| && s[k] != c
      invariant start <= k <= |s| && c !in s[start..k]
    {
      k := k + 1;
    }
    assert s[start..][..k - start] == s[start..k];
    FindIs(s[start..], c, k - start);
  }

  method ProcessRequestLine(line: Bytes, context: HttpContext) returns (succeed: bool)
    requires context.request.verb == Invalid
    modifies context`request
    ensures LineResult(succeed, context.request) == AfterRequestLine(line, old(context.request))
  {
    hide Find, MethodOf, AfterVersion;
    succeed := false;
    var start := 0;
    assert line[0..] == line;
    var space := FindFrom(line, start, ' ');
    if space != |line| {
      var known := context.SetMethod(line[start..space]);
      if known {
        start := space + 1;
        space := FindFrom(line, start, ' ');
        if space != |line| {
          ghost var rest := line[start..];
          assert rest[..space - start] == line[start..space];
          assert rest[space - start + 1..] == line[space + 1..];
          context.request := context.request.(path := line[start..space]);
          succeed := ProcessVersion(line, space + 1, context);
        }
      }
    }
  }

  /** The rest of the line, from `start` on. */
  method ProcessVersion(line: Bytes, start: nat, context: HttpContext) returns (succeed: bool)
    requires start <= |line|
    modifies context`request
    ensures LineResult(succeed, context.request) == AfterVersion(line[start..], old(context.request))
  {
    succeed := |line| - start == 8 && line[start..|line| - 1] == "HTTP/1.";
    assert |line| - start == 8 ==> line[start..][..7] == line[start..|line| - 1];
    if succeed {
      if line[|line| - 1] == '1' {
        context.request := context.request.(version := Http11);
      } else if line[|line| - 1] == '0' {
        context.request := context.request.(version := Http10);
      } else {
        succeed := false;
      }
    }
  }

  /** The branches of the loop of `parseRequest`, for a complete line. */
  method TakeLine(line: Bytes, context: HttpContext, now: int) returns (ok: bool, hasMore: bool)
    requires Legal(context.Value())
    modifies context
    ensures context.Value() == OneLine(old(context.Value()), line, now).context
    ensures OneLine(old(context.Value()), line, now).Go? <==> hasMore
    ensures OneLine(old(context.Value()), line, now).Bad? <==> !ok
  {
    hide AfterRequestLine, WithHeader;
    ok, hasMore := true, true;
    if context.state.ExpectRequestLine? {
      ok := ProcessRequestLine(line, context);
      if ok {
        context.request := context.request.(receiveTime := now);
        context.state := ExpectHeaders;
      } else {
        hasMore := false;
      }
    } else {
      assert line[0..] == line;
      var colon := FindFrom(line, 0, ':');
      if colon != |line| {
        context.AddHeader(line, colon);
      } else {
        context.state := GotAll;
        hasMore := false;
      }
    }
  }

  /** One turn of the loop of `parseRequest`. */
  method ParseLine(buf: Buffer, context: HttpContext, now: int) returns (ok: bool, hasMore: bool)
    requires buf.Valid() && Legal(context.Value())
    modifies buf`reader, buf`writer, context
    ensures buf.Valid()
    ensures hasMore ==> ok && Legal(context.Value()) && buf.ReadableBytes() + 2 <= old(buf.ReadableBytes())
    ensures hasMore ==> Parse(old(context.Value()), old(buf.Contents()), now) == Parse(context.Value(), buf.Contents(), now)
    ensures !hasMore ==> Parse(old(context.Value()), old(buf.Contents()), now) == Parsed(ok, context.Value(), buf.Contents())
  {
    hide OneLine, FindCrlf, AfterRequestLine, Find, WithHeader, Legal;
    ok, hasMore := true, true;
    LineStaysLegal(context.Value(), [], now);
    var crlf := buf.FindCRLF();
    if crlf.None? {
      hasMore := false;
    } else {
      var line := buf.Peek(crlf.value);
      LineStaysLegal(context.Value(), line, now);
      ok, hasMore := TakeLine(line, context, now);
      if ok {
        buf.Retrieve(crlf.value + 2);
      }
    }
  }

  lemma LineStaysLegal(c: Context, line: Bytes, now: int)
    requires Legal(c)
    ensures c.state.ExpectRequestLine? || c.state.ExpectHeaders?
    ensures OneLine(c, line, now).Go? ==> Legal(OneLine(c, line, now).context)
  {
  }

  /** The loop of `parseRequest`.  Each turn that goes on consumes at least the two bytes of a CRLF. */
  method ParseRequest(buf: Buffer, context: HttpContext, now: int) returns (ok: bool)
    requires buf.Valid() && Legal(context.Value())
    modifies buf`reader, buf`writer, context
    ensures buf.Valid()
    ensures Parsed(ok, context.Value(), buf.Contents()) == Parse(old(context.Value()), old(buf.Contents()), now)
  {
    hide Parse;
    ok := true;
    var hasMore := true;
    while hasMore
      invariant buf.Valid()
      invariant hasMore ==> Legal(context.Value()) &&
                            Parse(context.Value(), buf.Contents(), now) == Parse(old(context.Value()), old(buf.Contents()), now)
      invariant !hasMore ==> Parse(old(context.Value()), old(buf.Contents()), now) == Parsed(ok, context.Value(), buf.Contents())
      decreases hasMore, buf.ReadableBytes()
    {
      ok, hasMore := ParseLine(buf, context, now);
    }
  }

  /** `onMessage`: at most one request is served for each call, and the parser is made ready for the next. */
  method HandleMessage(buf: Buffer, context: HttpContext, chunk: Chunk) returns (ok: bool, served: Option<Request>)
    requires buf.Valid() && Legal(context.Value())
    modifies buf, buf.data, context
    ensures buf.Valid() && (buf.data == old(buf.data) || fresh(buf.data))
    ensures Answer(context.Value(), buf.Contents(), ok, served)
            == AfterMessage(old(context.Value()), old(buf.Contents()), chunk)
  {
    hide Parse, FindCrlf, OneLine;
    buf.Append(chunk.bytes);
    ok := ParseRequest(buf, context, chunk.time);
    served := None;
    if context.state.GotAll? {
      served := Some(context.request);
      context.Clear();
    }
  }

  datatype Answer = Answer(context: Context, buf: Bytes, ok: bool, served: Option<Request>)

  ghost function AfterMessage(c: Context, buf: Bytes, chunk: Chunk): Answer
    requires Legal(c)
  {
    var r := Parse(c, buf + chunk.bytes, chunk.time);
    if r.context.state.GotAll? then Answer(Reset(r.context), r.rest, r.ok, Some(r.context.request))
    else Answer(r.context, r.rest, r.ok, None)
  }

  /** The method is the step of the session. */
  lemma MessageIsStep(s: Session, chunk: Chunk)
    requires Legal(s.context)
    ensures var a, t := AfterMessage(s.context, s.buf, chunk), OnMessage(s, chunk);
            && t.context == a.context && t.buf == a.buf && t.bad == (s.bad || !a.ok)
            && t.served == if a.served.Some? then s.served + [a.served.value] else s.served
  {
    hide Parse;
  }
}
