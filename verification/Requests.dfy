/** The requests the lab 3 client's `post` and `get` build and what the lab 3 server's parseHttpRequest makes
    of them. http.ReadRequest may reject any block; when it accepts one, its Content-Length is the
    value of the first header with that name, its continuation lines joined to it. */
module Requests {
  import opened Packets
  import opened Framing

  // ---- the header block

  predicate Plain(s: string) {
    '\r' !in s && '\n' !in s
  }

  /** The lines, each closed by CRLF. */
  function Ended(lines: seq<string>): string {
    if lines == [] then "" else Ended(lines[..|lines| - 1]) + lines[|lines| - 1] + CRLF
  }

  function Lower(c: char): char {
    if 'A' <= c <= 'Z' then c + 32 as char else c
  }

  function LowerAll(s: string): string {
    seq(|s|, i requires 0 <= i < |s| => Lower(s[i]))
  }

  /** Header names are compared without case. */
  predicate NamesLength(line: string) {
    |line| >= 15 && LowerAll(line[..14]) == "content-length" && line[14] == ':'
  }

  predicate Blank(c: char) {
    c == ' ' || c == '\t'
  }

  function Trim(s: string): string
    decreases |s|
  {
    if s == "" then ""
    else if Blank(s[0]) then Trim(s[1..])
    else if Blank(s[|s| - 1]) then Trim(s[..|s| - 1])
    else s
  }

  /** A line that starts with a blank continues the header before it. */
  predicate Continues(line: string) {
    line != "" && Blank(line[0])
  }

  /** What the continuation lines at the head of a block add to the header before them. */
  function Continuation(block: string): string
    decreases |block|
  {
    if !Continues(block) then ""
    else
      (IndexIs(block, CRLF, 0);
       var k := Index(block, CRLF);
       if k == -1 then " " + Trim(block) else " " + Trim(block[..k]) + Continuation(block[k + 2..]))
  }

  /** Header.Get on header lines: the first header of that name, with its continuation lines, up to
      the empty line. A continuation line itself never names a header. */
  function LengthIn(block: string): string
    decreases |block|
  {
    IndexIs(block, CRLF, 0);
    var k := Index(block, CRLF);
    if k <= 0 then ""
    else if NamesLength(block[..k]) then Trim(Trim(block[15..k]) + Continuation(block[k + 2..]))
    else LengthIn(block[k + 2..])
  }

  /** http.ReadRequest, then Get("Content-Length"); `accepts` is everything else the library checks. */
  function Parser(accepts: string -> bool): string -> Option<string> {
    (block: string) =>
      if !accepts(block) then None
      else
        (IndexIs(block, CRLF, 0);
         var k := Index(block, CRLF);
         Some(if k == -1 then "" else LengthIn(block[k + 2..])))
  }

  // ---- parseHttpRequest

  datatype Request = NilPanic | HeaderError | Request(header: string, body: Option<string>)

  /** Without a header end the request stays nil and the next line dereferences it. */
  function ParseHttpRequest(parser: string -> Option<string>, text: string): Request {
    IndexIs(text, HEADER_END, 0);
    var k := Index(text, HEADER_END);
    if k == -1 then NilPanic
    else
      match parser(text[..k] + HEADER_END)
      case None => HeaderError
      case Some(length) =>
        Request(text[..k],
                if length == Itoa(|text| - k - |HEADER_END|) then Some(text[k + |HEADER_END|..]) else None)
  }

  /** A nil request is dereferenced exactly on the texts without a header end, such as the empty text
      that an empty message delivers. */
  lemma NilPanicExactly(parser: string -> Option<string>, text: string)
    ensures ParseHttpRequest(parser, text).NilPanic? <==> forall j: nat :: !OccursAt(text, HEADER_END, j)
    ensures ParseHttpRequest(parser, "") == NilPanic
  {
    IndexIs(text, HEADER_END, 0);
  }

  /** What becomes of a text whose first header end is at k: refused exactly when the library rejects
      the block; otherwise its header is what stands before k, and the rest is its body exactly when
      the Content-Length found is the length of the rest. */
  lemma ParsedExactly(parser: string -> Option<string>, text: string, k: nat)
    requires OccursAt(text, HEADER_END, k) && forall j: nat :: j < k ==> !OccursAt(text, HEADER_END, j)
    ensures var (r, found) := (ParseHttpRequest(parser, text), parser(text[..k] + HEADER_END));
            && (r == HeaderError <==> found == None)
            && (r.Request? <==> found.Some?)
            && (r.Request? ==>
                  && r.header == text[..k]
                  && (r.body.Some? <==> found == Some(Itoa(|text[k + 4..]|)))
                  && (r.body.Some? ==> r.body == Some(text[k + 4..])))
  {
    IndexIs(text, HEADER_END, k);
  }

  // ---- post and get

  function PostLines(url: string, host: string, headers: seq<string>): seq<string> {
    ["POST " + url + " HTTP/1.0", "Host: " + host] + headers
  }

  function PostHead(url: string, host: string, headers: seq<string>, data: string): string {
    Ended(PostLines(url, host, headers)) + "Content-Length: " + Itoa(|data|)
  }

  /** Plain lines throughout: the caller puts no line break into a header. */
  ghost predicate PlainRequest(url: string, host: string, headers: seq<string>) {
    Plain(url) && Plain(host) && PlainLines(headers)
  }

  /** The text of a POST request. Cut at its line breaks it is the request line, the Host line, the
      caller's header lines in order, the client's own Content-Length, an empty line and the data. */
  method BuildPost(url: string, host: string, headers: seq<string>, data: string) returns (req: string)
    ensures req == PostHead(url, host, headers, data) + HEADER_END + data
    ensures PlainRequest(url, host, headers) ==>
              && LineAt(req, 0) == "POST " + url + " HTTP/1.0"
              && LineAt(req, 1) == "Host: " + host
              && (forall i :: 0 <= i < |headers| ==> LineAt(req, i + 2) == headers[i])
              && LineAt(req, |headers| + 2) == "Content-Length: " + Itoa(|data|)
              && LineAt(req, |headers| + 3) == ""
              && After(req, |headers| + 4) == data
  {
    req := "POST " + url + " HTTP/1.0" + CRLF + "Host: " + host + CRLF;
    var lines := ["POST " + url + " HTTP/1.0", "Host: " + host] + headers;
    FirstLines(lines);
    for i := 0 to |headers|
      invariant req == Ended(lines[..i + 2])
    {
      req := req + headers[i] + CRLF;
      assert lines[..i + 3][..i + 2] == lines[..i + 2];
    }
    assert lines[..|headers| + 2] == lines;
    req := req + "Content-Length: " + Itoa(|data|) + HEADER_END + data;
    if PlainRequest(url, host, headers) {
      PostLinesAre(url, host, headers, data);
    }
  }

  lemma FirstLines(lines: seq<string>)
    requires |lines| >= 2
    ensures Ended(lines[..2]) == lines[0] + CRLF + lines[1] + CRLF
  {
    assert lines[..2][..1] == lines[..1] && lines[..1][..0] == [];
    assert Ended(lines[..1]) == "" + lines[0] + CRLF;
  }

  function GetLines(url: string, host: string, headers: seq<string>): seq<string> {
    ["GET " + url + " HTTP/1.0", "Host: " + host] + headers
  }

  /** The text of a GET request: the lines, each ended, and one header end more. */
  method BuildGet(url: string, host: string, headers: seq<string>) returns (req: string)
    ensures req == Ended(GetLines(url, host, headers)) + HEADER_END
    ensures PlainRequest(url, host, headers) ==>
              && LineAt(req, 0) == "GET " + url + " HTTP/1.0"
              && LineAt(req, 1) == "Host: " + host
              && (forall i :: 0 <= i < |headers| ==> LineAt(req, i + 2) == headers[i])
              && After(req, |headers| + 2) == HEADER_END
  {
    req := "GET " + url + " HTTP/1.0" + CRLF + "Host: " + host + CRLF;
    var lines := ["GET " + url + " HTTP/1.0", "Host: " + host] + headers;
    FirstLines(lines);
    for i := 0 to |headers|
      invariant req == Ended(lines[..i + 2])
    {
      req := req + headers[i] + CRLF;
      assert lines[..i + 3][..i + 2] == lines[..i + 2];
    }
    assert lines[..|headers| + 2] == lines;
    req := req + HEADER_END;
    if PlainRequest(url, host, headers) {
      GetLinesAre(url, host, headers);
    }
  }

  // ---- the lines of a text

  /** The text after its first i lines, cut at the line breaks. */
  function After(text: string, i: nat): string {
    if i == 0 then text
    else
      var rest := After(text, i - 1);
      IndexIs(rest, CRLF, 0);
      var k := Index(rest, CRLF);
      if k == -1 then "" else rest[k + 2..]
  }

  /** Line i of the text, counting from 0. */
  function LineAt(text: string, i: nat): string {
    var rest := After(text, i);
    IndexIs(rest, CRLF, 0);
    var k := Index(rest, CRLF);
    if k == -1 then rest else rest[..k]
  }

  /** Ended lines are cut where they were ended. */
  lemma {:induction false} AfterIs(lines: seq<string>, tail: string, i: nat)
    requires PlainLines(lines) && i <= |lines|
    ensures After(Ended(lines) + tail, i) == Ended(lines[i..]) + tail
  {
    if i == 0 {
      assert lines[0..] == lines;
    } else {
      AfterIs(lines, tail, i - 1);
      FirstCut(lines[i - 1..], tail);
      assert lines[i - 1..][1..] == lines[i..];
    }
  }

  lemma LineIs(lines: seq<string>, tail: string, i: nat)
    requires PlainLines(lines) && i < |lines|
    ensures LineAt(Ended(lines) + tail, i) == lines[i]
  {
    AfterIs(lines, tail, i);
    FirstCut(lines[i..], tail);
  }

  lemma Joined(x: string, y: string, tail: string)
    ensures (x + CRLF + y) + tail == x + CRLF + (y + tail)
    ensures var text := x + CRLF + y; |x| + 2 <= |text| && text[..|x|] == x && text[|x| + 2..] == y
  {
  }

  lemma FirstCut(lines: seq<string>, tail: string)
    requires PlainLines(lines) && lines != []
    ensures var text, k := Ended(lines) + tail, |lines[0]|;
            Index(text, CRLF) == k && k + 2 <= |text| && text[..k] == lines[0] && text[k + 2..] == Ended(lines[1..]) + tail
  {
    var line, more := lines[0], Ended(lines[1..]);
    assert lines == [line] + lines[1..];
    EndedFront(line, lines[1..]);
    Joined(line, more, tail);
    Joined(line, more + tail, "");
    BreakAfterLine(line, more + tail);
  }

  /** All lines at once, and what follows them. */
  lemma AllLinesAre(lines: seq<string>, tail: string)
    requires PlainLines(lines)
    ensures forall i :: 0 <= i < |lines| ==> LineAt(Ended(lines) + tail, i) == lines[i]
    ensures After(Ended(lines) + tail, |lines|) == tail
  {
    forall i | 0 <= i < |lines|
      ensures LineAt(Ended(lines) + tail, i) == lines[i]
    {
      LineIs(lines, tail, i);
    }
    AfterIs(lines, tail, |lines|);
    assert lines[|lines|..] == [] && "" + tail == tail;
  }

  lemma EndedTwo(lines: seq<string>, a: string, b: string)
    ensures Ended(lines + [a, b]) == Ended(lines) + a + CRLF + b + CRLF
  {
    assert (lines + [a, b])[..|lines| + 1] == lines + [a] && (lines + [a])[..|lines|] == lines;
  }

  /** The lines of a POST request. */
  function AllPostLines(url: string, host: string, headers: seq<string>, data: string): seq<string> {
    PostLines(url, host, headers) + ["Content-Length: " + Itoa(|data|), ""]
  }

  lemma OwnEnds(before: string, own: string, data: string)
    ensures before + own + HEADER_END + data == before + own + CRLF + "" + CRLF + data
  {
  }

  /** The whole text of a POST request as ended lines and data. */
  lemma PostIsLines(url: string, host: string, headers: seq<string>, data: string)
    ensures PostHead(url, host, headers, data) + HEADER_END + data == Ended(AllPostLines(url, host, headers, data)) + data
  {
    var own, lines := "Content-Length: " + Itoa(|data|), PostLines(url, host, headers);
    EndedTwo(lines, own, "");
    OwnEnds(Ended(lines), own, data);
    assert PostHead(url, host, headers, data) == Ended(lines) + own;
  }

  lemma PostLinesAre(url: string, host: string, headers: seq<string>, data: string)
    requires PlainRequest(url, host, headers)
    ensures var req := PostHead(url, host, headers, data) + HEADER_END + data;
            && LineAt(req, 0) == "POST " + url + " HTTP/1.0"
            && LineAt(req, 1) == "Host: " + host
            && (forall i :: 0 <= i < |headers| ==> LineAt(req, i + 2) == headers[i])
            && LineAt(req, |headers| + 2) == "Content-Length: " + Itoa(|data|)
            && LineAt(req, |headers| + 3) == ""
            && After(req, |headers| + 4) == data
  {
    var lines := AllPostLines(url, host, headers, data);
    PostIsLines(url, host, headers, data);
    PlainPost(url, host, headers, data);
    AllLinesAre(lines, data);
    PostLineNumbers(url, host, headers, data);
  }

  lemma PostLineNumbers(url: string, host: string, headers: seq<string>, data: string)
    ensures var lines := AllPostLines(url, host, headers, data);
            && |lines| == |headers| + 4
            && lines[0] == "POST " + url + " HTTP/1.0" && lines[1] == "Host: " + host
            && (forall i :: 0 <= i < |headers| ==> lines[i + 2] == headers[i])
            && lines[|headers| + 2] == "Content-Length: " + Itoa(|data|) && lines[|headers| + 3] == ""
  {
  }

  lemma PlainPost(url: string, host: string, headers: seq<string>, data: string)
    requires PlainRequest(url, host, headers)
    ensures PlainLines(AllPostLines(url, host, headers, data))
  {
    OwnLineNames(|data|);
    OwnLines(url, host, headers);
  }

  lemma GetLinesAre(url: string, host: string, headers: seq<string>)
    requires PlainRequest(url, host, headers)
    ensures var req := Ended(GetLines(url, host, headers)) + HEADER_END;
            && LineAt(req, 0) == "GET " + url + " HTTP/1.0"
            && LineAt(req, 1) == "Host: " + host
            && (forall i :: 0 <= i < |headers| ==> LineAt(req, i + 2) == headers[i])
            && After(req, |headers| + 2) == HEADER_END
  {
    PlainGet(url, host, headers);
    AllLinesAre(GetLines(url, host, headers), HEADER_END);
    GetLineNumbers(url, host, headers);
  }

  lemma GetLineNumbers(url: string, host: string, headers: seq<string>)
    ensures var lines := GetLines(url, host, headers);
            && |lines| == |headers| + 2
            && lines[0] == "GET " + url + " HTTP/1.0" && lines[1] == "Host: " + host
            && (forall i :: 0 <= i < |headers| ==> lines[i + 2] == headers[i])
  {
  }

  lemma PlainGet(url: string, host: string, headers: seq<string>)
    requires PlainRequest(url, host, headers)
    ensures PlainLines(GetLines(url, host, headers))
    ensures NoneEmpty(headers) ==> NoneEmpty(GetLines(url, host, headers))
  {
    assert Plain("GET " + url + " HTTP/1.0") && Plain("Host: " + host);
  }

  // ---- searching line by line

  lemma {:induction false} EndedFront(line: string, lines: seq<string>)
    ensures Ended([line] + lines) == line + CRLF + Ended(lines)
  {
    var all := [line] + lines;
    if lines == [] {
      assert all[..0] == [] && Ended(all) == "" + line + CRLF;
    } else {
      assert all[..|all| - 1] == [line] + lines[..|lines| - 1];
      EndedFront(line, lines[..|lines| - 1]);
    }
  }

  /** A line break is first met after the first line. */
  lemma BreakAfterLine(line: string, rest: string)
    requires Plain(line)
    ensures Index(line + CRLF + rest, CRLF) == |line|
  {
    var s := line + CRLF + rest;
    assert OccursAt(s, CRLF, |line|);
    forall j: nat | j < |line|
      ensures !OccursAt(s, CRLF, j)
    {
      assert s[j] == line[j] && s[j] != '\r';
    }
    IndexIs(s, CRLF, |line|);
  }

  /** A header end never begins inside a non-empty line or at its own line break. */
  lemma HeaderEndInRest(line: string, rest: string, j: nat)
    requires Plain(line) && rest != "" && rest[0] != '\r'
    ensures OccursAt(line + CRLF + rest, HEADER_END, j)
            <==> j >= |line| + 2 && OccursAt(rest, HEADER_END, j - |line| - 2)
  {
    var s := line + CRLF + rest;
    if j < |line| {
      assert s[j] == line[j] && s[j] != '\r';
    } else if j == |line| {
      assert s[j + 2] == rest[0];
    } else if j == |line| + 1 {
      assert s[j] == '\n';
    } else if j + 4 <= |s| {
      assert s[j..j + 4] == rest[j - |line| - 2..j - |line| - 2 + 4];
    }
  }

  lemma HeaderEndAfterLine(line: string, rest: string, k: nat)
    requires Plain(line) && rest != "" && rest[0] != '\r'
    requires Index(rest, HEADER_END) == k
    ensures Index(line + CRLF + rest, HEADER_END) == |line| + 2 + k
  {
    var s := line + CRLF + rest;
    IndexIs(rest, HEADER_END, k);
    forall j: nat
      ensures OccursAt(s, HEADER_END, j) <==> j >= |line| + 2 && OccursAt(rest, HEADER_END, j - |line| - 2)
    {
      HeaderEndInRest(line, rest, j);
    }
    IndexIs(s, HEADER_END, |line| + 2 + k);
  }

  ghost predicate PlainLines(lines: seq<string>) {
    forall i :: 0 <= i < |lines| ==> Plain(lines[i])
  }

  ghost predicate NoneEmpty(lines: seq<string>) {
    forall i :: 0 <= i < |lines| ==> lines[i] != ""
  }

  /** The header end is found after the last line, whatever follows it. */
  lemma {:induction false} HeaderEndFound(lines: seq<string>, last: string, data: string)
    requires PlainLines(lines) && NoneEmpty(lines) && Plain(last) && last != ""
    ensures Index(Ended(lines) + last + HEADER_END + data, HEADER_END) == |Ended(lines) + last|
    decreases |lines|
  {
    if lines == [] {
      var s := last + HEADER_END + data;
      assert Ended(lines) + last + HEADER_END + data == s;
      assert OccursAt(s, HEADER_END, |last|);
      forall j: nat | j < |last|
        ensures !OccursAt(s, HEADER_END, j)
      {
        assert s[j] == last[j] && s[j] != '\r';
      }
      IndexIs(s, HEADER_END, |last|);
    } else {
      var rest := Ended(lines[1..]) + last + HEADER_END + data;
      assert lines == [lines[0]] + lines[1..];
      EndedFront(lines[0], lines[1..]);
      HeaderEndFound(lines[1..], last, data);
      FirstCharPlain(lines[1..], last, HEADER_END + data);
      assert rest == Ended(lines[1..]) + last + (HEADER_END + data);
      HeaderEndAfterLine(lines[0], rest, |Ended(lines[1..]) + last|);
      assert Ended(lines) + last + HEADER_END + data == lines[0] + CRLF + rest;
    }
  }

  lemma FirstCharPlain(lines: seq<string>, last: string, tail: string)
    requires PlainLines(lines) && NoneEmpty(lines) && Plain(last) && last != ""
    ensures var s := Ended(lines) + last + tail; s != "" && s[0] != '\r'
  {
    if lines != [] {
      assert lines == [lines[0]] + lines[1..];
      EndedFront(lines[0], lines[1..]);
      assert lines[0][0] in lines[0];
    } else {
      assert last[0] in last;
    }
  }

  // ---- the Content-Length the server finds

  /** What the continuation lines at the head of these lines add to the header before them. */
  function Continued(lines: seq<string>): string {
    if lines == [] || !Continues(lines[0]) then "" else " " + Trim(lines[0]) + Continued(lines[1..])
  }

  /** The value of the first header that names Content-Length, continuation lines included. */
  function FirstNamed(headers: seq<string>): Option<string> {
    if headers == [] then None
    else if NamesLength(headers[0]) then Some(Trim(Trim(headers[0][15..]) + Continued(headers[1..])))
    else FirstNamed(headers[1..])
  }

  lemma {:induction false} ContinuationFound(lines: seq<string>, rest: string)
    requires PlainLines(lines) && NoneEmpty(lines) && !Continues(rest)
    ensures Continuation(Ended(lines) + rest) == Continued(lines)
    decreases |lines|
  {
    if lines == [] {
      assert Ended(lines) + rest == rest;
    } else {
      var line, more := lines[0], Ended(lines[1..]) + rest;
      assert lines == [line] + lines[1..];
      EndedFront(line, lines[1..]);
      var block := Ended(lines) + rest;
      assert block == line + CRLF + more && block[0] == line[0];
      BreakAfterLine(line, more);
      assert block[..|line|] == line && block[|line| + 2..] == more;
      ContinuationFound(lines[1..], rest);
    }
  }

  lemma {:induction false} ItoaDigits(n: nat)
    ensures forall i :: 0 <= i < |Itoa(n)| ==> '0' <= Itoa(n)[i] <= '9'
    ensures Itoa(n) != ""
  {
    if n >= 10 {
      ItoaDigits(n / 10);
    }
  }

  lemma TrimDigits(s: string)
    requires s != "" && forall i :: 0 <= i < |s| ==> '0' <= s[i] <= '9'
    ensures Trim(s) == s && Trim(" " + s) == s
  {
    assert (" " + s)[1..] == s;
  }

  lemma OwnLineNames(n: nat)
    ensures var line := "Content-Length: " + Itoa(n);
            Plain(line) && NamesLength(line) && !Continues(line) && Trim(line[15..]) == Itoa(n) == Trim(Itoa(n))
  {
    var line := "Content-Length: " + Itoa(n);
    ItoaDigits(n);
    TrimDigits(Itoa(n));
    assert line[..14] == "Content-Length" && LowerAll("Content-Length") == "content-length";
    assert line[15..] == " " + Itoa(n) && line[15..][1..] == Itoa(n);
  }

  /** What Header.Get does with the first line of a block. */
  lemma LengthAtLine(line: string, rest: string)
    requires Plain(line) && line != ""
    ensures LengthIn(line + CRLF + rest)
            == if NamesLength(line) then Trim(Trim(line[15..]) + Continuation(rest)) else LengthIn(rest)
  {
    var s := line + CRLF + rest;
    BreakAfterLine(line, rest);
    assert s[..|line|] == line && s[|line| + 2..] == rest;
    if NamesLength(line) {
      assert s[15..|line|] == line[15..];
    }
  }

  /** The first header line, when it names Content-Length or is passed over. */
  lemma LengthAtHeader(line: string, more: seq<string>, rest: string)
    requires Plain(line) && line != "" && PlainLines(more) && NoneEmpty(more) && !Continues(rest)
    ensures LengthIn(line + CRLF + (Ended(more) + rest))
            == if NamesLength(line) then Trim(Trim(line[15..]) + Continued(more)) else LengthIn(Ended(more) + rest)
  {
    LengthAtLine(line, Ended(more) + rest);
    ContinuationFound(more, rest);
  }

  lemma OwnLengthFound(n: nat)
    ensures LengthIn("Content-Length: " + Itoa(n) + HEADER_END) == Itoa(n)
    ensures !Continues("Content-Length: " + Itoa(n) + HEADER_END)
  {
    var own := "Content-Length: " + Itoa(n);
    OwnLineNames(n);
    LengthAtLine(own, CRLF);
    assert Continuation(CRLF) == "" && Itoa(n) + "" == Itoa(n);
    assert own + HEADER_END == own + CRLF + CRLF;
  }

  /** Among header lines followed by others: the first that names Content-Length, or what follows. */
  lemma {:induction false} LengthAmong(headers: seq<string>, rest: string)
    requires PlainLines(headers) && NoneEmpty(headers) && !Continues(rest)
    ensures LengthIn(Ended(headers) + rest) == match FirstNamed(headers) case None => LengthIn(rest) case Some(v) => v
    decreases |headers|
  {
    if headers == [] {
      assert Ended(headers) + rest == rest;
    } else {
      var line, more := headers[0], headers[1..];
      assert headers == [line] + more;
      EndedFront(line, more);
      assert Ended(headers) + rest == line + CRLF + (Ended(more) + rest);
      LengthAtHeader(line, more, rest);
      LengthAmong(more, rest);
    }
  }

  lemma LengthFound(headers: seq<string>, n: nat)
    requires PlainLines(headers) && NoneEmpty(headers)
    ensures LengthIn(Ended(headers) + ("Content-Length: " + Itoa(n) + HEADER_END))
            == match FirstNamed(headers) case None => Itoa(n) case Some(v) => v
  {
    OwnLengthFound(n);
    LengthAmong(headers, "Content-Length: " + Itoa(n) + HEADER_END);
  }

  // ---- the round trip

  /** The client's two own lines are plain, not empty and name something else. */
  lemma OwnLines(url: string, host: string, headers: seq<string>)
    requires Plain(url) && Plain(host) && PlainLines(headers)
    ensures PlainLines(PostLines(url, host, headers))
    ensures NoneEmpty(headers) ==> NoneEmpty(PostLines(url, host, headers))
    ensures !NamesLength("Host: " + host)
  {
    var first, second := "POST " + url + " HTTP/1.0", "Host: " + host;
    assert Plain(first) && Plain(second);
    assert |second| >= 15 ==> LowerAll(second[..14])[0] == 'h';
  }

  /** Content-Length as the server finds it in the block post builds. */
  lemma PostLength(url: string, host: string, headers: seq<string>, data: string)
    requires Plain(url) && Plain(host) && PlainLines(headers) && NoneEmpty(headers)
    ensures var block, k := PostHead(url, host, headers, data) + HEADER_END, |"POST " + url + " HTTP/1.0"|;
            && Index(block, CRLF) == k && k + 2 <= |block|
            && LengthIn(block[k + 2..])
               == match FirstNamed(headers) case None => Itoa(|data|) case Some(v) => v
  {
    OwnLines(url, host, headers);
    var first, second := "POST " + url + " HTTP/1.0", "Host: " + host;
    var rest := Ended([second] + headers) + ("Content-Length: " + Itoa(|data|) + HEADER_END);
    EndedFront(first, [second] + headers);
    assert PostLines(url, host, headers) == [first] + ([second] + headers);
    var block := PostHead(url, host, headers, data) + HEADER_END;
    assert block == first + CRLF + rest;
    BreakAfterLine(first, rest);
    assert block[|first| + 2..] == rest;
    LengthFound([second] + headers, |data|);
    assert ([second] + headers)[1..] == headers;
  }

  /** With no empty header line, the server cuts the text where the client joined it. */
  lemma PostSplits(url: string, host: string, headers: seq<string>, data: string)
    requires Plain(url) && Plain(host) && PlainLines(headers) && NoneEmpty(headers)
    ensures Index(PostHead(url, host, headers, data) + HEADER_END + data, HEADER_END)
            == |PostHead(url, host, headers, data)|
  {
    OwnLines(url, host, headers);
    OwnLineNames(|data|);
    var lines, own := PostLines(url, host, headers), "Content-Length: " + Itoa(|data|);
    HeaderEndFound(lines, own, data);
    assert Ended(lines) + own == PostHead(url, host, headers, data);
  }

  /** An empty header line ends the block early. */
  lemma EmptyLineSplitsEarly(url: string, host: string, headers: seq<string>, data: string)
    requires !NoneEmpty(headers)
    ensures var k := Index(PostHead(url, host, headers, data) + HEADER_END + data, HEADER_END);
            0 <= k < |PostHead(url, host, headers, data)|
  {
    var lines := PostLines(url, host, headers);
    var i :| 0 <= i < |headers| && headers[i] == "";
    EndedGrows(lines, i + 3);
    assert lines[..i + 3][..i + 2] == lines[..i + 2] && lines[..i + 2][..i + 1] == lines[..i + 1];
    var before := Ended(lines[..i + 1]) + lines[i + 1];
    assert Ended(lines[..i + 3]) == before + CRLF + "" + CRLF;
    var text := PostHead(url, host, headers, data) + HEADER_END + data;
    assert Ended(lines[..i + 3]) <= text;
    assert OccursAt(text, HEADER_END, |before|) by {
      assert text[|before|..|before| + 4] == Ended(lines[..i + 3])[|before|..|before| + 4];
    }
    IndexIs(text, HEADER_END, 0);
    IndexFromSpec(text, HEADER_END, 0);
  }

  lemma {:induction false} EndedGrows(lines: seq<string>, n: nat)
    requires n <= |lines|
    ensures Ended(lines[..n]) <= Ended(lines)
    decreases |lines|
  {
    if n < |lines| {
      assert lines[..|lines| - 1][..n] == lines[..n];
      EndedGrows(lines[..|lines| - 1], n);
    } else {
      assert lines[..n] == lines;
    }
  }

  lemma HeadThenData(head: string, data: string)
    ensures var text := head + HEADER_END + data;
            text[..|head|] == head && text[|head| + 4..] == data && |text| - |head| - 4 == |data|
  {
  }

  /** With no empty header line, what the server makes of a POST is settled by its block. */
  lemma PostParses(accepts: string -> bool, url: string, host: string, headers: seq<string>, data: string)
    requires Plain(url) && Plain(host) && PlainLines(headers) && NoneEmpty(headers)
    ensures var head := PostHead(url, host, headers, data);
            ParseHttpRequest(Parser(accepts), head + HEADER_END + data)
            == if !accepts(head + HEADER_END) then HeaderError
               else Request(head, if FirstNamed(headers) == None || FirstNamed(headers) == Some(Itoa(|data|)) then Some(data) else None)
  {
    var head := PostHead(url, host, headers, data);
    PostSplits(url, host, headers, data);
    PostLength(url, host, headers, data);
    HeadThenData(head, data);
    assert Parser(accepts)(head + HEADER_END)
           == if !accepts(head + HEADER_END) then None
              else Some(match FirstNamed(headers) case None => Itoa(|data|) case Some(v) => v);
  }

  lemma EmptyLineMissesHead(parser: string -> Option<string>, url: string, host: string, headers: seq<string>, data: string)
    requires !NoneEmpty(headers)
    ensures var head := PostHead(url, host, headers, data);
            ParseHttpRequest(parser, head + HEADER_END + data) != Request(head, Some(data))
  {
    EmptyLineSplitsEarly(url, host, headers, data);
  }

  /** The round trip, exactly: for every data, empty or itself holding header ends, the server
      recovers it as the body if and only if the library accepts the block, no header line is empty,
      and the first header naming Content-Length, if there is one, gives the length of the data. */
  lemma PostRoundTrip(accepts: string -> bool, url: string, host: string, headers: seq<string>, data: string)
    requires Plain(url) && Plain(host) && PlainLines(headers)
    ensures ParseHttpRequest(Parser(accepts), PostHead(url, host, headers, data) + HEADER_END + data)
            == Request(PostHead(url, host, headers, data), Some(data))
            <==> accepts(PostHead(url, host, headers, data) + HEADER_END) && NoneEmpty(headers)
                 && (FirstNamed(headers) == None || FirstNamed(headers) == Some(Itoa(|data|)))
  {
    if NoneEmpty(headers) {
      PostParses(accepts, url, host, headers, data);
    } else {
      EmptyLineMissesHead(Parser(accepts), url, host, headers, data);
    }
  }

  // ---- what becomes of a GET

  /** The header the server finds in the text of a GET: its lines without the last line break. */
  function GetHead(url: string, host: string, headers: seq<string>): string {
    var lines := GetLines(url, host, headers);
    Ended(lines[..|lines| - 1]) + lines[|lines| - 1]
  }

  lemma GetSplits(url: string, host: string, headers: seq<string>)
    requires PlainRequest(url, host, headers) && NoneEmpty(headers)
    ensures var (text, k) := (Ended(GetLines(url, host, headers)) + HEADER_END, |GetHead(url, host, headers)|);
            && Index(text, HEADER_END) == k && k + 4 <= |text|
            && text[..k] == GetHead(url, host, headers) && text[k + 4..] == CRLF
  {
    var lines := GetLines(url, host, headers);
    var front, last := lines[..|lines| - 1], lines[|lines| - 1];
    PlainGet(url, host, headers);
    assert lines == front + [last];
    HeaderEndFound(front, last, CRLF);
    BreakTwice(Ended(front) + last);
    assert Ended(lines) == Ended(front) + last + CRLF;
  }

  lemma BreakTwice(head: string)
    ensures head + CRLF + HEADER_END == head + HEADER_END + CRLF
    ensures var text := head + CRLF + HEADER_END; |head| + 4 <= |text| && text[..|head|] == head && text[|head| + 4..] == CRLF
  {
  }

  /** Content-Length as the server finds it in the block of a GET. */
  lemma GetLength(url: string, host: string, headers: seq<string>)
    requires PlainRequest(url, host, headers) && NoneEmpty(headers)
    ensures var block, k := GetHead(url, host, headers) + HEADER_END, |"GET " + url + " HTTP/1.0"|;
            && Index(block, CRLF) == k && k + 2 <= |block|
            && LengthIn(block[k + 2..]) == match FirstNamed(headers) case None => "" case Some(v) => v
  {
    var first, second := "GET " + url + " HTTP/1.0", "Host: " + host;
    var lines, more := GetLines(url, host, headers), [second] + headers;
    PlainGet(url, host, headers);
    assert lines == [first] + more && lines[0] == first && lines[1..] == more;
    FirstCut(lines, CRLF);
    assert lines == lines[..|lines| - 1] + [lines[|lines| - 1]];
    BlockEnds(Ended(lines[..|lines| - 1]) + lines[|lines| - 1]);
    HostNamesNothing(host, headers);
    LengthAmong(more, CRLF);
    NoHeadersLeft();
  }

  lemma BlockEnds(head: string)
    ensures head + HEADER_END == head + CRLF + CRLF
  {
  }

  lemma NoHeadersLeft()
    ensures LengthIn(CRLF) == "" && !Continues(CRLF)
  {
    IndexIs(CRLF, CRLF, 0);
  }

  lemma HostNamesNothing(host: string, headers: seq<string>)
    requires Plain(host)
    ensures FirstNamed(["Host: " + host] + headers) == FirstNamed(headers)
  {
    OwnLines("", host, []);
    assert (["Host: " + host] + headers)[1..] == headers;
  }

  /** A GET, exactly: for all url, host and non-empty header lines the server either gets the library's
      refusal, or the request with that header and no body. Only a caller that itself writes a
      Content-Length of 2 is given one: the line break too many that ends the text. */
  lemma GetRoundTrip(accepts: string -> bool, url: string, host: string, headers: seq<string>)
    requires PlainRequest(url, host, headers) && NoneEmpty(headers)
    ensures var head := GetHead(url, host, headers);
            ParseHttpRequest(Parser(accepts), Ended(GetLines(url, host, headers)) + HEADER_END)
            == if !accepts(head + HEADER_END) then HeaderError
               else Request(head, if FirstNamed(headers) == Some("2") then Some(CRLF) else None)
  {
    var head := GetHead(url, host, headers);
    GetSplits(url, host, headers);
    GetLength(url, host, headers);
    assert Parser(accepts)(head + HEADER_END)
           == if !accepts(head + HEADER_END) then None else Some(match FirstNamed(headers) case None => "" case Some(v) => v);
    assert Itoa(2) == "2";
  }
}
