/** Where an HTTP request ends: the read loop of the lab 1-2 server and the split of the lab 3 server,
    after the Content-Length rules of RFC 1945, sections 7.2.2 and 10.4. Text is a string of byte values. */
module Framing {
  import opened Packets

  const CRLF := "\r\n"
  const HEADER_END := "\r\n\r\n"

  // ---- strings.Index and strconv.Itoa

  predicate OccursAt(s: string, sep: string, k: nat) {
    k + |sep| <= |s| && s[k..k + |sep|] == sep
  }

  /** The first occurrence at or after k, or -1. */
  function IndexFrom(s: string, sep: string, k: nat): int
    decreases |s| - k
  {
    if k + |sep| > |s| then -1 else if OccursAt(s, sep, k) then k else IndexFrom(s, sep, k + 1)
  }

  function Index(s: string, sep: string): int {
    IndexFrom(s, sep, 0)
  }

  lemma {:induction false} IndexFromSpec(s: string, sep: string, k: nat)
    ensures var r := IndexFrom(s, sep, k);
            && (r == -1 <==> forall j: nat :: j >= k ==> !OccursAt(s, sep, j))
            && (r != -1 ==> r >= k && OccursAt(s, sep, r) && forall j: nat :: k <= j < r ==> !OccursAt(s, sep, j))
    decreases |s| - k
  {
    if k + |sep| <= |s| && !OccursAt(s, sep, k) {
      IndexFromSpec(s, sep, k + 1);
    }
  }

  /** strings.Index finds the first occurrence, and only it. */
  lemma IndexIs(s: string, sep: string, k: nat)
    ensures Index(s, sep) == k <==> OccursAt(s, sep, k) && forall j: nat :: j < k ==> !OccursAt(s, sep, j)
    ensures Index(s, sep) == -1 <==> forall j: nat :: !OccursAt(s, sep, j)
    ensures Index(s, sep) == -1 || 0 <= Index(s, sep) <= |s| - |sep|
  {
    IndexFromSpec(s, sep, 0);
  }

  function Itoa(n: nat): string {
    if n < 10 then [Digit(n)] else Itoa(n / 10) + [Digit(n % 10)]
  }

  function Digit(n: nat): char
    requires n < 10
  {
    '0' + n as char
  }

  function Atoi(s: string): int {
    if s == "" then 0 else 10 * Atoi(s[..|s| - 1]) + (s[|s| - 1] as int - '0' as int)
  }

  lemma {:induction false} AtoiInverse(n: nat)
    ensures Atoi(Itoa(n)) == n && Itoa(n) != ""
  {
    if n >= 10 {
      AtoiInverse(n / 10);
      assert Itoa(n)[..|Itoa(n)| - 1] == Itoa(n / 10);
    }
  }

  /** Comparing decimal texts compares numbers. */
  lemma ItoaInjective(n: nat, k: nat)
    ensures Itoa(n) == Itoa(k) <==> n == k
    ensures Itoa(n) != ""
  {
    AtoiInverse(n);
    AtoiInverse(k);
  }

  // ---- handleConn

  datatype ReadError = NoError | Eof | Failed
  datatype Read = Read(data: string, error: ReadError)

  /** What the loop decides on the text read so far: go on, give up, or serve. */
  datatype Verdict = More | Bad | Stop(header: string, body: Option<string>)

  /** What becomes of a connection over a sequence of reads. StillReading is a loop that none of them
      has ended; since every read has a deadline and a missed one fails, such a connection does not
      stay open for good. `taken` counts the reads up to the one that decided. */
  datatype Outcome = Served(header: string, body: Option<string>, taken: nat) | BadRequest(taken: nat) | Closed | StillReading

  /** The parser maps a header block to the value of Content-Length, empty if there is none, or
      rejects the block. */
  function Decide(parser: string -> Option<string>, text: string): Verdict {
    IndexIs(text, HEADER_END, 0);
    var k := Index(text, HEADER_END);
    if k == -1 then More
    else
      match parser(text[..k] + HEADER_END)
      case None => Bad
      case Some(length) =>
        if length == "" then Stop(text[..k], None)
        else if length == Itoa(|text| - k - |HEADER_END|) then Stop(text[..k], Some(text[k + |HEADER_END|..]))
        else More
  }

  /** The text of the first n reads. */
  function Text(inputs: seq<Read>, n: nat): string
    requires n <= |inputs|
  {
    if n == 0 then "" else Text(inputs, n - 1) + inputs[n - 1].data
  }

  /** What the loop decides after its n-th read, counting from 0. */
  function Judge(parser: string -> Option<string>, inputs: seq<Read>, n: nat): Verdict
    requires n < |inputs|
  {
    if inputs[n].data == "" then More else Decide(parser, Text(inputs, n + 1))
  }

  /** The loop from its n-th read on. */
  function Serve(parser: string -> Option<string>, inputs: seq<Read>, n: nat): Outcome
    requires n <= |inputs|
    decreases |inputs| - n
  {
    if n == |inputs| then StillReading
    else
      match Judge(parser, inputs, n)
      case Bad => BadRequest(n + 1)
      case Stop(header, body) => Served(header, body, n + 1)
      case More => if inputs[n].error != NoError then Closed else Serve(parser, inputs, n + 1)
  }

  /** The loop's work after a read that brought something. */
  method Examine(parser: string -> Option<string>, tmp: string) returns (verdict: Verdict)
    ensures verdict == Decide(parser, tmp)
  {
    IndexIs(tmp, HEADER_END, 0);
    var k := Index(tmp, HEADER_END);
    if k == -1 {
      return More;
    }
    var request := parser(tmp[..k] + HEADER_END);
    if request.None? {
      return Bad;
    }
    if request.value == "" {
      return Stop(tmp[..k], None);
    }
    if request.value == Itoa(|tmp| - k - |HEADER_END|) {
      return Stop(tmp[..k], Some(tmp[k + |HEADER_END|..]));
    }
    verdict := More;
  }

  /** One turn of the loop, on the text it has accumulated. */
  lemma ServeTurn(parser: string -> Option<string>, inputs: seq<Read>, n: nat)
    requires n < |inputs|
    ensures Text(inputs, n + 1) == Text(inputs, n) + inputs[n].data
    ensures Judge(parser, inputs, n)
            == if inputs[n].data == "" then More else Decide(parser, Text(inputs, n) + inputs[n].data)
    ensures Serve(parser, inputs, n)
            == match Judge(parser, inputs, n)
               case Bad => BadRequest(n + 1)
               case Stop(header, body) => Served(header, body, n + 1)
               case More => if inputs[n].error != NoError then Closed else Serve(parser, inputs, n + 1)
  {
  }

  /** The loop of handleConn over the reads its connection yields. */
  method HandleConn(parser: string -> Option<string>, inputs: seq<Read>) returns (outcome: Outcome)
    ensures outcome == Serve(parser, inputs, 0)
  {
    var tmp := "";
    var n := 0;
    while n < |inputs|
      invariant 0 <= n <= |inputs|
      invariant tmp == Text(inputs, n)
      invariant Serve(parser, inputs, 0) == Serve(parser, inputs, n)
    {
      ServeTurn(parser, inputs, n);
      var verdict := More;
      if |inputs[n].data| > 0 {
        tmp := tmp + inputs[n].data;
        verdict := Examine(parser, tmp);
      }
      assert verdict == Judge(parser, inputs, n);
      if verdict.Bad? {
        return BadRequest(n + 1);
      }
      if verdict.Stop? {
        return Served(verdict.header, verdict.body, n + 1);
      }
      if inputs[n].error != NoError {
        return Closed;
      }
      n := n + 1;
    }
    outcome := StillReading;
  }

  lemma OccursInLonger(s: string, t: string, sep: string, k: nat)
    requires s <= t && k + |sep| <= |s|
    ensures OccursAt(t, sep, k) <==> OccursAt(s, sep, k)
  {
    assert s[k..k + |sep|] == t[k..k + |sep|];
  }

  /** The first header end stays where it is as the text grows. */
  lemma HeaderEndStays(s: string, t: string)
    requires s <= t
    ensures Index(s, HEADER_END) != -1 ==> Index(t, HEADER_END) == Index(s, HEADER_END)
  {
    var k := Index(s, HEADER_END);
    IndexIs(s, HEADER_END, 0);
    if k != -1 {
      IndexIs(s, HEADER_END, k);
      forall j: nat | j <= k
        ensures OccursAt(t, HEADER_END, j) <==> OccursAt(s, HEADER_END, j)
      {
        OccursInLonger(s, t, HEADER_END, j);
      }
      IndexIs(t, HEADER_END, k);
    }
  }

  // ---- a stream and its reads

  /** The reads together bring exactly this text. Only the last of them may fail, by the end of the
      stream, the read deadline or anything else, and it may bring data all the same. */
  ghost predicate Brings(inputs: seq<Read>, text: string) {
    Text(inputs, |inputs|) == text && forall i :: 0 <= i < |inputs| - 1 ==> inputs[i].error == NoError
  }

  /** How a connection ends whose body is not served: the last read closes it if it fails. */
  function Unserved(inputs: seq<Read>): Outcome {
    if inputs != [] && inputs[|inputs| - 1].error != NoError then Closed else StillReading
  }

  /** The stream starts with this header block, whose Content-Length is n. */
  ghost predicate Declares(parser: string -> Option<string>, text: string, header: string, n: nat) {
    header + HEADER_END <= text && Index(text, HEADER_END) == |header| && parser(header + HEADER_END) == Some(Itoa(n))
  }

  lemma {:induction false} TextGrows(inputs: seq<Read>, i: nat, n: nat)
    requires i <= n <= |inputs|
    ensures Text(inputs, i) <= Text(inputs, n)
    decreases n - i
  {
    if i < n {
      TextGrows(inputs, i, n - 1);
    }
  }

  /** A prefix of the stream shows the header end exactly when it reaches past it. */
  lemma HeaderInPrefix(text: string, header: string, prefix: string)
    requires header + HEADER_END <= text && Index(text, HEADER_END) == |header| && prefix <= text
    ensures |prefix| < |header| + 4 ==> Index(prefix, HEADER_END) == -1
    ensures |prefix| >= |header| + 4 ==> Index(prefix, HEADER_END) == |header| && prefix[..|header|] == header
  {
    HeaderEndStays(prefix, text);
    IndexIs(prefix, HEADER_END, |header|);
    if |prefix| >= |header| + 4 {
      IndexIs(text, HEADER_END, |header|);
      forall j: nat | j <= |header|
        ensures OccursAt(text, HEADER_END, j) <==> OccursAt(prefix, HEADER_END, j)
      {
        OccursInLonger(prefix, text, HEADER_END, j);
      }
    }
  }

  /** At a prefix of the stream the loop stops exactly at the declared end of the body. */
  lemma DecideAtPrefix(parser: string -> Option<string>, text: string, header: string, n: nat, prefix: string)
    requires Declares(parser, text, header, n) && prefix <= text
    ensures Decide(parser, prefix) == if |prefix| == |header| + 4 + n then Stop(header, Some(prefix[|header| + 4..])) else More
  {
    HeaderInPrefix(text, header, prefix);
    ItoaInjective(n, if |prefix| >= |header| + 4 then |prefix| - |header| - 4 else 0);
  }

  // ---- a block that is refused, or declares no body

  /** The n-th read, counting from 0, is the one that completes the header end. */
  predicate Completes(inputs: seq<Read>, n: nat, end: nat) {
    n < |inputs| && |Text(inputs, n)| < end <= |Text(inputs, n + 1)|
  }

  /** Reads that decide nothing lead on to the next. */
  lemma {:induction false} LeadsTo(parser: string -> Option<string>, inputs: seq<Read>, n: nat)
    requires n <= |inputs|
    requires forall i: nat :: i < n ==> inputs[i].error == NoError && Judge(parser, inputs, i) == More
    ensures Serve(parser, inputs, 0) == Serve(parser, inputs, n)
  {
    if n > 0 {
      LeadsTo(parser, inputs, n - 1);
      ServeTurn(parser, inputs, n - 1);
    }
  }

  lemma NothingBefore(parser: string -> Option<string>, inputs: seq<Read>, text: string, header: string, n: nat)
    requires Brings(inputs, text) && header + HEADER_END <= text && Index(text, HEADER_END) == |header|
    requires Completes(inputs, n, |header| + 4)
    ensures Serve(parser, inputs, 0) == Serve(parser, inputs, n)
  {
    forall i: nat | i < n
      ensures inputs[i].error == NoError && Judge(parser, inputs, i) == More
    {
      TextGrows(inputs, i + 1, n);
      TextGrows(inputs, i + 1, |inputs|);
      HeaderInPrefix(text, header, Text(inputs, i + 1));
      ServeTurn(parser, inputs, i);
    }
    LeadsTo(parser, inputs, n);
  }

  /** However a stream is cut into reads, the read that completes its header block decides, unless a
      body is declared: a block the library rejects ends the connection unserved, and one without a
      Content-Length is served there and then, with that header and no body. */
  lemma DecidedByHeader(parser: string -> Option<string>, inputs: seq<Read>, text: string, header: string, n: nat)
    requires Brings(inputs, text) && header + HEADER_END <= text && Index(text, HEADER_END) == |header|
    requires Completes(inputs, n, |header| + 4)
    ensures parser(header + HEADER_END) == None ==> Serve(parser, inputs, 0) == BadRequest(n + 1)
    ensures parser(header + HEADER_END) == Some("") ==> Serve(parser, inputs, 0) == Served(header, None, n + 1)
  {
    NothingBefore(parser, inputs, text, header, n);
    ServeTurn(parser, inputs, n);
    TextGrows(inputs, n + 1, |inputs|);
    HeaderInPrefix(text, header, Text(inputs, n + 1));
  }

  /** Some read completes the header block of a stream that has one. */
  lemma {:induction false} SomeReadCompletes(inputs: seq<Read>, end: nat, k: nat) returns (n: nat)
    requires 0 < end && k <= |inputs| && end <= |Text(inputs, k)|
    ensures Completes(inputs, n, end)
  {
    if |Text(inputs, k - 1)| < end {
      n := k - 1;
    } else {
      n := SomeReadCompletes(inputs, end, k - 1);
    }
  }

  /** The two cases over the whole stream: no cut into reads changes the outcome. */
  lemma HeaderOnlyIndependent(parser: string -> Option<string>, inputs: seq<Read>, text: string, header: string)
    requires Brings(inputs, text) && header + HEADER_END <= text && Index(text, HEADER_END) == |header|
    ensures parser(header + HEADER_END) == None ==> Serve(parser, inputs, 0).BadRequest?
    ensures parser(header + HEADER_END) == Some("") ==>
              var outcome := Serve(parser, inputs, 0);
              outcome.Served? && outcome.header == header && outcome.body == None
  {
    var n := SomeReadCompletes(inputs, |header| + 4, |inputs|);
    DecidedByHeader(parser, inputs, text, header, n);
  }

  /** A block whose Content-Length is the decimal text of no number is never served either: the loop
      compares texts and goes on reading. */
  lemma UnreadableLengthNeverServed(parser: string -> Option<string>, inputs: seq<Read>, text: string, header: string, v: string)
    requires Brings(inputs, text) && header + HEADER_END <= text && Index(text, HEADER_END) == |header|
    requires parser(header + HEADER_END) == Some(v) && v != "" && forall n: nat :: Itoa(n) != v
    ensures Serve(parser, inputs, 0) == Unserved(inputs)
  {
    forall i: nat | i < |inputs|
      ensures Judge(parser, inputs, i) == More
    {
      ServeTurn(parser, inputs, i);
      TextGrows(inputs, i + 1, |inputs|);
      HeaderInPrefix(text, header, Text(inputs, i + 1));
    }
    AllRead(parser, inputs);
  }

  lemma AllRead(parser: string -> Option<string>, inputs: seq<Read>)
    requires forall i :: 0 <= i < |inputs| - 1 ==> inputs[i].error == NoError
    requires forall i: nat :: i < |inputs| ==> Judge(parser, inputs, i) == More
    ensures Serve(parser, inputs, 0) == Unserved(inputs)
  {
    if inputs != [] {
      LeadsTo(parser, inputs, |inputs| - 1);
      ServeTurn(parser, inputs, |inputs| - 1);
    }
  }

  /** A stream without a header end is never served; the read that fails closes the connection. */
  lemma HeaderlessNeverServed(parser: string -> Option<string>, inputs: seq<Read>, text: string)
    requires Brings(inputs, text) && Index(text, HEADER_END) == -1
    ensures Serve(parser, inputs, 0) == Unserved(inputs)
  {
    forall i: nat | i < |inputs|
      ensures Judge(parser, inputs, i) == More
    {
      TextGrows(inputs, i + 1, |inputs|);
      HeaderEndStays(Text(inputs, i + 1), text);
      IndexIs(Text(inputs, i + 1), HEADER_END, 0);
    }
    AllRead(parser, inputs);
  }

  // ---- exactly when a declared body is served

  /** The declared end of the body falls on the boundary of a read, the n-th or a later one. */
  ghost predicate EndsOnRead(inputs: seq<Read>, from: nat, end: nat) {
    exists k :: from < k <= |inputs| && |Text(inputs, k)| == end
  }

  /** The connection served this header and the n bytes after it, on the read that ended them. */
  ghost predicate ServesBody(outcome: Outcome, inputs: seq<Read>, text: string, header: string, n: nat) {
    && outcome.Served? && outcome.header == header
    && |header| + 4 + n <= |text| && outcome.body == Some(text[|header| + 4..|header| + 4 + n])
    && outcome.taken <= |inputs| && |Text(inputs, outcome.taken)| == |header| + 4 + n
  }

  /** The read that ends the declared body makes the loop stop. */
  lemma StopsHere(parser: string -> Option<string>, inputs: seq<Read>, text: string, header: string, n: nat, i: nat)
    requires Brings(inputs, text) && Declares(parser, text, header, n)
    requires i < |inputs| && |Text(inputs, i)| < |Text(inputs, i + 1)| == |header| + 4 + n
    ensures |header| + 4 + n <= |text|
    ensures Serve(parser, inputs, i) == Served(header, Some(text[|header| + 4..|header| + 4 + n]), i + 1)
  {
    TextGrows(inputs, i + 1, |inputs|);
    var prefix := Text(inputs, i + 1);
    DecideAtPrefix(parser, text, header, n, prefix);
    assert prefix[|header| + 4..] == text[|header| + 4..|header| + 4 + n];
  }

  /** Any other read decides nothing. */
  lemma DecidesNothing(parser: string -> Option<string>, inputs: seq<Read>, text: string, header: string, n: nat, i: nat)
    requires Text(inputs, |inputs|) == text && Declares(parser, text, header, n)
    requires i < |inputs| && |Text(inputs, i + 1)| != |header| + 4 + n
    ensures Judge(parser, inputs, i) == More
  {
    TextGrows(inputs, i + 1, |inputs|);
    DecideAtPrefix(parser, text, header, n, Text(inputs, i + 1));
  }

  /** The loop goes on after it, unless it was the last and failed. */
  lemma GoesOn(parser: string -> Option<string>, inputs: seq<Read>, text: string, header: string, n: nat, i: nat)
    requires Brings(inputs, text) && Declares(parser, text, header, n)
    requires i < |inputs| && |Text(inputs, i + 1)| != |header| + 4 + n
    ensures Serve(parser, inputs, i) == if i == |inputs| - 1 then Unserved(inputs) else Serve(parser, inputs, i + 1)
  {
    DecidesNothing(parser, inputs, text, header, n, i);
    assert i < |inputs| - 1 ==> inputs[i].error == NoError;
  }

  lemma EndsLater(inputs: seq<Read>, i: nat, end: nat)
    requires i < |inputs|
    ensures EndsOnRead(inputs, i, end) <==> |Text(inputs, i + 1)| == end || EndsOnRead(inputs, i + 1, end)
  {
  }

  /** This outcome of the loop from read i on, with the declared end still ahead, is the right one. */
  ghost predicate Exact(outcome: Outcome, inputs: seq<Read>, text: string, header: string, n: nat, i: nat) {
    && (outcome.Served? <==> EndsOnRead(inputs, i, |header| + 4 + n))
    && (outcome.Served? ==> ServesBody(outcome, inputs, text, header, n))
    && (!outcome.Served? ==> outcome == if i < |inputs| then Unserved(inputs) else StillReading)
  }

  lemma {:induction false} ServesFrom(parser: string -> Option<string>, inputs: seq<Read>, text: string, header: string,
                                      n: nat, i: nat)
    requires Brings(inputs, text) && Declares(parser, text, header, n)
    requires i <= |inputs| && |Text(inputs, i)| != |header| + 4 + n
    ensures Exact(Serve(parser, inputs, i), inputs, text, header, n, i)
    decreases |inputs| - i
  {
    var outcome := Serve(parser, inputs, i);
    if i == |inputs| {
      assert outcome == StillReading;
    } else if |Text(inputs, i + 1)| == |header| + 4 + n {
      EndsHere(parser, inputs, text, header, n, i);
    } else {
      ServesFrom(parser, inputs, text, header, n, i + 1);
      GoesOn(parser, inputs, text, header, n, i);
      ExactLater(Serve(parser, inputs, i + 1), outcome, inputs, text, header, n, i);
    }
  }

  lemma EndsHere(parser: string -> Option<string>, inputs: seq<Read>, text: string, header: string, n: nat, i: nat)
    requires Brings(inputs, text) && Declares(parser, text, header, n)
    requires i < |inputs| && |Text(inputs, i)| != |Text(inputs, i + 1)| == |header| + 4 + n
    ensures Exact(Serve(parser, inputs, i), inputs, text, header, n, i)
  {
    TextGrows(inputs, i, i + 1);
    StopsHere(parser, inputs, text, header, n, i);
    assert EndsOnRead(inputs, i, |header| + 4 + n);
  }

  lemma ExactLater(later: Outcome, outcome: Outcome, inputs: seq<Read>, text: string, header: string, n: nat, i: nat)
    requires i < |inputs| && |Text(inputs, i + 1)| != |header| + 4 + n
    requires Exact(later, inputs, text, header, n, i + 1)
    requires outcome == if i == |inputs| - 1 then Unserved(inputs) else later
    ensures Exact(outcome, inputs, text, header, n, i)
  {
    EndsLater(inputs, i, |header| + 4 + n);
  }

  /** However a stream is cut into reads, its body is served if and only if the declared end falls on
      the end of a read. Otherwise nothing is served: the first read that fails, at the latest the one
      that misses its deadline, closes the connection. */
  lemma ServedExactlyOnBoundary(parser: string -> Option<string>, inputs: seq<Read>, text: string, header: string, n: nat)
    requires Brings(inputs, text) && Declares(parser, text, header, n)
    ensures Serve(parser, inputs, 0).Served? <==> EndsOnRead(inputs, 0, |header| + 4 + n)
    ensures Serve(parser, inputs, 0).Served? ==> ServesBody(Serve(parser, inputs, 0), inputs, text, header, n)
    ensures !Serve(parser, inputs, 0).Served? ==> Serve(parser, inputs, 0) == Unserved(inputs)
  {
    ServesFrom(parser, inputs, text, header, n, 0);
  }

  lemma TextOfTwo(text: string, last: Read)
    requires last.data == ""
    ensures Text([Read(text, NoError), last], 1) == text && Text([Read(text, NoError), last], 2) == text
  {
    assert Text([Read(text, NoError), last], 0) == "";
  }

  /** A whole request whose last read also brings the beginning of the next message is never served:
      the client gets no answer before its deadline closes the connection. */
  lemma PipelinedNeverServed(parser: string -> Option<string>, text: string, header: string, n: nat, last: Read)
    requires Declares(parser, text, header, n) && |text| > |header| + 4 + n
    requires last.data == "" && last.error != NoError
    ensures Serve(parser, [Read(text, NoError), last], 0) == Closed
  {
    var inputs := [Read(text, NoError), last];
    TextOfTwo(text, last);
    assert !EndsOnRead(inputs, 0, |header| + 4 + n);
    ServedExactlyOnBoundary(parser, inputs, text, header, n);
  }

  /** The stream ends where its header says. */
  lemma WholeStreamServed(parser: string -> Option<string>, inputs: seq<Read>, text: string, header: string, n: nat)
    requires Brings(inputs, text) && Declares(parser, text, header, n) && |text| == |header| + 4 + n
    ensures ServesBody(Serve(parser, inputs, 0), inputs, text, header, n)
    ensures Text(inputs, Serve(parser, inputs, 0).taken) == text
  {
    assert |Text(inputs, |inputs|)| == |text|;
    assert EndsOnRead(inputs, 0, |text|);
    ServesFrom(parser, inputs, text, header, n, 0);
    TextGrows(inputs, Serve(parser, inputs, 0).taken, |inputs|);
  }

  /** Fragmentation independence: for a stream that is exactly a header block and the body it
      declares, every cut into reads yields that header and that body, and the loop stops with the
      read that brings the last byte. */
  lemma FragmentationIndependent(parser: string -> Option<string>, inputs: seq<Read>, text: string, header: string, body: string)
    requires text == header + HEADER_END + body && Index(text, HEADER_END) == |header|
    requires parser(header + HEADER_END) == Some(Itoa(|body|)) && Brings(inputs, text)
    ensures var outcome := Serve(parser, inputs, 0);
            && outcome.Served? && outcome.header == header && outcome.body == Some(body)
            && 0 < outcome.taken <= |inputs| && Text(inputs, outcome.taken) == text
            && inputs[outcome.taken - 1].data != ""
  {
    JoinedParts(header, body, text);
    var outcome := Serve(parser, inputs, 0);
    assert ServesBody(outcome, inputs, text, header, |body|) && Text(inputs, outcome.taken) == text by {
      WholeStreamServed(parser, inputs, text, header, |body|);
    }
    LastReadBringsSomething(parser, inputs, 0);
  }

  lemma JoinedParts(header: string, body: string, text: string)
    requires text == header + HEADER_END + body
    ensures header + HEADER_END <= text && |text| == |header| + 4 + |body|
    ensures text[|header| + 4..|header| + 4 + |body|] == body
  {
  }

  lemma {:induction false} LastReadBringsSomething(parser: string -> Option<string>, inputs: seq<Read>, n: nat)
    requires n <= |inputs|
    ensures var outcome := Serve(parser, inputs, n);
            outcome.Served? ==> n < outcome.taken <= |inputs| && inputs[outcome.taken - 1].data != ""
    decreases |inputs| - n
  {
    if n < |inputs| {
      LastReadBringsSomething(parser, inputs, n + 1);
    }
  }
}
