/** The Ollama HTTP client (src/lib/services/ollama.ts): the payload of the
    non-streaming chat and its one retry without tools, and the line splitting
    of the streaming chat. The HTTP exchange is the function `send` from the
    payload to the reply; JSON parsing of one stream line is the function
    `parse`, which gives None for a malformed line and otherwise the line's
    `message.content` (None when absent). The streamed bytes arrive already
    decoded as the text chunks. */
module OllamaService {
  import opened Common
  import opened Types

  /** A tool offered to the model (its JSON parameter schema is not modelled). */
  datatype Tool = Tool(name: string, description: string)

  /** OllamaChatOptions; an absent tool list is the empty one. */
  datatype ChatOptions = ChatOptions(model: string, messages: seq<OllamaMessage>, stream: bool, tools: seq<Tool>)

  /** The JSON body posted to /api/chat. */
  datatype Payload = Payload(model: string, messages: seq<OllamaMessage>, stream: bool, tools: Option<seq<Tool>>)

  /** What the server answers: `res.ok`, `res.status`, the error text, and the reply's `message`. */
  datatype Reply = Reply(ok: bool, status: int, text: string, message: OllamaMessage)

  /** The payloads posted, in order, and what `chat` returns or throws. */
  datatype ChatOutcome = ChatOutcome(sent: seq<Payload>, result: Result<OllamaMessage, string>)

  const NoToolSupport: string := "does not support tools"

  // ---------------------------------------------------------------------
  // Non-streaming chat
  // ---------------------------------------------------------------------

  /** The payload of `chat`: never streaming, tools only when there are some. */
  function PayloadOf(options: ChatOptions): (p: Payload)
    ensures p.model == options.model && p.messages == options.messages && !p.stream
    ensures p.tools.Some? <==> |options.tools| > 0
    ensures p.tools.Some? ==> p.tools.value == options.tools
  {
    Payload(options.model, options.messages, false, if |options.tools| > 0 then Some(options.tools) else None)
  }

  function ErrorText(status: int, text: string): string {
    "Ollama error: " + IntToString(status) + " " + text
  }

  /** chat: post the payload; on a refusal of tools, post once more without them. */
  function Chat(options: ChatOptions, send: Payload -> Reply): ChatOutcome
    decreases |options.tools|
  {
    var payload := PayloadOf(options);
    var res := send(payload);
    if !res.ok then
      if |options.tools| > 0 && Includes(res.text, NoToolSupport) then
        var retry := Chat(options.(tools := []), send);
        ChatOutcome([payload] + retry.sent, retry.result)
      else ChatOutcome([payload], Failure(ErrorText(res.status, res.text)))
    else ChatOutcome([payload], Success(res.message))
  }

  /** Every payload is non-streaming for the caller's model and messages; a
      second one is sent exactly when the first offered tools and was refused
      with "does not support tools", and offers none, so there is at most one
      retry; the outcome is the last reply's message or its error text. */
  lemma ChatSpec(options: ChatOptions, send: Payload -> Reply)
    ensures var r := Chat(options, send);
            var first := send(PayloadOf(options));
            && 1 <= |r.sent| <= 2
            && r.sent[0] == PayloadOf(options)
            && (forall k :: 0 <= k < |r.sent| ==>
                  !r.sent[k].stream && r.sent[k].model == options.model && r.sent[k].messages == options.messages)
            && (|r.sent| == 2 <==> |options.tools| > 0 && !first.ok && Includes(first.text, NoToolSupport))
            && (|r.sent| == 2 ==> r.sent[1].tools.None?)
            && (var last := send(r.sent[|r.sent| - 1]);
                && (last.ok ==> r.result == Success(last.message))
                && (!last.ok ==> r.result == Failure(ErrorText(last.status, last.text))))
  {
    var first := send(PayloadOf(options));
    if !first.ok && |options.tools| > 0 && Includes(first.text, NoToolSupport) {
      var retry := Chat(options.(tools := []), send);
      assert retry.sent == [PayloadOf(options.(tools := []))];
    }
  }

  // ---------------------------------------------------------------------
  // Line splitting
  // ---------------------------------------------------------------------

  /** Reading one more character into a split: a newline opens a new, empty piece. */
  function Push(lines: seq<string>, c: char): (r: seq<string>)
    requires |lines| >= 1
    ensures |r| >= 1
  {
    if c == '\n' then lines + [""] else lines[..|lines| - 1] + [lines[|lines| - 1] + [c]]
  }

  /** `s.split("\n")`: the first n characters of s read one at a time into pieces. */
  function SplitPrefix(s: string, n: nat): (r: seq<string>)
    requires n <= |s|
    ensures |r| >= 1
  {
    if n == 0 then [""] else Push(SplitPrefix(s, n - 1), s[n - 1])
  }

  function Split(s: string): (r: seq<string>)
    ensures |r| >= 1
  {
    SplitPrefix(s, |s|)
  }

  /** The split of a prefix depends on that prefix only. */
  lemma {:induction false} SplitPrefixAgree(s: string, t: string, n: nat)
    requires n <= |s| && n <= |t|
    requires forall i :: 0 <= i < n ==> s[i] == t[i]
    ensures SplitPrefix(s, n) == SplitPrefix(t, n)
  {
    if n > 0 {
      SplitPrefixAgree(s, t, n - 1);
    }
  }

  /** One more character is one more push. */
  lemma SplitPush(s: string, c: char)
    ensures Split(s + [c]) == Push(Split(s), c)
  {
    SplitPrefixAgree(s + [c], s, |s|);
  }

  lemma SplitUnfold(s: string)
    requires s != []
    ensures Split(s) == Push(Split(s[..|s| - 1]), s[|s| - 1])
  {
    SplitPush(s[..|s| - 1], s[|s| - 1]);
    assert s[..|s| - 1] + [s[|s| - 1]] == s;
  }

  /** The lines a newline terminates. */
  function Complete(s: string): seq<string> {
    var lines := Split(s);
    lines[..|lines| - 1]
  }

  /** The text after the last newline: `lines.pop() || ""`. */
  function Rest(s: string): string {
    var lines := Split(s);
    lines[|lines| - 1]
  }

  /** No piece of a split holds the separator. */
  lemma {:induction false} SplitNoNewline(s: string)
    ensures forall k :: 0 <= k < |Split(s)| ==> '\n' !in Split(s)[k]
    decreases |s|
  {
    if s != [] {
      SplitUnfold(s);
      var init := Split(s[..|s| - 1]);
      SplitNoNewline(s[..|s| - 1]);
      var c := s[|s| - 1];
      if c != '\n' {
        assert '\n' !in init[|init| - 1] + [c];
        assert Split(s) == init[..|init| - 1] + [init[|init| - 1] + [c]];
      }
    }
  }

  /** A string without a newline splits into itself. */
  lemma SplitSingle(s: string)
    requires '\n' !in s
    ensures Split(s) == [s]
  {
    forall i | 0 <= i < |s| ensures s[i] != '\n' {
      assert s[i] in s;
    }
    PrefixSingle(s, |s|);
    assert s[..|s|] == s;
  }

  lemma {:induction false} PrefixSingle(s: string, n: nat)
    requires n <= |s|
    requires forall i :: 0 <= i < n ==> s[i] != '\n'
    ensures SplitPrefix(s, n) == [s[..n]]
  {
    if n > 0 {
      PrefixSingle(s, n - 1);
      assert s[..n - 1] + [s[n - 1]] == s[..n];
    }
  }

  lemma {:induction false} JoinSnoc(a: seq<string>, x: string, sep: string)
    requires a != []
    ensures Join(a + [x], sep) == Join(a, sep) + sep + x
    decreases |a|
  {
    if |a| > 1 {
      assert (a + [x])[1..] == a[1..] + [x];
      JoinSnoc(a[1..], x, sep);
    } else {
      assert (a + [x])[1..] == [x];
    }
  }

  /** Joining the pieces of a split with the separator gives the string back. */
  lemma {:induction false} SplitJoin(s: string)
    ensures Join(Split(s), "\n") == s
    decreases |s|
  {
    if s != [] {
      var front := s[..|s| - 1];
      var c := s[|s| - 1];
      var init := Split(front);
      SplitUnfold(s);
      SplitJoin(front);
      assert s == front + [c];
      var front2 := init[..|init| - 1];
      var last := init[|init| - 1];
      assert init == front2 + [last];
      if c == '\n' {
        JoinSnoc(init, "", "\n");
      } else if front2 != [] {
        JoinSnoc(front2, last, "\n");
        JoinSnoc(front2, last + [c], "\n");
      }
    }
  }

  /** A push works on the last piece only. */
  lemma PushAppend(x: seq<string>, y: seq<string>, c: char)
    requires |y| >= 1
    ensures Push(x + y, c) == x + Push(y, c)
  {
    if c != '\n' {
      assert (x + y)[..|x + y| - 1] == x + y[..|y| - 1];
    }
  }

  /** Splitting grown text: the complete lines of the old text stay, and the
      unterminated rest is split again together with what was added. */
  lemma SplitAppend(a: string, b: string)
    ensures Split(a + b) == Complete(a) + Split(Rest(a) + b)
  {
    SplitAppendNothing(a);
    SplitExtend(a, Rest(a), Complete(a), b);
  }

  lemma SplitAppendNothing(a: string)
    ensures Split(a) == Complete(a) + Split(Rest(a))
  {
    SplitNoNewline(a);
    SplitSingle(Rest(a));
    var all := Split(a);
    assert all == all[..|all| - 1] + [all[|all| - 1]];
  }

  /** Two texts whose splits differ by a prefix of pieces keep differing by it
      as the same characters are added to both. */
  lemma {:induction false} SplitExtend(x: string, y: string, done: seq<string>, b: string)
    requires Split(x) == done + Split(y)
    ensures Split(x + b) == done + Split(y + b)
    decreases |b|
  {
    if b == [] {
      assert x + b == x && y + b == y;
    } else {
      AppendStep(done, x, y, b[0]);
      SplitExtend(x + [b[0]], y + [b[0]], done, b[1..]);
      assert x + b == (x + [b[0]]) + b[1..];
      assert y + b == (y + [b[0]]) + b[1..];
    }
  }

  lemma AppendStep(done: seq<string>, x: string, y: string, c: char)
    requires Split(x) == done + Split(y)
    ensures Split(x + [c]) == done + Split(y + [c])
  {
    SplitPush(x, c);
    SplitPush(y, c);
    PushAppend(done, Split(y), c);
  }

  /** After a chunk, the complete lines joined with newlines, a newline, and the
      new buffer give the old buffer with the chunk; the new buffer holds no newline. */
  lemma ChunkSplit(buffer: string, chunk: string)
    ensures var lines := Split(buffer + chunk);
            var complete := lines[..|lines| - 1];
            var rest := lines[|lines| - 1];
            && '\n' !in rest
            && (complete != [] ==> Join(complete, "\n") + "\n" + rest == buffer + chunk)
            && (complete == [] ==> rest == buffer + chunk)
  {
    var lines := Split(buffer + chunk);
    SplitNoNewline(buffer + chunk);
    SplitJoin(buffer + chunk);
    var complete := lines[..|lines| - 1];
    assert lines == complete + [lines[|lines| - 1]];
    if complete != [] {
      JoinSnoc(complete, lines[|lines| - 1], "\n");
    }
  }

  // ---------------------------------------------------------------------
  // Streaming chat
  // ---------------------------------------------------------------------

  /** What one complete line yields: nothing if blank or malformed or without content. */
  function LineYield(line: string, parse: string -> Option<Option<string>>): seq<string> {
    if IsBlank(line) then []
    else match parse(line)
      case None => []
      case Some(content) => if content.Some? && content.value != "" then [content.value] else []
  }

  function Yields(lines: seq<string>, parse: string -> Option<Option<string>>): seq<string>
    decreases |lines|
  {
    if lines == [] then [] else Yields(lines[..|lines| - 1], parse) + LineYield(lines[|lines| - 1], parse)
  }

  function Concat(chunks: seq<string>): string
    decreases |chunks|
  {
    if chunks == [] then "" else Concat(chunks[..|chunks| - 1]) + chunks[|chunks| - 1]
  }

  /** Everything chatStream yields for the stream `chunks`. */
  function StreamYields(chunks: seq<string>, parse: string -> Option<Option<string>>): seq<string> {
    Yields(Complete(Concat(chunks)), parse)
  }

  lemma {:induction false} YieldsAppend(a: seq<string>, b: seq<string>, parse: string -> Option<Option<string>>)
    ensures Yields(a + b, parse) == Yields(a, parse) + Yields(b, parse)
    decreases |b|
  {
    if b == [] {
      assert a + b == a;
    } else {
      var front := b[..|b| - 1];
      var last := b[|b| - 1];
      assert a + b == (a + front) + [last];
      YieldsSnoc(a + front, last, parse);
      YieldsAppend(a, front, parse);
    }
  }

  lemma YieldsSnoc(lines: seq<string>, line: string, parse: string -> Option<Option<string>>)
    ensures Yields(lines + [line], parse) == Yields(lines, parse) + LineYield(line, parse)
  {
    assert (lines + [line])[..|lines|] == lines;
  }

  /** Lines are handled in input order, and each yielded text is the non-empty
      content of a non-blank line that parsed. */
  lemma {:induction false} YieldsSpec(lines: seq<string>, parse: string -> Option<Option<string>>)
    ensures forall y :: y in Yields(lines, parse) ==>
              y != "" && exists k :: 0 <= k < |lines| && !IsBlank(lines[k]) && parse(lines[k]) == Some(Some(y))
    ensures (forall k :: 0 <= k < |lines| ==> IsBlank(lines[k]) || parse(lines[k]).None?) ==> Yields(lines, parse) == []
    decreases |lines|
  {
    if lines != [] {
      var front := lines[..|lines| - 1];
      YieldsSpec(front, parse);
      forall y | y in Yields(lines, parse)
        ensures y != "" && exists k :: 0 <= k < |lines| && !IsBlank(lines[k]) && parse(lines[k]) == Some(Some(y))
      {
        if y in Yields(front, parse) {
          var k :| 0 <= k < |front| && !IsBlank(front[k]) && parse(front[k]) == Some(Some(y));
          assert lines[k] == front[k];
        } else {
          assert y in LineYield(lines[|lines| - 1], parse);
        }
      }
      if forall k :: 0 <= k < |lines| ==> IsBlank(lines[k]) || parse(lines[k]).None? {
        assert forall k :: 0 <= k < |front| ==> front[k] == lines[k];
      }
    }
  }

  /** A chunk without a newline (such as a trailing fragment at the end of the
      stream) adds nothing to what is yielded. */
  lemma TrailingFragmentNotYielded(chunks: seq<string>, fragment: string, parse: string -> Option<Option<string>>)
    requires '\n' !in fragment
    ensures StreamYields(chunks + [fragment], parse) == StreamYields(chunks, parse)
  {
    var all := chunks + [fragment];
    assert all[..|all| - 1] == chunks;
    var text := Concat(chunks);
    SplitAppend(text, fragment);
    SplitNoNewline(text);
    var rest := Rest(text);
    assert '\n' !in rest + fragment;
    SplitSingle(rest + fragment);
    assert Split(text + fragment) == Complete(text) + [rest + fragment];
    assert Complete(text + fragment) == Complete(text);
  }

  /** The inner loop of chatStream over the complete lines of one chunk. */
  method HandleLines(yielded: seq<string>, lines: seq<string>, parse: string -> Option<Option<string>>)
    returns (out: seq<string>)
    ensures out == yielded + Yields(lines, parse)
  {
    out := yielded;
    for j := 0 to |lines|
      invariant out == yielded + Yields(lines[..j], parse)
    {
      assert lines[..j + 1][..j] == lines[..j];
      var line := lines[j];
      if IsBlank(line) {
        continue;
      }
      var parsed := parse(line);
      if parsed.Some? && parsed.value.Some? && parsed.value.value != "" {
        out := out + [parsed.value.value];
      }
    }
    assert lines[..|lines|] == lines;
  }

  /** One read of chatStream: the split of the text so far, with the buffer
      replaced by the split of the buffer and the new chunk. */
  lemma BufferStep(chunks: seq<string>, i: nat, processed: seq<string>, buffer: string)
    requires i < |chunks|
    requires Split(Concat(chunks[..i])) == processed + [buffer]
    ensures var lines := Split(buffer + chunks[i]);
            Split(Concat(chunks[..i + 1])) == (processed + lines[..|lines| - 1]) + [lines[|lines| - 1]]
  {
    assert chunks[..i + 1][..i] == chunks[..i];
    assert Concat(chunks[..i + 1]) == Concat(chunks[..i]) + chunks[i];
    SplitGrow(Concat(chunks[..i]), chunks[i], processed, buffer);
    var lines := Split(buffer + chunks[i]);
    assert lines == lines[..|lines| - 1] + [lines[|lines| - 1]];
  }

  lemma SplitGrow(text: string, chunk: string, processed: seq<string>, buffer: string)
    requires Split(text) == processed + [buffer]
    ensures Split(text + chunk) == processed + Split(buffer + chunk)
  {
    SplitAppend(text, chunk);
    assert Complete(text) == processed && Rest(text) == buffer;
  }

  /** How the streaming request ends: an HTTP failure, no body to read, or the body's text chunks. */
  datatype StreamReply = StreamReply(ok: bool, status: int, body: Option<seq<string>>)

  /** chatStream: post a streaming request, then split the stream into lines as
      it arrives, keeping the unterminated rest in `buffer`, and collect what
      the complete lines yield. */
  method ChatStream(options: ChatOptions, reply: StreamReply, parse: string -> Option<Option<string>>)
    returns (sent: Payload, r: Result<seq<string>, string>)
    ensures sent == Payload(options.model, options.messages, true, None)
    ensures !reply.ok ==> r == Failure("Ollama error: " + IntToString(reply.status))
    ensures reply.ok && reply.body.None? ==> r == Success([])
    ensures reply.ok && reply.body.Some? ==> r == Success(StreamYields(reply.body.value, parse))
  {
    sent := Payload(options.model, options.messages, true, None);
    if !reply.ok {
      return sent, Failure("Ollama error: " + IntToString(reply.status));
    }
    if reply.body.None? {
      return sent, Success([]);
    }
    var chunks := reply.body.value;
    var buffer := "";
    var yielded: seq<string> := [];
    ghost var processed: seq<string> := [];
    var i := 0;
    assert Split(Concat(chunks[..0])) == [""];
    while i < |chunks|
      invariant 0 <= i <= |chunks|
      invariant Split(Concat(chunks[..i])) == processed + [buffer]
      invariant yielded == Yields(processed, parse)
    {
      BufferStep(chunks, i, processed, buffer);
      buffer := buffer + chunks[i];
      var lines := Split(buffer);
      buffer := lines[|lines| - 1];
      var complete := lines[..|lines| - 1];
      yielded := HandleLines(yielded, complete, parse);
      YieldsAppend(processed, complete, parse);
      processed := processed + complete;
      i := i + 1;
    }
    assert chunks[..|chunks|] == chunks;
    r := Success(yielded);
  }
}
