/** foo.py: a chat client for an Ollama server that answers each placeholder
    in a conversation with the model's reply to everything before it, then
    sends the completed conversation; and the helper that cuts a range of
    lines out of a source file. */
module OllamaChat {
  import opened Options
  import opened Text
  import opened OllamaApi

  /** The server used when `OLLAMA_HOST` is not set (foo.py:28-31). */
  const DefaultHost := "http://localhost:11434"

  /** The role given to a substituted answer (foo.py:69). */
  const AssistantRole := "assistant"

  /** The text `print_streamed_response` returns for a reply: the selected
      content of every record before the first stopping record. */
  function StreamedText(lines: seq<Line>, sel: Record -> Option<string>): Option<string> {
    Collect(lines[..FirstStop(lines, ErrorOrDone)], sel)
  }

  /** The text is fixed by the stopping record: neither its own content nor
      anything streamed after it reaches the text. */
  lemma StopRecordDropped(lines: seq<Line>, rest: seq<Line>, sel: Record -> Option<string>, k: nat)
    requires k < |lines| && lines[k].Json? && ErrorOrDone(lines[k].rec)
    requires forall j :: 0 <= j < k ==> lines[j].Blank? || !ErrorOrDone(lines[j].rec)
    ensures StreamedText(lines + rest, sel) == StreamedText(lines, sel)
    ensures StreamedText(lines, sel) == Collect(lines[..k], sel)
  {
    var more := lines + rest;
    assert forall j :: 0 <= j <= k ==> more[j] == lines[j];
    FirstStopUnique(lines, ErrorOrDone, k);
    FirstStopUnique(more, ErrorOrDone, k);
    assert more[..k] == lines[..k];
  }

  // ---------------------------------------------------------------------------
  // Placeholder substitution (foo.py:65-71), as a function of the answers
  // ---------------------------------------------------------------------------

  /** The requests sent so far and the completed conversation, `None` when an
      answer raised before the conversation was complete. */
  datatype Run = Run(requests: seq<seq<Message>>, final: Option<seq<Message>>)

  function Prepend(sent: seq<seq<Message>>, r: Run): Run {
    Run(sent + r.requests, r.final)
  }

  /** Walks the conversation from the left: `done` is what has been settled,
      `rest` what has not. A placeholder is replaced by the assistant's answer
      to everything settled before it, and that prefix is a request. */
  function Resolve(done: seq<Message>, rest: seq<Message>, ans: seq<Message> -> Option<string>): Run
    decreases |rest|
  {
    if rest == [] then Run([], Some(done))
    else if rest[0] == Placeholder then
      var a := ans(done);
      if a.None? then Run([done], None)
      else Prepend([done], Resolve(done + [Msg(AssistantRole, a.value)], rest[1..], ans))
    else Resolve(done + [rest[0]], rest[1..], ans)
  }

  /** Messages that are not placeholders are settled as they are. */
  lemma {:induction false} ResolveSkip(done: seq<Message>, rest: seq<Message>, m: nat,
                                       ans: seq<Message> -> Option<string>)
    requires m <= |rest| && NoPlaceholder(rest[..m])
    ensures Resolve(done, rest, ans) == Resolve(done + rest[..m], rest[m..], ans)
    decreases m
  {
    if m == 0 {
      assert done + rest[..0] == done;
      assert rest[0..] == rest;
    } else {
      assert rest[0] == rest[..m][0];
      assert rest[1..][..m - 1] == rest[1..m];
      ResolveSkip(done + [rest[0]], rest[1..], m - 1, ans);
      assert done + [rest[0]] + rest[1..][..m - 1] == done + rest[..m];
      assert rest[1..][m - 1..] == rest[m..];
    }
  }

  /** Settling a stretch without placeholders of a partly settled list. */
  lemma SettleUpTo(cur: seq<Message>, input: seq<Message>, j: nat, n: nat, ans: seq<Message> -> Option<string>)
    requires j <= n <= |cur| == |input|
    requires NoPlaceholder(cur[..n]) && cur[j..] == input[j..]
    ensures Resolve(cur[..j], input[j..], ans) == Resolve(cur[..n], input[n..], ans)
    ensures n < |cur| && cur[n] == Placeholder ==> input[n] == Placeholder
  {
    assert input[j..][..n - j] == cur[j..n] == cur[..n][j..];
    ResolveSkip(cur[..j], input[j..], n - j, ans);
    assert cur[..j] + cur[j..n] == cur[..n];
    assert input[j..][n - j..] == input[n..];
    if n < |cur| {
      assert cur[j..][n - j] == input[j..][n - j];
    }
  }

  /** The first placeholder lies beyond a stretch known to have none. */
  lemma PlaceholderAfter(cur: seq<Message>, j: nat)
    requires j <= |cur| && NoPlaceholder(cur[..j]) && !NoPlaceholder(cur)
    ensures j <= IndexOfPlaceholder(cur)
  {
  }

  /** One turn of the substitution loop: the first placeholder, at `n`, is
      answered or raises, and the rest of the list is still to be settled. */
  lemma AnswerAt(cur: seq<Message>, input: seq<Message>, n: nat, ans: seq<Message> -> Option<string>)
    requires n < |cur| == |input| && input[n] == Placeholder
    requires NoPlaceholder(cur[..n]) && cur[n..] == input[n..]
    ensures ans(cur[..n]).None? ==> Resolve(cur[..n], input[n..], ans) == Run([cur[..n]], None)
    ensures ans(cur[..n]).Some? ==>
      var next := cur[n := Msg(AssistantRole, ans(cur[..n]).value)];
      && NoPlaceholder(next[..n + 1])
      && next[n + 1..] == input[n + 1..]
      && Resolve(cur[..n], input[n..], ans) == Prepend([cur[..n]], Resolve(next[..n + 1], input[n + 1..], ans))
  {
    assert input[n..][0] == Placeholder;
    assert input[n..][1..] == input[n + 1..];
    if ans(cur[..n]).Some? {
      var next := cur[n := Msg(AssistantRole, ans(cur[..n]).value)];
      assert next[..n + 1] == cur[..n] + [Msg(AssistantRole, ans(cur[..n]).value)];
      assert next[n + 1..] == cur[n + 1..] == cur[n..][1..];
    }
  }

  /** No request carries a placeholder. */
  lemma {:induction false} RequestsHaveNoPlaceholder(done: seq<Message>, rest: seq<Message>,
                                                     ans: seq<Message> -> Option<string>)
    requires NoPlaceholder(done)
    ensures forall q <- Resolve(done, rest, ans).requests :: NoPlaceholder(q)
    decreases |rest|
  {
    if rest != [] {
      if rest[0] == Placeholder {
        var a := ans(done);
        if a.Some? {
          RequestsHaveNoPlaceholder(done + [Msg(AssistantRole, a.value)], rest[1..], ans);
        }
      } else {
        RequestsHaveNoPlaceholder(done + [rest[0]], rest[1..], ans);
      }
    }
  }

  /** The completed conversation has the input's length and no placeholder;
      every other message is where it was, and every placeholder has become
      the assistant's answer to the completed conversation before it. */
  lemma {:induction false} FinalShape(done: seq<Message>, rest: seq<Message>,
                                      ans: seq<Message> -> Option<string>)
    requires NoPlaceholder(done)
    ensures var f := Resolve(done, rest, ans).final;
      f.Some? ==>
        && |f.value| == |done| + |rest|
        && NoPlaceholder(f.value)
        && f.value[..|done|] == done
        && (forall i :: 0 <= i < |rest| && rest[i] != Placeholder ==> f.value[|done| + i] == rest[i])
        && (forall i :: 0 <= i < |rest| && rest[i] == Placeholder ==>
              ans(f.value[..|done| + i]).Some? &&
              f.value[|done| + i] == Msg(AssistantRole, ans(f.value[..|done| + i]).value))
    decreases |rest|
  {
    if rest != [] {
      var x := if rest[0] == Placeholder then Msg(AssistantRole, if ans(done).Some? then ans(done).value else []) else rest[0];
      if rest[0] != Placeholder || ans(done).Some? {
        var done' := done + [x];
        FinalShape(done', rest[1..], ans);
        var f := Resolve(done, rest, ans).final;
        assert f == Resolve(done', rest[1..], ans).final;
        if f.Some? {
          var g := f.value;
          assert g[..|done'|] == done';
          assert g[..|done|] == done'[..|done|] == done;
          assert g[|done|] == x;
          forall i | 0 <= i < |rest| && rest[i] != Placeholder
            ensures g[|done| + i] == rest[i]
          {
            if i > 0 {
              assert rest[1..][i - 1] == rest[i];
            }
          }
          forall i | 0 <= i < |rest| && rest[i] == Placeholder
            ensures ans(g[..|done| + i]).Some? && g[|done| + i] == Msg(AssistantRole, ans(g[..|done| + i]).value)
          {
            if i > 0 {
              assert rest[1..][i - 1] == rest[i];
              assert |done'| + (i - 1) == |done| + i;
            }
          }
        }
      }
    }
  }

  /** Each request is the settled conversation just before a placeholder of
      the input, and the requests follow the placeholders from left to right. */
  lemma {:induction false} RequestsAtPlaceholders(done: seq<Message>, rest: seq<Message>,
                                                  ans: seq<Message> -> Option<string>)
    ensures forall q <- Resolve(done, rest, ans).requests ::
      |done| <= |q| < |done| + |rest| && rest[|q| - |done|] == Placeholder
    decreases |rest|
  {
    if rest == [] {
    } else if rest[0] == Placeholder {
      var a := ans(done);
      if a.Some? {
        var done' := done + [Msg(AssistantRole, a.value)];
        RequestsAtPlaceholders(done', rest[1..], ans);
        forall q <- Resolve(done', rest[1..], ans).requests
          ensures rest[|q| - |done|] == Placeholder
        {
          assert rest[1..][|q| - |done'|] == Placeholder;
        }
      }
    } else {
      var done' := done + [rest[0]];
      RequestsAtPlaceholders(done', rest[1..], ans);
      forall q <- Resolve(done', rest[1..], ans).requests
        ensures rest[|q| - |done|] == Placeholder
      {
        assert rest[1..][|q| - |done'|] == Placeholder;
      }
    }
  }

  /** The requests grow strictly longer, one placeholder further each time. */
  lemma {:induction false} RequestsInOrder(done: seq<Message>, rest: seq<Message>,
                                           ans: seq<Message> -> Option<string>)
    ensures forall k, l :: 0 <= k < l < |Resolve(done, rest, ans).requests| ==>
      |Resolve(done, rest, ans).requests[k]| < |Resolve(done, rest, ans).requests[l]|
    decreases |rest|
  {
    if rest == [] {
    } else if rest[0] == Placeholder {
      var a := ans(done);
      if a.Some? {
        var done' := done + [Msg(AssistantRole, a.value)];
        RequestsInOrder(done', rest[1..], ans);
        RequestsAtPlaceholders(done', rest[1..], ans);
        var qs := Resolve(done', rest[1..], ans).requests;
        var rs := Resolve(done, rest, ans).requests;
        assert rs == [done] + qs;
        forall k, l | 0 <= k < l < |rs|
          ensures |rs[k]| < |rs[l]|
        {
          assert rs[l] == qs[l - 1] && qs[l - 1] in qs;
          if k == 0 {
            assert |done'| <= |qs[l - 1]|;
          } else {
            assert rs[k] == qs[k - 1];
          }
        }
      }
    } else {
      RequestsInOrder(done + [rest[0]], rest[1..], ans);
      assert Resolve(done, rest, ans) == Resolve(done + [rest[0]], rest[1..], ans);
    }
  }

  /** When nothing raises there is one request per placeholder; when an answer
      raises, the request that raised is the last one sent. */
  lemma {:induction false} RequestCount(done: seq<Message>, rest: seq<Message>,
                                        ans: seq<Message> -> Option<string>)
    ensures var r := Resolve(done, rest, ans);
      && (r.final.Some? ==> |r.requests| == PlaceholderCount(rest))
      && (r.final.None? ==> 0 < |r.requests| <= PlaceholderCount(rest) && ans(r.requests[|r.requests| - 1]).None?)
    decreases |rest|
  {
    if rest != [] {
      PlaceholderCountAppend([rest[0]], rest[1..]);
      assert [rest[0]] + rest[1..] == rest;
      assert PlaceholderCount([rest[0]]) == (if rest[0] == Placeholder then 1 else 0) by {
        assert [rest[0]][..0] == [];
      }
      if rest[0] == Placeholder {
        if ans(done).Some? {
          RequestCount(done + [Msg(AssistantRole, ans(done).value)], rest[1..], ans);
        }
      } else {
        RequestCount(done + [rest[0]], rest[1..], ans);
      }
    }
  }

  /** Every request is a prefix of the completed conversation: the answers
      substituted earlier are part of every later request. */
  lemma {:induction false} RequestsArePrefixes(done: seq<Message>, rest: seq<Message>,
                                               ans: seq<Message> -> Option<string>)
    ensures var r := Resolve(done, rest, ans);
      r.final.Some? ==> done <= r.final.value && forall q <- r.requests :: q <= r.final.value
    decreases |rest|
  {
    if rest != [] {
      var x := if rest[0] == Placeholder then Msg(AssistantRole, if ans(done).Some? then ans(done).value else []) else rest[0];
      if rest[0] != Placeholder || ans(done).Some? {
        RequestsArePrefixes(done + [x], rest[1..], ans);
      }
    }
  }

  // ---------------------------------------------------------------------------
  // The client
  // ---------------------------------------------------------------------------

  datatype ChatOutcome =
    | AssertionFailed                        // foo.py:49-50
    | Raised(sent: seq<seq<Message>>)        // an answer's selector raised
    | Done(sent: seq<seq<Message>>)

  /** `LLM` of foo.py; its two fields never change after `__init__`. */
  class LLM {
    const host: string
    const model: string

    /** `__init__` (foo.py:27-32), reading `OLLAMA_HOST` from `env`. */
    constructor (env: map<string, string>, model: string)
      ensures host == (if "OLLAMA_HOST" in env then env["OLLAMA_HOST"] else DefaultHost)
      ensures this.model == model
    {
      host := if "OLLAMA_HOST" in env then env["OLLAMA_HOST"] else DefaultHost;
      this.model := model;
    }

    /** What `run_thru` posts (foo.py:53-58). */
    function ChatPost(msgs: seq<Message>): Post {
      Post(host + "/api/chat", ChatBody(model, msgs))
    }

    /** `run_thru(msgs)`: the streamed answer of the server to the request. */
    function Answer(server: Post -> seq<Line>, msgs: seq<Message>): Option<string> {
      StreamedText(server(ChatPost(msgs)), MessageContent)
    }

    function Answerer(server: Post -> seq<Line>): seq<Message> -> Option<string> {
      msgs => Answer(server, msgs)
    }

    /** What `chat` does, as a function of the conversation: every request it
        sends, ending with the completed conversation, and whether the last one
        raised. */
    function ChatRun(server: Post -> seq<Line>, input: seq<Message>): ChatOutcome {
      var r := Resolve([], input, Answerer(server));
      if r.final.None? then Raised(r.requests)
      else
        var sent := r.requests + [r.final.value];
        if Answer(server, r.final.value).None? then Raised(sent) else Done(sent)
    }

    /** `print_streamed_response` (foo.py:73-87); `None` is the exception the
        selector raises. */
    method PrintStreamedResponse(lines: seq<Line>, sel: Record -> Option<string>) returns (r: Option<string>)
      ensures r == StreamedText(lines, sel)
    {
      var full := "";
      var i := 0;
      while i < |lines|
        invariant 0 <= i <= |lines|
        invariant forall j :: 0 <= j < i ==> lines[j].Blank? || !ErrorOrDone(lines[j].rec)
        invariant Collect(lines[..i], sel) == Some(full)
      {
        assert lines[..i + 1][..i] == lines[..i];
        match lines[i] {
          case Blank =>
          case Json(rec) =>
            if rec.hasError {
              break;
            }
            if rec.done == Some(true) {
              break;
            }
            var piece := sel(rec);
            if piece.None? {
              var k := FirstStop(lines, ErrorOrDone);
              FailureSticks(lines[..i + 1], lines[i + 1..k], sel);
              assert lines[..i + 1] + lines[i + 1..k] == lines[..k];
              return None;
            }
            full := full + piece.value;
        }
        i := i + 1;
      }
      FirstStopUnique(lines, ErrorOrDone, i);
      return Some(full);
    }

    /** `chat` (foo.py:48-71). The caller's list is copied, each placeholder in
        turn is replaced by the answer to the prefix before it, and the
        completed list is sent last. */
    method Chat(prompt: Option<string>, messages: array?<Message>, server: Post -> seq<Line>)
      returns (out: ChatOutcome)
      ensures prompt.Some? || messages == null ==> out == AssertionFailed
      ensures prompt.None? && messages != null ==> out == ChatRun(server, messages[..])
      ensures messages != null ==> messages[..] == old(messages[..])
    {
      if prompt.Some? {
        return AssertionFailed;
      }
      if messages == null {
        return AssertionFailed;
      }
      var ms := new Message[messages.Length](i requires 0 <= i < messages.Length reads messages => messages[i]);
      assert ms[..] == messages[..];
      var sent, settled := FillPlaceholders(ms, server);
      if !settled {
        return Raised(sent);
      }
      var last := PrintStreamedResponse(server(ChatPost(ms[..])), MessageContent);
      sent := sent + [ms[..]];
      if last.None? {
        return Raised(sent);
      }
      return Done(sent);
    }

    /** Lines 66-70 on the copy: while a placeholder remains, ask for the
        answer to everything before the first one and put the answer in its
        place. `settled` is false when an answer raised. */
    method FillPlaceholders(ms: array<Message>, server: Post -> seq<Line>)
      returns (sent: seq<seq<Message>>, settled: bool)
      modifies ms
      ensures settled ==> Resolve([], old(ms[..]), Answerer(server)) == Run(sent, Some(ms[..]))
      ensures !settled ==> Resolve([], old(ms[..]), Answerer(server)) == Run(sent, None)
    {
      ghost var input := ms[..];
      ghost var ans := Answerer(server);
      ghost var j := 0;
      sent := [];
      while !NoPlaceholder(ms[..])
        invariant ms.Length == |input| && FillInv(ms[..], input, j, ans, sent)
        decreases ms.Length - j
      {
        var n := IndexOfPlaceholder(ms[..]);
        FillStep(ms[..], input, j, n, ans, sent);
        ghost var prev := ms[..];
        var request := ms[..n];
        var answer := PrintStreamedResponse(server(ChatPost(request)), MessageContent);
        assert ans(request) == answer;
        sent := sent + [request];
        if answer.None? {
          return sent, false;
        }
        ms[n] := Msg(AssistantRole, answer.value);
        assert ms[..] == prev[n := Msg(AssistantRole, answer.value)];
        j := n + 1;
      }
      FillDone(ms[..], input, j, ans, sent);
      return sent, true;
    }
  }

  /** The invariant of the substitution loop: the list agrees with the input
      from `j` on, has no placeholder before `j`, and what is left to do is
      the substitution of the rest, after the requests already `sent`. */
  ghost predicate FillInv(cur: seq<Message>, input: seq<Message>, j: nat,
                          ans: seq<Message> -> Option<string>, sent: seq<seq<Message>>)
  {
    && j <= |cur| == |input|
    && NoPlaceholder(cur[..j])
    && cur[j..] == input[j..]
    && Resolve([], input, ans) == Prepend(sent, Resolve(cur[..j], input[j..], ans))
  }

  /** One turn of the substitution loop: the first placeholder lies in the
      unsettled part, and answering it keeps the invariant with one more
      request sent; an answer that raises ends the substitution. */
  lemma FillStep(cur: seq<Message>, input: seq<Message>, j: nat, n: nat,
                 ans: seq<Message> -> Option<string>, sent: seq<seq<Message>>)
    requires FillInv(cur, input, j, ans, sent)
    requires !NoPlaceholder(cur) && n == IndexOfPlaceholder(cur)
    ensures j <= n < |cur|
    ensures ans(cur[..n]).None? ==> Resolve([], input, ans) == Run(sent + [cur[..n]], None)
    ensures ans(cur[..n]).Some? ==>
      FillInv(cur[n := Msg(AssistantRole, ans(cur[..n]).value)], input, n + 1, ans, sent + [cur[..n]])
  {
    PlaceholderAfter(cur, j);
    SettleUpTo(cur, input, j, n, ans);
    assert cur[n..] == input[n..] by {
      assert cur[n..] == cur[j..][n - j..];
    }
    AnswerAt(cur, input, n, ans);
    if ans(cur[..n]).Some? {
      var next := cur[n := Msg(AssistantRole, ans(cur[..n]).value)];
      var rest := Resolve(next[..n + 1], input[n + 1..], ans).requests;
      assert sent + ([cur[..n]] + rest) == (sent + [cur[..n]]) + rest;
    }
  }

  /** When no placeholder is left, the list is the completed conversation. */
  lemma FillDone(cur: seq<Message>, input: seq<Message>, j: nat,
                 ans: seq<Message> -> Option<string>, sent: seq<seq<Message>>)
    requires FillInv(cur, input, j, ans, sent) && NoPlaceholder(cur)
    ensures Resolve([], input, ans) == Run(sent, Some(cur))
  {
    assert cur[..|cur|] == cur;
    SettleUpTo(cur, input, j, |input|, ans);
    assert input[|input|..] == [];
    assert sent + [] == sent;
  }

  /** The requests `chat` sends: one per placeholder and then the completed
      conversation, so (placeholders + 1) in all when nothing raises; none
      carries a placeholder; each earlier request is a prefix of the last,
      which has the input's length and keeps every non-placeholder message. */
  lemma ChatRequests(llm: LLM, server: Post -> seq<Line>, input: seq<Message>)
    ensures var out := llm.ChatRun(server, input);
      && !out.AssertionFailed?
      && (forall q <- out.sent :: NoPlaceholder(q))
      && (out.Done? ==>
            && |out.sent| == PlaceholderCount(input) + 1
            && var f := out.sent[|out.sent| - 1];
            && |f| == |input|
            && (forall i :: 0 <= i < |input| && input[i] != Placeholder ==> f[i] == input[i])
            && (forall q <- out.sent :: q <= f))
  {
    var ans := llm.Answerer(server);
    RequestsHaveNoPlaceholder([], input, ans);
    FinalShape([], input, ans);
    RequestCount([], input, ans);
    RequestsArePrefixes([], input, ans);
  }

  // ---------------------------------------------------------------------------
  // code_snippet (foo.py:108-111)
  // ---------------------------------------------------------------------------

  /** Where a Python slice bound `i` lands in a list of `len` elements: a
      negative bound counts from the end, and the result is clamped. */
  function SliceBound(i: int, len: nat): (b: nat)
    ensures b <= len
    ensures 0 <= i <= len ==> b == i
  {
    var k := if i < 0 then i + len else i;
    if k < 0 then 0 else if k > len then len else k
  }

  /** `lines[lo:hi]` in Python. */
  function PySlice(lines: seq<string>, lo: int, hi: int): seq<string> {
    var a := SliceBound(lo, |lines|);
    var b := SliceBound(hi, |lines|);
    if a < b then lines[a..b] else []
  }

  /** `"\n".join(lines[start-1:finish])`, over the lines already read. */
  function CodeSnippet(lines: seq<string>, start: int, finish: int): string {
    Join(PySlice(lines, start - 1, finish), "\n")
  }

  /** Lines are numbered from 1 and both ends are included; a finish past the
      end of the file stops at its last line, and a range that is empty or
      starts past the end gives the empty snippet. A negative finish counts
      from the end, as Python's slices do, and is not covered here. */
  lemma SnippetSelectsLines(lines: seq<string>, start: int, finish: int)
    requires 1 <= start
    ensures start - 1 <= finish <= |lines| ==>
      CodeSnippet(lines, start, finish) == Join(lines[start - 1..finish], "\n")
    ensures start - 1 <= |lines| <= finish ==> CodeSnippet(lines, start, finish) == Join(lines[start - 1..], "\n")
    ensures (0 <= finish <= start - 1) || start - 1 >= |lines| ==> CodeSnippet(lines, start, finish) == ""
  {
    if start - 1 <= |lines| {
      assert lines[start - 1..start - 1] == [];
      assert lines[|lines|..] == [];
      assert lines[start - 1..|lines|] == lines[start - 1..];
    }
  }

  /** A start of 0 is Python's index -1: on a non-empty file the snippet is
      the last line alone, or nothing when `finish` stops before it. */
  lemma SnippetFromZero(lines: seq<string>, finish: int)
    requires |lines| > 0
    ensures finish >= |lines| ==> CodeSnippet(lines, 0, finish) == lines[|lines| - 1]
    ensures 0 <= finish < |lines| ==> CodeSnippet(lines, 0, finish) == ""
  {
    assert lines[|lines| - 1..|lines|] == [lines[|lines| - 1]];
  }
}
