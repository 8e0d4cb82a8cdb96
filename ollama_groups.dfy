/** mine/foo2.py: a chat client for an Ollama server that first pulls its
    model, and that splits a conversation at each placeholder into groups it
    sends one after the other, never feeding one answer into the next
    request. */
module OllamaGroups {
  import opened Options
  import opened Text
  import opened OllamaApi

  /** The default model of `__init__` (mine/foo2.py:27). */
  const DefaultModel := "tinyllama"

  /** The default prompt of `chat` (mine/foo2.py:60). */
  const DefaultPrompt := "Why is there air?"

  datatype Failure =
    | HostUnset     // None + url: TypeError, because OLLAMA_HOST is not set
    | PullFailed    // `assert okay` after the pull

  datatype Result<T> = Ok(value: T) | Err(failure: Failure)

  // ---------------------------------------------------------------------------
  // Pulling the model (mine/foo2.py:33-42)
  // ---------------------------------------------------------------------------

  /** A record whose "status", lower-cased, is "success"; a missing status
      reads as "". */
  predicate IsSuccess(rec: Record) {
    Lower(if rec.status.Some? then rec.status.value else "") == "success"
  }

  /** Some non-empty line of the pull reply reports success. */
  predicate PullSucceeded(lines: seq<Line>) {
    exists i :: 0 <= i < |lines| && lines[i].Json? && IsSuccess(lines[i].rec)
  }

  /** The scan of lines 34-41: stop at the first success. */
  method ScanPull(lines: seq<Line>) returns (okay: bool)
    ensures okay <==> PullSucceeded(lines)
  {
    okay := false;
    var i := 0;
    while i < |lines|
      invariant 0 <= i <= |lines|
      invariant forall j :: 0 <= j < i ==> lines[j].Blank? || !IsSuccess(lines[j].rec)
    {
      if lines[i].Json? && IsSuccess(lines[i].rec) {
        okay := true;
        break;
      }
      i := i + 1;
    }
  }

  /** Letter case does not matter: "SUCCESS" and "Success" count. */
  lemma SuccessIgnoresCase(s: string)
    ensures IsSuccess(Record(false, None, Some(s), None)) <==> Lower(s) == "success"
    ensures IsSuccess(Record(false, None, Some("SUCCESS"), None))
    ensures !IsSuccess(Record(false, None, None, None))
  {
    assert Lower("SUCCESS") == "success";
    assert Lower("") == "";
  }

  // ---------------------------------------------------------------------------
  // Streamed text (mine/foo2.py:93-107)
  // ---------------------------------------------------------------------------

  /** The loop ends at a record whose "done" is not false: it breaks on true,
      and raises `KeyError` when the key is missing. */
  predicate EndsStream(rec: Record) {
    rec.done != Some(false)
  }

  /** The text the loop has accumulated when it stops, `None` when it raised:
      the content of every record up to and including the first one whose
      "done" is not false, and an exception when that record has no "done". */
  function GroupStreamText(lines: seq<Line>, sel: Record -> Option<string>): Option<string> {
    var k := FirstStop(lines, EndsStream);
    if k == |lines| then Collect(lines, sel)
    else if lines[k].rec.done.None? then None
    else Collect(lines[..k + 1], sel)
  }

  /** The two scripts differ on the final record: mine/foo2.py keeps its
      content, foo.py drops it. For a reply whose records before the last
      say "done": false and carry no error, the text here is foo.py's text
      followed by the last record's content. */
  lemma DoneContentKept(lines: seq<Line>, sel: Record -> Option<string>, k: nat)
    requires k < |lines| && lines[k].Json? && lines[k].rec.done == Some(true) && !lines[k].rec.hasError
    requires forall j :: 0 <= j < k ==> lines[j].Blank? || (lines[j].rec.done == Some(false) && !lines[j].rec.hasError)
    ensures GroupStreamText(lines, sel) == Then(Collect(lines[..FirstStop(lines, ErrorOrDone)], sel), sel(lines[k].rec))
  {
    FirstStopUnique(lines, EndsStream, k);
    FirstStopUnique(lines, ErrorOrDone, k);
    assert lines[..k + 1][..k] == lines[..k];
  }

  // ---------------------------------------------------------------------------
  // Grouping (mine/foo2.py:66-79)
  // ---------------------------------------------------------------------------

  /** The placeholder-separated segments of a conversation, in order; an empty
      remainder after the last placeholder is dropped. */
  function Groups(ms: seq<Message>): seq<seq<Message>>
    decreases |ms|
  {
    if NoPlaceholder(ms) then (if ms == [] then [] else [ms])
    else
      var n := IndexOfPlaceholder(ms);
      [ms[..n]] + Groups(ms[n + 1..])
  }

  /** The groups joined back together with a placeholder between each two. */
  function Rejoin(gs: seq<seq<Message>>): seq<Message>
    decreases |gs|
  {
    if gs == [] then []
    else if |gs| == 1 then gs[0]
    else gs[0] + [Placeholder] + Rejoin(gs[1..])
  }

  predicate EndsWithPlaceholder(ms: seq<Message>) {
    ms != [] && ms[|ms| - 1] == Placeholder
  }

  /** No group carries a placeholder. */
  lemma {:induction false} GroupsHaveNoPlaceholder(ms: seq<Message>)
    ensures forall g <- Groups(ms) :: NoPlaceholder(g)
    decreases |ms|
  {
    if !NoPlaceholder(ms) {
      GroupsHaveNoPlaceholder(ms[IndexOfPlaceholder(ms) + 1..]);
    }
  }

  /** Joining the groups with placeholders gives back the conversation, less
      a final placeholder: the groups lose nothing else. */
  lemma {:induction false} GroupsRejoin(ms: seq<Message>)
    ensures Rejoin(Groups(ms)) == if EndsWithPlaceholder(ms) then ms[..|ms| - 1] else ms
    decreases |ms|
  {
    if !NoPlaceholder(ms) {
      var n := IndexOfPlaceholder(ms);
      GroupsRejoin(ms[n + 1..]);
      RejoinStep(ms, n);
    }
  }

  /** The step of GroupsRejoin past the first placeholder. */
  lemma RejoinStep(ms: seq<Message>, n: nat)
    requires !NoPlaceholder(ms) && n == IndexOfPlaceholder(ms)
    requires Rejoin(Groups(ms[n + 1..])) ==
      if EndsWithPlaceholder(ms[n + 1..]) then ms[n + 1..][..|ms[n + 1..]| - 1] else ms[n + 1..]
    ensures Rejoin(Groups(ms)) == if EndsWithPlaceholder(ms) then ms[..|ms| - 1] else ms
  {
    var rest := ms[n + 1..];
    GroupsAtFirst(ms, n);
    if rest == [] {
      LastPlaceholder(ms, n);
    } else {
      GroupsNonEmpty(rest);
      RejoinCons(ms[..n], Groups(rest));
      RejoinTail(ms, n);
    }
  }

  /** The first group ends at the first placeholder. */
  lemma GroupsAtFirst(ms: seq<Message>, n: nat)
    requires n < |ms| && ms[n] == Placeholder && NoPlaceholder(ms[..n])
    ensures Groups(ms) == [ms[..n]] + Groups(ms[n + 1..])
  {
    IndexOfPlaceholderAt(ms, n);
  }

  /** A conversation whose only placeholder is its last message. */
  lemma LastPlaceholder(ms: seq<Message>, n: nat)
    requires n + 1 == |ms| && ms[n] == Placeholder
    ensures EndsWithPlaceholder(ms) && Rejoin([ms[..n]]) == ms[..|ms| - 1]
    ensures ms[n + 1..] == [] && Groups([]) == []
  {
  }

  /** Cutting a conversation at a placeholder with something after it. */
  lemma RejoinTail(ms: seq<Message>, n: nat)
    requires n + 1 < |ms| && ms[n] == Placeholder
    ensures EndsWithPlaceholder(ms) <==> EndsWithPlaceholder(ms[n + 1..])
    ensures ms == ms[..n] + [Placeholder] + ms[n + 1..]
    ensures EndsWithPlaceholder(ms) ==>
      ms[..|ms| - 1] == ms[..n] + [Placeholder] + ms[n + 1..][..|ms[n + 1..]| - 1]
  {
    var rest := ms[n + 1..];
    assert ms[|ms| - 1] == rest[|rest| - 1];
    assert ms == ms[..n] + [Placeholder] + rest;
    if EndsWithPlaceholder(ms) {
      assert ms[..|ms| - 1] == ms[..n] + [Placeholder] + rest[..|rest| - 1];
    }
  }

  lemma RejoinCons(x: seq<Message>, g: seq<seq<Message>>)
    requires g != []
    ensures Rejoin([x] + g) == x + [Placeholder] + Rejoin(g)
  {
    assert ([x] + g)[1..] == g;
  }

  /** A non-empty conversation has at least one group. */
  lemma GroupsNonEmpty(ms: seq<Message>)
    requires ms != []
    ensures Groups(ms) != []
  {
  }

  /** One group per placeholder, plus one for a non-empty remainder. */
  lemma {:induction false} GroupCount(ms: seq<Message>)
    ensures |Groups(ms)| == PlaceholderCount(ms) + (if ms == [] || EndsWithPlaceholder(ms) then 0 else 1)
    decreases |ms|
  {
    if NoPlaceholder(ms) {
      NoPlaceholderCount(ms);
    } else {
      var n := IndexOfPlaceholder(ms);
      var rest := ms[n + 1..];
      GroupCount(rest);
      assert |Groups(ms)| == 1 + |Groups(rest)|;
      CountPastFirst(ms, n);
      if rest != [] {
        RejoinTail(ms, n);
      }
    }
  }

  /** The first placeholder accounts for one of the count. */
  lemma CountPastFirst(ms: seq<Message>, n: nat)
    requires n < |ms| && ms[n] == Placeholder && NoPlaceholder(ms[..n])
    ensures PlaceholderCount(ms) == 1 + PlaceholderCount(ms[n + 1..])
  {
    assert ms == (ms[..n] + [Placeholder]) + ms[n + 1..];
    PlaceholderCountAppend(ms[..n] + [Placeholder], ms[n + 1..]);
    PlaceholderCountAppend(ms[..n], [Placeholder]);
    NoPlaceholderCount(ms[..n]);
    assert [Placeholder][..0] == [];
  }

  /** A leading placeholder, and each pair of adjacent placeholders, makes an
      empty group. */
  lemma EmptyGroups(a: seq<Message>, b: seq<Message>)
    requires NoPlaceholder(a)
    ensures |Groups([Placeholder] + b)| > 0 && Groups([Placeholder] + b)[0] == []
    ensures |Groups(a + [Placeholder, Placeholder] + b)| > 1 && Groups(a + [Placeholder, Placeholder] + b)[1] == []
  {
    var m := a + [Placeholder, Placeholder] + b;
    assert m[|a|] == Placeholder;
    assert m[..|a|] == a;
    IndexOfPlaceholderAt(m, |a|);
    IndexOfPlaceholderAt([Placeholder] + b, 0);
    assert m[|a| + 1..] == [Placeholder] + b;
    assert ([Placeholder] + b)[0] == Placeholder;
    assert !NoPlaceholder(m);
    assert Groups(m) == [m[..|a|]] + Groups([Placeholder] + b);
    assert Groups([Placeholder] + b)[0] == [];
  }

  /** The loop of lines 67-79. */
  method SplitGroups(messages: seq<Message>) returns (groups: seq<seq<Message>>)
    ensures groups == Groups(messages)
  {
    var rest := messages;
    groups := [];
    while rest != []
      invariant groups + Groups(rest) == Groups(messages)
      decreases |rest|
    {
      if NoPlaceholder(rest) {
        break;
      }
      var n := IndexOfPlaceholder(rest);
      var group := rest[..n];
      rest := rest[n + 1..];
      groups := groups + [group];
    }
    if rest != [] {
      groups := groups + [rest];
    }
  }

  // ---------------------------------------------------------------------------
  // The client
  // ---------------------------------------------------------------------------

  /** The conversation `chat` works on: the one given, or else one user
      message carrying the prompt, or else the default prompt
      (mine/foo2.py:59-65). */
  function Conversation(prompt: Option<string>, messages: Option<seq<Message>>): seq<Message> {
    if messages.Some? then messages.value
    else [Msg("user", if prompt.Some? then prompt.value else DefaultPrompt)]
  }

  lemma DefaultConversation()
    ensures Groups(Conversation(None, None)) == [[Msg("user", DefaultPrompt)]]
  {
    assert NoPlaceholder([Msg("user", DefaultPrompt)]);
  }

  /** One more line of the stream: its text, if any, goes after the rest. */
  lemma CollectStep(lines: seq<Line>, i: nat, sel: Record -> Option<string>)
    requires i < |lines|
    ensures Collect(lines[..i + 1], sel) ==
      if lines[i].Blank? then Collect(lines[..i], sel) else Then(Collect(lines[..i], sel), sel(lines[i].rec))
  {
    assert lines[..i + 1][..i] == lines[..i];
  }

  /** A selector that raises before the stream ends makes the whole reply fail. */
  lemma SelectorRaises(lines: seq<Line>, sel: Record -> Option<string>, i: nat)
    requires i < |lines| && lines[i].Json? && sel(lines[i].rec).None?
    requires forall j :: 0 <= j < i ==> lines[j].Blank? || !EndsStream(lines[j].rec)
    ensures GroupStreamText(lines, sel) == None
  {
    CollectStep(lines, i, sel);
    var k := FirstStop(lines, EndsStream);
    assert i <= k;
    if k == |lines| {
      FailureSticks(lines[..i + 1], lines[i + 1..], sel);
      assert lines[..i + 1] + lines[i + 1..] == lines;
    } else {
      FailureSticks(lines[..i + 1], lines[i + 1..k + 1], sel);
      assert lines[..i + 1] + lines[i + 1..k + 1] == lines[..k + 1];
    }
  }

  /** `LLM` of mine/foo2.py; its fields never change after `__init__`. */
  class LLM {
    const host: string
    const model: string

    constructor (host: string, model: string)
      ensures this.host == host && this.model == model
    {
      this.host := host;
      this.model := model;
    }

    function ChatPost(msgs: seq<Message>): Post {
      Post(host + "/api/chat", ChatBody(model, msgs))
    }

    /** The text of the reply to one group, `None` when reading it raised. */
    function Reply(server: Post -> seq<Line>, msgs: seq<Message>): Option<string> {
      GroupStreamText(server(ChatPost(msgs)), MessageContent)
    }

    /** `print_streamed_response` (lines 93-107); the text is what it logs. */
    method PrintStreamedResponse(lines: seq<Line>, sel: Record -> Option<string>) returns (r: Option<string>)
      ensures r == GroupStreamText(lines, sel)
    {
      var full := "";
      var i := 0;
      while i < |lines|
        invariant 0 <= i <= |lines|
        invariant forall j :: 0 <= j < i ==> lines[j].Blank? || !EndsStream(lines[j].rec)
        invariant Collect(lines[..i], sel) == Some(full)
      {
        match lines[i] {
          case Blank =>
            CollectStep(lines, i, sel);
          case Json(rec) =>
            var piece := sel(rec);
            if piece.None? {
              SelectorRaises(lines, sel, i);
              return None;
            }
            CollectStep(lines, i, sel);
            full := full + piece.value;
            if rec.done.None? {
              FirstStopUnique(lines, EndsStream, i);
              return None;
            }
            if rec.done.value {
              FirstStopUnique(lines, EndsStream, i);
              return Some(full);
            }
        }
        i := i + 1;
      }
      FirstStopUnique(lines, EndsStream, i);
      assert lines[..i] == lines;
      return Some(full);
    }

    /** `chat` (lines 58-91): one post per group, in order, each carrying the
        model and that group alone; an exception while reading a reply ends
        the loop. */
    method Chat(prompt: Option<string>, messages: Option<seq<Message>>, server: Post -> seq<Line>)
      returns (sent: seq<Post>, raised: bool)
      ensures |sent| <= |Groups(Conversation(prompt, messages))|
      ensures forall k :: 0 <= k < |sent| ==> sent[k] == ChatPost(Groups(Conversation(prompt, messages))[k])
      ensures forall k :: 0 <= k < |sent| - 1 ==> Reply(server, Groups(Conversation(prompt, messages))[k]).Some?
      ensures raised <==> sent != [] && Reply(server, Groups(Conversation(prompt, messages))[|sent| - 1]).None?
      ensures !raised ==> |sent| == |Groups(Conversation(prompt, messages))|
    {
      var ms := Conversation(prompt, messages);
      var groups := SplitGroups(ms);
      sent := [];
      var k := 0;
      while k < |groups|
        invariant 0 <= k <= |groups| && |sent| == k
        invariant forall i :: 0 <= i < k ==> sent[i] == ChatPost(groups[i]) && Reply(server, groups[i]).Some?
      {
        var post := ChatPost(groups[k]);
        sent := sent + [post];
        var text := PrintStreamedResponse(server(post), MessageContent);
        if text.None? {
          return sent, true;
        }
        k := k + 1;
      }
      return sent, false;
    }
  }

  /** `__init__` (lines 27-42): `model` defaults to "tinyllama"; without
      `OLLAMA_HOST` the first post raises; otherwise the model is pulled and
      the client exists only if the pull reported success. */
  method Connect(env: map<string, string>, model: Option<string>, server: Post -> seq<Line>)
    returns (r: Result<LLM>)
    ensures "OLLAMA_HOST" !in env ==> r == Err(HostUnset)
    ensures "OLLAMA_HOST" in env ==>
      (r.Ok? <==> PullSucceeded(server(Post(env["OLLAMA_HOST"] + "/api/pull",
                                            PullBody(if model.Some? then model.value else DefaultModel)))))
    ensures r.Err? ==> r.failure == HostUnset || r.failure == PullFailed
    ensures r.Ok? ==> r.value.host == env["OLLAMA_HOST"] &&
                      r.value.model == (if model.Some? then model.value else DefaultModel)
  {
    var name := if model.Some? then model.value else DefaultModel;
    if "OLLAMA_HOST" !in env {
      return Err(HostUnset);
    }
    var host := env["OLLAMA_HOST"];
    var okay := ScanPull(server(Post(host + "/api/pull", PullBody(name))));
    if !okay {
      return Err(PullFailed);
    }
    var llm := new LLM(host, name);
    return Ok(llm);
  }

  /** Groups are sent as they are: the messages of each post are exactly one
      segment of the conversation, so no answer is fed back. */
  lemma PostsCarryGroups(llm: LLM, ms: seq<Message>, k: nat)
    requires k < |Groups(ms)|
    ensures llm.ChatPost(Groups(ms)[k]).body.messages == Groups(ms)[k]
    ensures llm.ChatPost(Groups(ms)[k]).body.model == llm.model
    ensures NoPlaceholder(llm.ChatPost(Groups(ms)[k]).body.messages)
  {
    GroupsHaveNoPlaceholder(ms);
    assert Groups(ms)[k] in Groups(ms);
  }
}
