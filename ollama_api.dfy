/** What foo.py and mine/foo2.py share: chat messages with the placeholder
    marker, the records of a streamed Ollama reply after JSON decoding, the
    requests posted to the server, and the accumulation of streamed text.
    The HTTP transport and the JSON decoder are not modelled: a reply is the
    sequence of its already-decoded lines, and the server is a function from
    request to reply. */
module OllamaApi {
  import opened Options

  /** A chat message, or the `PLACEHOLDER` sentinel object. */
  datatype Message = Placeholder | Msg(role: string, content: string)

  /** The parts of a decoded reply line the scripts look at: whether it has an
      "error" key, its "done" flag (`None` when the key is absent), its
      "status" string and its `["message"]["content"]` string (`None` when a
      lookup would raise). */
  datatype Record = Record(hasError: bool, done: Option<bool>, status: Option<string>, content: Option<string>)

  /** A streamed line: empty (skipped by `if line:`) or a decoded record. */
  datatype Line = Blank | Json(rec: Record)

  /** The JSON body of a request. */
  datatype Body = PullBody(model: string) | ChatBody(model: string, messages: seq<Message>)

  datatype Post = Post(url: string, body: Body)

  /** `lambda response: response["message"]["content"]`; `None` is the
      `KeyError`/`TypeError` it raises on a record without a message. */
  function MessageContent(rec: Record): Option<string> {
    rec.content
  }

  predicate NoPlaceholder(ms: seq<Message>) {
    forall i :: 0 <= i < |ms| ==> ms[i] != Placeholder
  }

  /** The number of placeholders in a message list. */
  function PlaceholderCount(ms: seq<Message>): nat
    decreases |ms|
  {
    if ms == [] then 0
    else PlaceholderCount(ms[..|ms| - 1]) + (if ms[|ms| - 1] == Placeholder then 1 else 0)
  }

  lemma {:induction false} NoPlaceholderCount(ms: seq<Message>)
    ensures NoPlaceholder(ms) <==> PlaceholderCount(ms) == 0
    decreases |ms|
  {
    if ms != [] {
      NoPlaceholderCount(ms[..|ms| - 1]);
      if NoPlaceholder(ms[..|ms| - 1]) && ms[|ms| - 1] != Placeholder {
        assert forall i :: 0 <= i < |ms| ==> ms[i] == if i < |ms| - 1 then ms[..|ms| - 1][i] else ms[|ms| - 1];
      }
    }
  }

  lemma {:induction false} PlaceholderCountAppend(a: seq<Message>, b: seq<Message>)
    ensures PlaceholderCount(a + b) == PlaceholderCount(a) + PlaceholderCount(b)
    decreases |b|
  {
    if b == [] {
      assert a + b == a;
    } else {
      assert (a + b)[..|a + b| - 1] == a + b[..|b| - 1];
      PlaceholderCountAppend(a, b[..|b| - 1]);
    }
  }

  /** `messages.index(PLACEHOLDER)`: the first placeholder's position. */
  function IndexOfPlaceholder(ms: seq<Message>): (n: nat)
    requires !NoPlaceholder(ms)
    ensures n < |ms| && ms[n] == Placeholder && NoPlaceholder(ms[..n])
    decreases |ms|
  {
    if ms[0] == Placeholder then 0
    else
      assert !NoPlaceholder(ms[1..]) by {
        var i :| 0 <= i < |ms| && ms[i] == Placeholder;
        assert ms[1..][i - 1] == Placeholder;
      }
      var n := IndexOfPlaceholder(ms[1..]);
      assert forall i :: 0 <= i < n + 1 ==> ms[i] == if i == 0 then ms[0] else ms[1..][..n][i - 1];
      n + 1
  }

  /** A placeholder with none before it is the first one. */
  lemma IndexOfPlaceholderAt(ms: seq<Message>, n: nat)
    requires n < |ms| && ms[n] == Placeholder && NoPlaceholder(ms[..n])
    ensures IndexOfPlaceholder(ms) == n
  {
  }

  // ---------------------------------------------------------------------------
  // Streamed text
  // ---------------------------------------------------------------------------

  /** `full_response += selector(json_response)` over the non-blank lines, in
      order; `None` as soon as the selector raises. */
  function Collect(lines: seq<Line>, sel: Record -> Option<string>): Option<string>
    decreases |lines|
  {
    if lines == [] then Some("")
    else
      var init := Collect(lines[..|lines| - 1], sel);
      match lines[|lines| - 1]
      case Blank => init
      case Json(rec) =>
        if init.None? || sel(rec).None? then None else Some(init.value + sel(rec).value)
  }

  /** Concatenating two texts, or failing when either part fails. */
  function Then(a: Option<string>, b: Option<string>): Option<string> {
    if a.None? || b.None? then None else Some(a.value + b.value)
  }

  /** Accumulation is in order: the text of a concatenation is the text of the
      first part followed by the text of the second. */
  lemma {:induction false} CollectAppend(a: seq<Line>, b: seq<Line>, sel: Record -> Option<string>)
    ensures Collect(a + b, sel) == Then(Collect(a, sel), Collect(b, sel))
    decreases |b|
  {
    if b == [] {
      assert a + b == a;
      if Collect(a, sel).Some? {
        assert Collect(a, sel).value + "" == Collect(a, sel).value;
      }
    } else {
      var b' := b[..|b| - 1];
      assert (a + b)[..|a + b| - 1] == a + b';
      CollectAppend(a, b', sel);
      match b[|b| - 1]
      case Blank =>
      case Json(rec) =>
        var x, y := Collect(a, sel), Collect(b', sel);
        if x.Some? && y.Some? && sel(rec).Some? {
          assert x.value + y.value + sel(rec).value == x.value + (y.value + sel(rec).value);
        }
    }
  }

  /** Blank lines contribute nothing, wherever they are. */
  lemma BlankIgnored(a: seq<Line>, b: seq<Line>, sel: Record -> Option<string>)
    ensures Collect(a + [Blank] + b, sel) == Collect(a + b, sel)
  {
    CollectAppend(a + [Blank], b, sel);
    CollectAppend(a, b, sel);
    assert (a + [Blank])[..|a + [Blank]| - 1] == a;
  }

  /** Once the selector has raised, no later line undoes it. */
  lemma FailureSticks(a: seq<Line>, b: seq<Line>, sel: Record -> Option<string>)
    requires Collect(a, sel).None?
    ensures Collect(a + b, sel).None?
  {
    CollectAppend(a, b, sel);
  }

  /** The record a reader stops at when it ends on an error or on a truthy
      "done" (foo.py:79-84). */
  predicate ErrorOrDone(rec: Record) {
    rec.hasError || rec.done == Some(true)
  }

  /** The position of the first record on which `stop` holds, or the length
      of the stream when there is none. */
  function FirstStop(lines: seq<Line>, stop: Record -> bool): (k: nat)
    ensures k <= |lines|
    ensures forall j :: 0 <= j < k ==> lines[j].Blank? || !stop(lines[j].rec)
    ensures k < |lines| ==> lines[k].Json? && stop(lines[k].rec)
    decreases |lines|
  {
    if lines == [] then 0
    else if lines[0].Json? && stop(lines[0].rec) then 0
    else
      var k := FirstStop(lines[1..], stop);
      assert forall j :: 1 <= j < k + 1 ==> lines[j] == lines[1..][j - 1];
      k + 1
  }

  /** The first-stop position is the only one with both properties: no stop
      before it, and a stop at it (or the end of the stream). */
  lemma FirstStopUnique(lines: seq<Line>, stop: Record -> bool, k: nat)
    requires k <= |lines|
    requires forall j :: 0 <= j < k ==> lines[j].Blank? || !stop(lines[j].rec)
    requires k < |lines| ==> lines[k].Json? && stop(lines[k].rec)
    ensures FirstStop(lines, stop) == k
  {
  }
}
