/**
 Validation of a host's selection from a prepared model request: nothing but
 history messages may be left out, and the rest stays in order.
 */
module Selection {
  import opened Wrappers

  const MAX_MESSAGES: nat := 4096
  const MAX_BLOCKS: nat := 16384
  const MAX_REQUEST_BYTES: nat := 16 * 1024 * 1024

  datatype Message = Message(role: string, content: seq<string>)

  /** Every field of a request but its messages. */
  datatype Fields = Fields(
    requestId: string, model: string, system: string, tools: string, toolChoice: string, outputFormat: string,
    promptCache: string, reasoning: string, maxOutputTokens: string, extensions: string)

  datatype Request = Request(fields: Fields, messages: seq<Message>)

  datatype Failure = FieldsChanged | MessagesNotSubsequence | CurrentInputChanged | BoundsExceeded

  /** The serialized size of a request. */
  type Measure = Request -> nat

  function BlocksUpTo(messages: seq<Message>, n: nat): nat
    requires n <= |messages|
  {
    if n == 0 then 0 else BlocksUpTo(messages, n - 1) + |messages[n - 1].content|
  }

  predicate WithinBounds(request: Request, measure: Measure) {
    && |request.messages| <= MAX_MESSAGES
    && BlocksUpTo(request.messages, |request.messages|) <= MAX_BLOCKS
    && measure(request) <= MAX_REQUEST_BYTES
  }

  lemma {:induction false} BlocksGrow(messages: seq<Message>, m: nat, n: nat)
    requires m <= n <= |messages|
    ensures BlocksUpTo(messages, m) <= BlocksUpTo(messages, n)
  {
    if m < n { BlocksGrow(messages, m, n - 1); }
  }

  /** The content blocks of all messages, one after the other. */
  function AllBlocks(messages: seq<Message>): seq<string> {
    if messages == [] then [] else messages[0].content + AllBlocks(messages[1..])
  }

  lemma {:induction false} AllBlocksExtend(messages: seq<Message>, last: Message)
    ensures AllBlocks(messages + [last]) == AllBlocks(messages) + last.content
  {
    if messages != [] {
      assert (messages + [last])[1..] == messages[1..] + [last];
      AllBlocksExtend(messages[1..], last);
    }
  }

  lemma {:induction false} BlocksAreCounted(messages: seq<Message>, n: nat)
    requires n <= |messages|
    ensures BlocksUpTo(messages, n) == |AllBlocks(messages[..n])|
  {
    if n > 0 {
      BlocksAreCounted(messages, n - 1);
      assert messages[..n] == messages[..n - 1] + [messages[n - 1]];
      AllBlocksExtend(messages[..n - 1], messages[n - 1]);
    }
  }

  /** A request has at most 4096 messages, 16384 content blocks in all of them, and 16 MiB. */
  lemma WithinExactlyWhen(request: Request, measure: Measure)
    ensures WithinBounds(request, measure) <==>
              |request.messages| <= 4096 && |AllBlocks(request.messages)| <= 16384 && measure(request) <= 16777216
  {
    BlocksAreCounted(request.messages, |request.messages|);
    assert request.messages[..|request.messages|] == request.messages;
  }

  method BoundedRequest(request: Request, measure: Measure) returns (ok: bool)
    ensures ok <==> WithinBounds(request, measure)
  {
    if |request.messages| > MAX_MESSAGES {
      return false;
    }
    var blocks := 0;
    for n := 0 to |request.messages|
      invariant blocks == BlocksUpTo(request.messages, n) <= MAX_BLOCKS
    {
      blocks := blocks + |request.messages[n].content|;
      if blocks > MAX_BLOCKS {
        BlocksGrow(request.messages, n + 1, |request.messages|);
        return false;
      }
    }
    return measure(request) <= MAX_REQUEST_BYTES;
  }

  // -------------------------------------------------------------------- embeddings

  /** `at` maps the messages, in order and one by one, to equal ones of the history. */
  ghost predicate Embeds(messages: seq<Message>, history: seq<Message>, at: seq<nat>) {
    && |at| == |messages|
    && (forall i :: 0 <= i < |at| ==> at[i] < |history| && history[at[i]] == messages[i])
    && (forall i, j :: 0 <= i < j < |at| ==> at[i] < at[j])
  }

  ghost predicate IsSubsequence(messages: seq<Message>, history: seq<Message>) {
    exists at :: Embeds(messages, history, at)
  }

  /**
   The position after the `m` messages have each taken the earliest equal message
   left in the history; none when one of them finds none.
   */
  ghost predicate Greedy(messages: seq<Message>, history: seq<Message>, m: nat, next: nat)
    requires m <= |messages| && next <= |history|
  {
    && (m == 0 ==> next == 0)
    && (exists at :: Embeds(messages[..m], history, at) && forall i :: 0 <= i < m ==> at[i] < next)
    && (forall at :: Embeds(messages[..m], history, at) && m > 0 ==> next <= at[m - 1] + 1)
  }

  lemma GreedyBegins(messages: seq<Message>, history: seq<Message>)
    ensures Greedy(messages, history, 0, 0)
  {
    assert Embeds(messages[..0], history, []);
  }

  /** Any embedding of one more message puts it no earlier than the first match from `next` on. */
  lemma EmbedsLater(messages: seq<Message>, history: seq<Message>, m: nat, next: nat, at: seq<nat>)
    requires m < |messages| && next <= |history| && Greedy(messages, history, m, next)
    requires Embeds(messages[..m + 1], history, at)
    ensures next <= at[m] && history[at[m]] == messages[m]
  {
    assert Embeds(messages[..m], history, at[..m]);
    if m > 0 { assert at[..m][m - 1] == at[m - 1] < at[m]; }
  }

  /** Taking the first match keeps the choice greedy. */
  lemma GreedyStep(messages: seq<Message>, history: seq<Message>, m: nat, next: nat, found: nat)
    requires m < |messages| && next <= found < |history| && Greedy(messages, history, m, next)
    requires history[found] == messages[m] && forall k :: next <= k < found ==> history[k] != messages[m]
    ensures Greedy(messages, history, m + 1, found + 1)
  {
    var at :| Embeds(messages[..m], history, at) && forall i :: 0 <= i < m ==> at[i] < next;
    var more := at + [found];
    assert Embeds(messages[..m + 1], history, more);
    assert forall i :: 0 <= i < m + 1 ==> more[i] < found + 1;
    forall other | Embeds(messages[..m + 1], history, other) ensures found + 1 <= other[m] + 1 {
      EmbedsLater(messages, history, m, next, other);
    }
  }

  lemma SubsequenceOfPrefix(messages: seq<Message>, history: seq<Message>, m: nat)
    requires m <= |messages| && IsSubsequence(messages, history)
    ensures IsSubsequence(messages[..m], history)
  {
    var at :| Embeds(messages, history, at);
    assert Embeds(messages[..m], history, at[..m]);
  }

  /** No match is left for message `m`, so the messages are no subsequence. */
  lemma GreedyFails(messages: seq<Message>, history: seq<Message>, m: nat, next: nat)
    requires m < |messages| && next <= |history| && Greedy(messages, history, m, next)
    requires forall k :: next <= k < |history| ==> history[k] != messages[m]
    ensures !IsSubsequence(messages, history)
  {
    if IsSubsequence(messages, history) {
      SubsequenceOfPrefix(messages, history, m + 1);
      var at :| Embeds(messages[..m + 1], history, at);
      EmbedsLater(messages, history, m, next, at);
    }
  }

  /** One pass over the history that takes the earliest match each time finds an embedding if there is one. */
  method FindsSubsequence(messages: seq<Message>, history: seq<Message>) returns (ok: bool)
    ensures ok <==> IsSubsequence(messages, history)
  {
    var next := 0;
    GreedyBegins(messages, history);
    for m := 0 to |messages|
      invariant 0 <= next <= |history| && Greedy(messages, history, m, next)
    {
      var found := next;
      while found < |history| && history[found] != messages[m]
        invariant next <= found <= |history|
        invariant forall k :: next <= k < found ==> history[k] != messages[m]
      {
        found := found + 1;
      }
      if found == |history| {
        GreedyFails(messages, history, m, next);
        return false;
      }
      GreedyStep(messages, history, m, next, found);
      next := found + 1;
    }
    assert messages[..|messages|] == messages;
    return true;
  }

  // -------------------------------------------------------------------- validation

  /** The history of a request: its messages before the current input. */
  function History(request: Request, current: nat): seq<Message>
    requires current <= |request.messages|
  {
    request.messages[..|request.messages| - current]
  }

  function CurrentInput(request: Request, current: nat): seq<Message>
    requires current <= |request.messages|
  {
    request.messages[|request.messages| - current..]
  }

  /** A request is its history followed by its current input, as long as was said. */
  lemma InputIsTail(request: Request, history: seq<Message>, input: seq<Message>)
    requires |input| <= |request.messages|
    ensures request.messages == history + input <==> history == History(request, |input|) && input == CurrentInput(request, |input|)
  {
    if request.messages == history + input {
      assert request.messages[..|history|] == history && request.messages[|history|..] == input;
    }
  }

  /** The current input is all there and unchanged. */
  predicate SameInput(source: Request, selected: Request, current: nat) {
    && current <= |source.messages| && current <= |selected.messages|
    && CurrentInput(selected, current) == CurrentInput(source, current)
  }

  /**
   A selection is accepted exactly when both requests are within bounds, no other
   field changed, the current input is intact, and the selected history embeds into
   the original one; a refusal names the first of these that fails.
   */
  method ValidateSelection(source: Request, selected: Request, current: nat, measure: Measure) returns (failure: Option<Failure>)
    ensures failure == Some(BoundsExceeded) <==> !(WithinBounds(source, measure) && WithinBounds(selected, measure))
    ensures WithinBounds(source, measure) && WithinBounds(selected, measure) ==>
              (failure == Some(FieldsChanged) <==> source.fields != selected.fields)
              && (failure == Some(CurrentInputChanged) <==> source.fields == selected.fields && !SameInput(source, selected, current))
              && (failure.None? <==> source.fields == selected.fields && SameInput(source, selected, current)
                                     && IsSubsequence(History(selected, current), History(source, current)))
  {
    var sourceFits := BoundedRequest(source, measure);
    if !sourceFits {
      return Some(BoundsExceeded);
    }
    var selectedFits := BoundedRequest(selected, measure);
    if !selectedFits {
      return Some(BoundsExceeded);
    }
    if source.fields != selected.fields {
      return Some(FieldsChanged);
    }
    if current > |source.messages| || current > |selected.messages|
       || CurrentInput(selected, current) != CurrentInput(source, current) {
      return Some(CurrentInputChanged);
    }
    var ok := FindsSubsequence(History(selected, current), History(source, current));
    return if ok then None else Some(MessagesNotSubsequence);
  }
}
