/**
 * The Chainlit helpers of src/podflix/utils/chainlit_utils/general.py: the
 * password check and the rebuilding of a chat history from the steps stored
 * with a thread.
 */
module ChainlitGeneral {
  import opened Wrappers
  import opened EnvConfig

  /** A Chainlit user: identifier and metadata. */
  datatype User = User(identifier: string, metadata: map<string, string>)

  const InvalidCredentials := "Invalid credentials"

  /** `simple_auth_callback`: the admin user for the configured name and password, an error otherwise. */
  function SimpleAuthCallback(settings: Settings, username: string, password: string): Result<User, string> {
    if (username, password) == (settings.chainlitUserName, settings.chainlitUserPassword) then
      Success(User(username, map["role" := "admin", "provider" := "credentials"]))
    else
      Failure(InvalidCredentials)
  }

  /** Authentication succeeds exactly for the configured pair, and yields an admin with the given name. */
  lemma SimpleAuthCallbackIff(settings: Settings, username: string, password: string)
    ensures SimpleAuthCallback(settings, username, password).Success? <==>
      username == settings.chainlitUserName && password == settings.chainlitUserPassword
    ensures var r := SimpleAuthCallback(settings, username, password);
      r.Success? ==> (r.value.identifier == username && r.value.metadata["role"] == "admin"
        && r.value.metadata["provider"] == "credentials")
    ensures var r := SimpleAuthCallback(settings, username, password);
      r.Failure? ==> r.error == InvalidCredentials
  {
  }

  // ---------------------------------------------------------------------------
  // Chat history

  const UserMessage := "user_message"
  const AssistantMessage := "assistant_message"

  /**
   * A stored step: its type, its output and its `createdAt` sort key (an integer here;
   * any totally ordered key behaves the same).
   */
  datatype Step = Step(kind: string, output: string, createdAt: int)

  datatype ChatMessage = HumanMessage(content: string) | AiMessage(content: string)

  predicate IsChatStep(s: Step) {
    s.kind == UserMessage || s.kind == AssistantMessage
  }

  /** The comprehension keeping the user and assistant messages, in order. */
  function ChatSteps(steps: seq<Step>): seq<Step>
    decreases |steps|
  {
    if steps == [] then []
    else
      var init := ChatSteps(steps[..|steps| - 1]);
      if IsChatStep(steps[|steps| - 1]) then init + [steps[|steps| - 1]] else init
  }

  /** Exactly the user and assistant messages survive the filter. */
  lemma {:induction false} ChatStepsMembers(steps: seq<Step>, x: Step)
    ensures x in ChatSteps(steps) <==> x in steps && IsChatStep(x)
    decreases |steps|
  {
    if steps != [] {
      var init := steps[..|steps| - 1];
      ChatStepsMembers(init, x);
      assert steps == init + [steps[|steps| - 1]];
    }
  }

  /** Every step the filter keeps is a user or assistant message, and it keeps no more steps than it was given. */
  lemma {:induction false} ChatStepsAllChat(steps: seq<Step>)
    ensures forall k :: 0 <= k < |ChatSteps(steps)| ==> IsChatStep(ChatSteps(steps)[k])
    ensures |ChatSteps(steps)| <= |steps|
    decreases |steps|
  {
    if steps != [] {
      ChatStepsAllChat(steps[..|steps| - 1]);
    }
  }

  /** The filter at a step appended to the thread. */
  lemma ChatStepsSnoc(steps: seq<Step>, y: Step)
    ensures ChatSteps(steps + [y]) == ChatSteps(steps) + (if IsChatStep(y) then [y] else [])
  {
    assert (steps + [y])[..|steps|] == steps;
    assert ChatSteps(steps) + [] == ChatSteps(steps);
  }

  /**
   * The filter works piece by piece: filtering two stretches of a thread and joining
   * the results gives the filtered thread. With `ChatStepsMembers` this pins down the
   * kept steps and their order exactly.
   */
  lemma {:induction false} ChatStepsAppend(a: seq<Step>, b: seq<Step>)
    ensures ChatSteps(a + b) == ChatSteps(a) + ChatSteps(b)
    decreases |b|
  {
    if b == [] {
      assert a + b == a;
    } else {
      var init := b[..|b| - 1];
      var y := b[|b| - 1];
      assert b == init + [y];
      assert a + b == (a + init) + [y];
      ChatStepsAppend(a, init);
      ChatStepsSnoc(a + init, y);
      ChatStepsSnoc(init, y);
    }
  }

  /** The steps whose key is `key`, in order. */
  function WithKey(steps: seq<Step>, key: int): seq<Step>
    decreases |steps|
  {
    if steps == [] then []
    else
      var init := WithKey(steps[..|steps| - 1], key);
      if steps[|steps| - 1].createdAt == key then init + [steps[|steps| - 1]] else init
  }

  predicate SortedByKey(steps: seq<Step>) {
    forall i, j :: 0 <= i < j < |steps| ==> steps[i].createdAt <= steps[j].createdAt
  }

  /** `x` placed after every element whose key is not greater than its own, counted from the end. */
  function Insert(sorted: seq<Step>, x: Step): seq<Step>
    decreases |sorted|
  {
    if sorted == [] || sorted[|sorted| - 1].createdAt <= x.createdAt then sorted + [x]
    else Insert(sorted[..|sorted| - 1], x) + [sorted[|sorted| - 1]]
  }

  /** `sorted(steps, key=lambda x: x["createdAt"])`: a stable sort, here by insertion. */
  function SortByCreatedAt(steps: seq<Step>): seq<Step>
    decreases |steps|
  {
    if steps == [] then [] else Insert(SortByCreatedAt(steps[..|steps| - 1]), steps[|steps| - 1])
  }

  lemma {:induction false} InsertPermutes(sorted: seq<Step>, x: Step)
    ensures multiset(Insert(sorted, x)) == multiset(sorted) + multiset{x}
    decreases |sorted|
  {
    if !(sorted == [] || sorted[|sorted| - 1].createdAt <= x.createdAt) {
      var init, last := sorted[..|sorted| - 1], sorted[|sorted| - 1];
      InsertPermutes(init, x);
      assert sorted == init + [last];
    }
  }

  /** The first element of an insertion is either the old first element or `x`. */
  lemma {:induction false} InsertHead(sorted: seq<Step>, x: Step)
    ensures |Insert(sorted, x)| == |sorted| + 1
    ensures Insert(sorted, x)[0] == x || (sorted != [] && Insert(sorted, x)[0] == sorted[0])
    decreases |sorted|
  {
    if !(sorted == [] || sorted[|sorted| - 1].createdAt <= x.createdAt) {
      InsertHead(sorted[..|sorted| - 1], x);
    }
  }

  lemma {:induction false} InsertSorted(sorted: seq<Step>, x: Step)
    requires SortedByKey(sorted)
    ensures SortedByKey(Insert(sorted, x))
    decreases |sorted|
  {
    if sorted == [] || sorted[|sorted| - 1].createdAt <= x.createdAt {
      var r := sorted + [x];
      assert Insert(sorted, x) == r;
      forall i, j | 0 <= i < j < |r| ensures r[i].createdAt <= r[j].createdAt {
        if j == |sorted| && i < |sorted| - 1 {
          assert sorted[i].createdAt <= sorted[|sorted| - 1].createdAt;
        }
      }
    } else {
      var init, last := sorted[..|sorted| - 1], sorted[|sorted| - 1];
      InsertSorted(init, x);
      InsertPermutes(init, x);
      var ins := Insert(init, x);
      var r := ins + [last];
      assert Insert(sorted, x) == r;
      forall k | 0 <= k < |ins| ensures ins[k].createdAt <= last.createdAt {
        assert ins[k] in multiset(init) + multiset{x};
        if ins[k] in multiset(init) {
          var m :| 0 <= m < |init| && init[m] == ins[k];
        }
      }
      forall i, j | 0 <= i < j < |r| ensures r[i].createdAt <= r[j].createdAt {
        if j < |ins| {
          assert r[i] == ins[i] && r[j] == ins[j];
        }
      }
    }
  }

  /** The steps of key `key` in `steps` followed by `y`. */
  lemma WithKeySnoc(steps: seq<Step>, y: Step, key: int)
    ensures WithKey(steps + [y], key) == WithKey(steps, key) + (if y.createdAt == key then [y] else [])
  {
    assert (steps + [y])[..|steps|] == steps;
    assert WithKey(steps, key) + [] == WithKey(steps, key);
  }

  /** Inserting `x` puts it after the steps of its key already present: the steps of every key keep their order. */
  lemma {:induction false} InsertStable(sorted: seq<Step>, x: Step, key: int)
    ensures WithKey(Insert(sorted, x), key) == WithKey(sorted, key) + (if x.createdAt == key then [x] else [])
    decreases |sorted|
  {
    if sorted == [] || sorted[|sorted| - 1].createdAt <= x.createdAt {
      WithKeySnoc(sorted, x, key);
    } else {
      var init, last := sorted[..|sorted| - 1], sorted[|sorted| - 1];
      var ins := Insert(init, x);
      InsertStable(init, x, key);
      assert Insert(sorted, x) == ins + [last];
      assert sorted == init + [last];
      WithKeySnoc(ins, last, key);
      WithKeySnoc(init, last, key);
      var w, xs, ls := WithKey(init, key), (if x.createdAt == key then [x] else []), (if last.createdAt == key then [last] else []);
      assert xs == [] || ls == [];
      assert (w + xs) + ls == (w + ls) + xs;
    }
  }

  /** The sort result is ordered by `createdAt`. */
  lemma {:induction false} SortSorted(steps: seq<Step>)
    ensures SortedByKey(SortByCreatedAt(steps))
    decreases |steps|
  {
    if steps != [] {
      SortSorted(steps[..|steps| - 1]);
      InsertSorted(SortByCreatedAt(steps[..|steps| - 1]), steps[|steps| - 1]);
    }
  }

  /** The sort result is a permutation of its input. */
  lemma {:induction false} SortPermutes(steps: seq<Step>)
    ensures multiset(SortByCreatedAt(steps)) == multiset(steps)
    ensures |SortByCreatedAt(steps)| == |steps|
    decreases |steps|
  {
    if steps != [] {
      var init := steps[..|steps| - 1];
      SortPermutes(init);
      InsertPermutes(SortByCreatedAt(init), steps[|steps| - 1]);
      assert steps == init + [steps[|steps| - 1]];
    }
  }

  /** The sort is stable: the steps sharing a `createdAt` come out in their original order. */
  lemma {:induction false} SortStable(steps: seq<Step>, key: int)
    ensures WithKey(SortByCreatedAt(steps), key) == WithKey(steps, key)
    decreases |steps|
  {
    if steps != [] {
      var init := steps[..|steps| - 1];
      SortStable(init, key);
      InsertStable(SortByCreatedAt(init), steps[|steps| - 1], key);
    }
  }

  /** Filtering by kind and selecting one key commute: the steps of a key that the filter keeps are in thread order. */
  lemma {:induction false} ChatStepsWithKey(steps: seq<Step>, key: int)
    ensures WithKey(ChatSteps(steps), key) == ChatSteps(WithKey(steps, key))
    decreases |steps|
  {
    if steps != [] {
      var init := steps[..|steps| - 1];
      var y := steps[|steps| - 1];
      assert steps == init + [y];
      ChatStepsWithKey(init, key);
      ChatStepsSnoc(init, y);
      WithKeySnoc(init, y, key);
      WithKeySnoc(ChatSteps(init), y, key);
      ChatStepsSnoc(WithKey(init, key), y);
      if !IsChatStep(y) {
        assert WithKey(ChatSteps(init), key) + [] == WithKey(ChatSteps(init), key);
      }
    }
  }

  /**
   * After sorting, the user and assistant steps that share a `createdAt` appear in the
   * order they have in the thread.
   */
  lemma TiesInThreadOrder(steps: seq<Step>, key: int)
    ensures WithKey(SortByCreatedAt(ChatSteps(steps)), key) == ChatSteps(WithKey(steps, key))
  {
    SortStable(ChatSteps(steps), key);
    ChatStepsWithKey(steps, key);
  }

  /** The message a chat step becomes. */
  function ToMessage(s: Step): ChatMessage
    requires IsChatStep(s)
  {
    if s.kind == UserMessage then HumanMessage(s.output) else AiMessage(s.output)
  }

  /** The messages the history loop adds for the given steps, in order. */
  function ToMessages(steps: seq<Step>): seq<ChatMessage>
    decreases |steps|
  {
    if steps == [] then []
    else
      var init := ToMessages(steps[..|steps| - 1]);
      var s := steps[|steps| - 1];
      if s.kind == UserMessage then init + [HumanMessage(s.output)]
      else if s.kind == AssistantMessage then init + [AiMessage(s.output)]
      else init
  }

  /** The history `create_message_history_from_db_thread` builds. */
  function History(steps: seq<Step>): seq<ChatMessage> {
    ToMessages(SortByCreatedAt(ChatSteps(steps)))
  }

  /** For chat steps there is one message per step: a human message for a user step, an AI message otherwise. */
  lemma {:induction false} ToMessagesNth(steps: seq<Step>, n: nat)
    requires forall k :: 0 <= k < |steps| ==> IsChatStep(steps[k])
    requires n < |steps|
    ensures |ToMessages(steps)| == |steps| && ToMessages(steps)[n] == ToMessage(steps[n])
    decreases |steps|
  {
    var m := |steps| - 1;
    var init := steps[..m];
    assert forall k :: 0 <= k < |init| ==> init[k] == steps[k];
    if n < m {
      ToMessagesNth(init, n);
    } else if m > 0 {
      ToMessagesNth(init, 0);
    }
  }

  /**
   * The history has one message per user or assistant step, ordered by `createdAt`
   * with ties in thread order; the n-th message is the translation of the n-th such step.
   */
  lemma HistoryOrdered(steps: seq<Step>, n: nat)
    requires n < |ChatSteps(steps)|
    ensures var sorted := SortByCreatedAt(ChatSteps(steps));
      |History(steps)| == |ChatSteps(steps)| == |sorted| && IsChatStep(sorted[n])
      && History(steps)[n] == ToMessage(sorted[n])
  {
    var chat := ChatSteps(steps);
    var sorted := SortByCreatedAt(chat);
    SortPermutes(chat);
    ChatStepsAllChat(steps);
    forall k | 0 <= k < |sorted| ensures IsChatStep(sorted[k]) {
      assert sorted[k] in multiset(chat);
      var m :| 0 <= m < |chat| && chat[m] == sorted[k];
    }
    ToMessagesNth(sorted, n);
  }

  /** `ChatMessageHistory`: the messages added so far. */
  class ChatMessageHistory {
    var messages: seq<ChatMessage>

    constructor ()
      ensures messages == []
    {
      messages := [];
    }

    method AddUserMessage(content: string)
      modifies this
      ensures messages == old(messages) + [HumanMessage(content)]
    {
      messages := messages + [HumanMessage(content)];
    }

    method AddAiMessage(content: string)
      modifies this
      ensures messages == old(messages) + [AiMessage(content)]
    {
      messages := messages + [AiMessage(content)];
    }
  }

  /** `create_message_history_from_db_thread`: filter, sort by `createdAt`, add each step as a message. */
  method CreateMessageHistoryFromDbThread(threadSteps: seq<Step>) returns (h: ChatMessageHistory)
    ensures fresh(h)
    ensures h.messages == History(threadSteps)
  {
    h := new ChatMessageHistory();
    var stepsMessages := SortByCreatedAt(ChatSteps(threadSteps));
    var i := 0;
    while i < |stepsMessages|
      invariant i <= |stepsMessages|
      invariant h.messages == ToMessages(stepsMessages[..i])
      decreases |stepsMessages| - i
    {
      var step := stepsMessages[i];
      assert stepsMessages[..i + 1][..i] == stepsMessages[..i];
      if step.kind == UserMessage {
        h.AddUserMessage(step.output);
      } else if step.kind == AssistantMessage {
        h.AddAiMessage(step.output);
      }
      i := i + 1;
    }
    assert stepsMessages[..i] == stepsMessages;
  }
}
