/** Folding the message list (all but the last message) into the upstream
    service's question/answer history (api/main.go:312-377). */
module History {
  import opened Text
  import opened Messages

  /** `ChatEntry`: one question/answer pair of the upstream history. */
  datatype ChatEntry = ChatEntry(question: string, answer: string)

  /** Only user and assistant messages take part in folding. */
  predicate Relevant(m: Message) {
    m.role == User || m.role == Assistant
  }

  predicate AllRelevant(xs: seq<Message>) {
    forall i :: 0 <= i < |xs| ==> Relevant(xs[i])
  }

  /** The user and assistant messages, in order. */
  function Conversation(msgs: seq<Message>): (r: seq<Message>)
    ensures AllRelevant(r)
    decreases |msgs|
  {
    if msgs == [] then []
    else
      var last := msgs[|msgs| - 1];
      Conversation(msgs[..|msgs| - 1]) + (if Relevant(last) then [last] else [])
  }

  /** Every message but the last: the part of the request that is folded. */
  function AllButLast(msgs: seq<Message>): seq<Message> {
    if msgs == [] then [] else msgs[..|msgs| - 1]
  }

  function Contents(xs: seq<Message>): seq<string>
    decreases |xs|
  {
    if xs == [] then [] else Contents(xs[..|xs| - 1]) + [xs[|xs| - 1].content]
  }

  /** Length of the run of assistant messages at the end of `xs`. */
  function TrailingAssistants(xs: seq<Message>): (r: nat)
    ensures r <= |xs|
    ensures xs != [] && xs[|xs| - 1].role == Assistant ==> r >= 1
    decreases |xs|
  {
    if xs == [] || xs[|xs| - 1].role != Assistant then 0
    else 1 + TrailingAssistants(xs[..|xs| - 1])
  }

  /** Length of the run of user messages at the end of `xs`. */
  function TrailingUsers(xs: seq<Message>): (r: nat)
    ensures r <= |xs|
    ensures xs != [] && xs[|xs| - 1].role == User ==> r >= 1
    decreases |xs|
  {
    if xs == [] || xs[|xs| - 1].role != User then 0
    else 1 + TrailingUsers(xs[..|xs| - 1])
  }

  /** Where the last block of a conversation starts: before its run of
      user messages and its run of assistant messages. */
  function BlockStart(xs: seq<Message>): (p: nat)
    requires AllRelevant(xs)
    ensures p <= |xs| - TrailingAssistants(xs)
    ensures xs != [] ==> p < |xs|
  {
    var body := xs[..|xs| - TrailingAssistants(xs)];
    |body| - TrailingUsers(body)
  }

  /** The user messages of the last block. */
  function UserRun(xs: seq<Message>): seq<Message>
    requires AllRelevant(xs)
  {
    xs[BlockStart(xs)..|xs| - TrailingAssistants(xs)]
  }

  /** The entry the last block gives: its user contents joined by "\n",
      and the content of its LAST assistant message ("" if none). */
  function LastEntry(xs: seq<Message>): ChatEntry
    requires AllRelevant(xs) && xs != []
  {
    ChatEntry(JoinLines(Contents(UserRun(xs))),
              if TrailingAssistants(xs) == 0 then "" else xs[|xs| - 1].content)
  }

  /** Reference definition of the folded history of a conversation: it is cut
      into blocks, each a maximal run of user messages followed by a maximal
      run of assistant messages (only the first block may have no user
      message), and each block gives one entry. */
  function Turns(xs: seq<Message>): seq<ChatEntry>
    requires AllRelevant(xs)
    decreases |xs|
  {
    if xs == [] then [] else Turns(xs[..BlockStart(xs)]) + [LastEntry(xs)]
  }

  /** The entry still being built by the fold, if any. */
  function Pending(question: string, answer: string, hasQuestion: bool): seq<ChatEntry> {
    if hasQuestion then [ChatEntry(question, answer)] else []
  }

  /** The loop state of the fold after the conversation `xs`: the entries
      flushed so far followed by the pending entry are the folded history of
      `xs`; a question is pending iff `xs` is non-empty, and an answer iff
      `xs` ends with an assistant message. */
  predicate FoldState(xs: seq<Message>, history: seq<ChatEntry>, question: string, answer: string,
                      hasQuestion: bool, hasAnswer: bool)
  {
    && AllRelevant(xs)
    && (hasQuestion <==> xs != [])
    && (hasAnswer <==> hasQuestion && TrailingAssistants(xs) > 0)
    && (!hasAnswer ==> answer == "")
    && history + Pending(question, answer, hasQuestion) == Turns(xs)
  }

  /** The folding loop of the handler: four accumulator variables, one
      flush per completed pair and one final flush. Only the messages before
      the last one are folded; other roles are skipped. */
  method FoldHistory(msgs: seq<Message>) returns (history: seq<ChatEntry>)
    ensures history == Turns(Conversation(AllButLast(msgs)))
    ensures |msgs| <= 1 ==> history == []
  {
    history := [];
    var currentQuestion, currentAnswer := "", "";
    var hasQuestion, hasAnswer := false, false;
    ghost var xs: seq<Message> := [];
    var i := 0;
    while i < |msgs| - 1
      invariant 0 <= i <= |AllButLast(msgs)|
      invariant xs == Conversation(msgs[..i])
      invariant FoldState(xs, history, currentQuestion, currentAnswer, hasQuestion, hasAnswer)
    {
      var msg := msgs[i];
      NextConversation(msgs, i, xs);
      if msg.role == User {
        if hasQuestion && hasAnswer {
          FoldUserFlush(xs, msg, history, currentQuestion, currentAnswer);
          history := history + [ChatEntry(currentQuestion, currentAnswer)];
          currentQuestion := msg.content;
          currentAnswer := "";
          hasQuestion := true;
          hasAnswer := false;
        } else if hasQuestion {
          FoldUserMerge(xs, msg, history, currentQuestion, currentAnswer);
          currentQuestion := currentQuestion + "\n" + msg.content;
        } else {
          FoldUserFirst(xs, msg, history, currentQuestion, currentAnswer, hasAnswer);
          currentQuestion := msg.content;
          hasQuestion := true;
        }
        xs := xs + [msg];
      } else if msg.role == Assistant {
        if hasQuestion {
          FoldAssistantAnswer(xs, msg, history, currentQuestion, currentAnswer, hasAnswer);
          currentAnswer := msg.content;
          hasAnswer := true;
        } else if hasAnswer {
          // unreachable: an answer is only pending with a question
          assert false;
          currentAnswer := currentAnswer + "\n" + msg.content;
        } else {
          FoldAssistantFirst(xs, msg, history, currentQuestion, currentAnswer);
          currentQuestion := "";
          currentAnswer := msg.content;
          hasQuestion := true;
          hasAnswer := true;
        }
        xs := xs + [msg];
      }
      i := i + 1;
    }
    assert msgs[..i] == AllButLast(msgs);
    FoldFinal(xs, history, currentQuestion, currentAnswer, hasQuestion, hasAnswer);
    if hasQuestion {
      if hasAnswer {
        history := history + [ChatEntry(currentQuestion, currentAnswer)];
      } else {
        history := history + [ChatEntry(currentQuestion, "")];
      }
    }
  }

  lemma FoldUserFlush(xs: seq<Message>, m: Message, history: seq<ChatEntry>, question: string, answer: string)
    requires FoldState(xs, history, question, answer, true, true) && m.role == User
    ensures FoldState(xs + [m], history + [ChatEntry(question, answer)], m.content, "", true, false)
  {
    SnocUserNew(xs, m);
  }

  lemma FoldUserMerge(xs: seq<Message>, m: Message, history: seq<ChatEntry>, question: string, answer: string)
    requires FoldState(xs, history, question, answer, true, false) && m.role == User
    ensures FoldState(xs + [m], history, question + "\n" + m.content, answer, true, false)
  {
    SnocUserMerge(xs, m);
    var t := Turns(xs);
    assert t == history + [ChatEntry(question, answer)];
    assert t[..|t| - 1] == history;
  }

  lemma FoldUserFirst(xs: seq<Message>, m: Message, history: seq<ChatEntry>, question: string, answer: string,
                      hasAnswer: bool)
    requires FoldState(xs, history, question, answer, false, hasAnswer) && m.role == User
    ensures FoldState(xs + [m], history, m.content, answer, true, hasAnswer)
  {
    SnocUserNew(xs, m);
  }

  lemma FoldAssistantAnswer(xs: seq<Message>, m: Message, history: seq<ChatEntry>, question: string, answer: string,
                            hasAnswer: bool)
    requires FoldState(xs, history, question, answer, true, hasAnswer) && m.role == Assistant
    ensures FoldState(xs + [m], history, question, m.content, true, true)
  {
    SnocAssistant(xs, m);
    var t := Turns(xs);
    assert t == history + [ChatEntry(question, answer)];
    assert t[..|t| - 1] == history;
  }

  lemma FoldAssistantFirst(xs: seq<Message>, m: Message, history: seq<ChatEntry>, question: string, answer: string)
    requires FoldState(xs, history, question, answer, false, false) && m.role == Assistant
    ensures FoldState(xs + [m], history, "", m.content, true, true)
  {
    SnocAssistant(xs, m);
  }

  /** The final flush completes the folded history. */
  lemma FoldFinal(xs: seq<Message>, history: seq<ChatEntry>, question: string, answer: string,
                  hasQuestion: bool, hasAnswer: bool)
    requires FoldState(xs, history, question, answer, hasQuestion, hasAnswer)
    ensures hasQuestion ==> history + [ChatEntry(question, if hasAnswer then answer else "")] == Turns(xs)
    ensures !hasQuestion ==> history == Turns(xs)
  {
    if !hasQuestion {
      assert history + [] == history;
    }
  }

  /** One more message extends the conversation by at most that message. */
  lemma ConversationStep(msgs: seq<Message>, i: nat)
    requires i < |msgs|
    ensures Conversation(msgs[..i + 1]) == Conversation(msgs[..i]) + (if Relevant(msgs[i]) then [msgs[i]] else [])
  {
    assert msgs[..i + 1][..i] == msgs[..i];
  }

  /** The fold's ghost conversation after message `i`: one message longer
      when that message is a user or assistant message, the same otherwise. */
  lemma NextConversation(msgs: seq<Message>, i: nat, xs: seq<Message>)
    requires i < |msgs| && xs == Conversation(msgs[..i])
    ensures msgs[i].role == User || msgs[i].role == Assistant ==> xs + [msgs[i]] == Conversation(msgs[..i + 1])
    ensures msgs[i].role != User && msgs[i].role != Assistant ==> xs == Conversation(msgs[..i + 1])
  {
    ConversationStep(msgs, i);
  }

  /** A non-empty conversation folds to a non-empty history. */
  lemma TurnsNonEmpty(xs: seq<Message>)
    requires AllRelevant(xs)
    ensures xs != [] <==> Turns(xs) != []
  {
  }

  /** The last block after one more assistant message: same start, same
      users, one more assistant. */
  lemma BlockAfterAssistant(xs: seq<Message>, m: Message)
    requires AllRelevant(xs) && m.role == Assistant
    ensures AllRelevant(xs + [m])
    ensures TrailingAssistants(xs + [m]) == TrailingAssistants(xs) + 1
    ensures BlockStart(xs + [m]) == BlockStart(xs)
    ensures UserRun(xs + [m]) == UserRun(xs)
  {
    var ys := xs + [m];
    assert ys[..|xs|] == xs;
    var a := TrailingAssistants(xs);
    assert ys[..|ys| - (a + 1)] == xs[..|xs| - a];
  }

  /** The last block after one more user message that follows an answer (or
      opens the conversation): a new block holding only that message. */
  lemma BlockAfterUserNew(xs: seq<Message>, m: Message)
    requires AllRelevant(xs) && m.role == User
    requires xs == [] || TrailingAssistants(xs) > 0
    ensures AllRelevant(xs + [m])
    ensures TrailingAssistants(xs + [m]) == 0
    ensures BlockStart(xs + [m]) == |xs|
    ensures UserRun(xs + [m]) == [m]
  {
    UserSnoc(xs, m);
    if xs != [] {
      assert xs[|xs| - 1].role == Assistant;
    }
    NewBlockStart(xs + [m]);
    assert (xs + [m])[|xs|..|xs| + 1] == [m];
  }

  /** A conversation ending in exactly one user message and no assistant
      message has its last block start at that message. */
  lemma NewBlockStart(ys: seq<Message>)
    requires AllRelevant(ys) && TrailingAssistants(ys) == 0 && TrailingUsers(ys) == 1
    ensures BlockStart(ys) == |ys| - 1
  {
    assert ys[..|ys| - 0] == ys;
  }

  /** One more user message ends the run of assistants and extends the run
      of users. */
  lemma UserSnoc(xs: seq<Message>, m: Message)
    requires AllRelevant(xs) && m.role == User
    ensures AllRelevant(xs + [m])
    ensures TrailingAssistants(xs + [m]) == 0
    ensures TrailingUsers(xs + [m]) == 1 + TrailingUsers(xs)
  {
    assert (xs + [m])[..|xs|] == xs;
  }

  /** The last block after one more user message that follows a question:
      same start, one more user. */
  lemma BlockAfterUserMerge(xs: seq<Message>, m: Message)
    requires AllRelevant(xs) && m.role == User
    requires xs != [] && TrailingAssistants(xs) == 0
    ensures AllRelevant(xs + [m])
    ensures TrailingAssistants(xs + [m]) == 0
    ensures BlockStart(xs + [m]) == BlockStart(xs)
    ensures UserRun(xs + [m]) == UserRun(xs) + [m]
    ensures UserRun(xs) != []
  {
    var ys := xs + [m];
    assert ys[..|xs|] == xs;
    assert ys[..|ys| - 0] == ys;
    assert xs[..|xs| - 0] == xs;
    assert TrailingUsers(ys) == TrailingUsers(xs) + 1;
    assert ys[BlockStart(xs)..] == xs[BlockStart(xs)..] + [m];
  }

  lemma ContentsSnoc(xs: seq<Message>, m: Message)
    ensures Contents(xs + [m]) == Contents(xs) + [m.content]
  {
    assert (xs + [m])[..|xs|] == xs;
  }

  lemma JoinLinesSnoc(parts: seq<string>, p: string)
    requires parts != []
    ensures JoinLines(parts + [p]) == JoinLines(parts) + "\n" + p
  {
    assert (parts + [p])[..|parts|] == parts;
  }

  /** `history` with the answer of its last entry replaced. */
  function WithAnswer(history: seq<ChatEntry>, answer: string): seq<ChatEntry>
    requires history != []
  {
    history[..|history| - 1] + [ChatEntry(history[|history| - 1].question, answer)]
  }

  /** An assistant message sets the answer of the last entry, replacing any
      earlier answer; with no entry yet it makes one with an empty question. */
  lemma SnocAssistant(xs: seq<Message>, m: Message)
    requires AllRelevant(xs) && m.role == Assistant
    ensures AllRelevant(xs + [m])
    ensures TrailingAssistants(xs + [m]) > 0
    ensures xs == [] ==> Turns(xs + [m]) == [ChatEntry("", m.content)]
    ensures xs != [] ==> Turns(xs) != []
    ensures xs != [] ==> Turns(xs + [m]) == WithAnswer(Turns(xs), m.content)
  {
    BlockAfterAssistant(xs, m);
    var ys := xs + [m];
    assert ys[..BlockStart(ys)] == xs[..BlockStart(xs)];
    if xs == [] {
      assert UserRun(ys) == [];
    }
  }

  /** A user message after an answer starts a new entry holding only it
      (as does the first user message of the conversation). */
  lemma SnocUserNew(xs: seq<Message>, m: Message)
    requires AllRelevant(xs) && m.role == User
    requires xs == [] || TrailingAssistants(xs) > 0
    ensures AllRelevant(xs + [m])
    ensures TrailingAssistants(xs + [m]) == 0
    ensures Turns(xs + [m]) == Turns(xs) + [ChatEntry(m.content, "")]
  {
    var ys := xs + [m];
    BlockAfterUserNew(xs, m);
    assert ys[..|xs|] == xs;
    assert Contents([m]) == [m.content] by {
      ContentsSnoc([], m);
      assert [] + [m] == [m];
    }
    assert LastEntry(ys) == ChatEntry(m.content, "");
  }

  /** A user message after an unanswered question is appended to it with "\n". */
  lemma SnocUserMerge(xs: seq<Message>, m: Message)
    requires AllRelevant(xs) && m.role == User
    requires xs != [] && TrailingAssistants(xs) == 0
    ensures AllRelevant(xs + [m])
    ensures TrailingAssistants(xs + [m]) == 0
    ensures Turns(xs) != [] && Turns(xs)[|Turns(xs)| - 1].answer == ""
    ensures Turns(xs + [m]) == Turns(xs)[..|Turns(xs)| - 1] + [ChatEntry(Turns(xs)[|Turns(xs)| - 1].question + "\n" + m.content, "")]
  {
    var ys := xs + [m];
    BlockAfterUserMerge(xs, m);
    assert ys[..BlockStart(ys)] == xs[..BlockStart(xs)];
    ContentsSnoc(UserRun(xs), m);
    ContentsLength(UserRun(xs));
    JoinLinesSnoc(Contents(UserRun(xs)), m.content);
  }

  lemma {:induction false} ContentsLength(xs: seq<Message>)
    ensures |Contents(xs)| == |xs|
    decreases |xs|
  {
    if xs != [] {
      ContentsLength(xs[..|xs| - 1]);
    }
  }

  /** A run of user messages with no answer folds to one entry: their
      contents joined by "\n", with an empty answer. */
  lemma {:induction false} UsersMerged(us: seq<Message>)
    requires us != []
    requires forall i :: 0 <= i < |us| ==> us[i].role == User
    ensures AllRelevant(us)
    ensures Turns(us) == [ChatEntry(JoinLines(Contents(us)), "")]
    decreases |us|
  {
    var init := us[..|us| - 1];
    var m := us[|us| - 1];
    assert init + [m] == us;
    if init == [] {
      SnocUserNew(init, m);
      assert Contents(us) == [m.content] by { ContentsSnoc([], m); }
    } else {
      UsersMerged(init);
      TrailingAssistantsOfUser(init);
      SnocUserMerge(init, m);
      ContentsSnoc(init, m);
      ContentsLength(init);
      JoinLinesSnoc(Contents(init), m.content);
    }
  }

  lemma TrailingAssistantsOfUser(xs: seq<Message>)
    requires xs != [] && xs[|xs| - 1].role == User
    ensures TrailingAssistants(xs) == 0
  {
  }

  /** The fold state before any message. */
  lemma FoldStart()
    ensures FoldState([], [], "", "", false, false)
  {
    assert [] + Pending("", "", false) == [];
  }

  /** One question and one answer give one entry. */
  lemma QuestionAnswered(q: string, answer: string)
    ensures AllRelevant([Message(User, q), Message(Assistant, answer)])
    ensures Turns([Message(User, q), Message(Assistant, answer)]) == [ChatEntry(q, answer)]
  {
    var u, a := Message(User, q), Message(Assistant, answer);
    FoldStart();
    FoldUserFirst([], u, [], "", "", false);
    assert [] + [u] == [u];
    FoldAssistantAnswer([u], a, [], q, "", false);
    assert [u] + [a] == [u, a];
    FoldFinal([u, a], [], q, answer, true, true);
  }

  /** A later assistant message replaces the answer instead of being
      appended: only the last reply of a block survives. */
  lemma AnswerReplaced(q: string, first: string, second: string)
    ensures Turns([Message(User, q), Message(Assistant, first), Message(Assistant, second)])
            == [ChatEntry(q, second)]
  {
    var u, a1, a2 := Message(User, q), Message(Assistant, first), Message(Assistant, second);
    FoldStart();
    FoldUserFirst([], u, [], "", "", false);
    assert [] + [u] == [u];
    FoldAssistantAnswer([u], a1, [], q, "", false);
    assert [u] + [a1] == [u, a1];
    FoldAssistantAnswer([u, a1], a2, [], q, first, true);
    assert [u, a1] + [a2] == [u, a1, a2];
    FoldFinal([u, a1, a2], [], q, second, true, true);
  }

  /** A leading assistant message gives an entry with an empty question. */
  lemma LeadingAssistant(content: string)
    ensures Turns([Message(Assistant, content)]) == [ChatEntry("", content)]
  {
    var a := Message(Assistant, content);
    FoldStart();
    FoldAssistantFirst([], a, [], "", "");
    assert [] + [a] == [a];
    FoldFinal([a], [], "", content, true, true);
  }

  /** An empty user message that is never answered gives an entry whose
      question and answer are both empty. */
  lemma EmptyEntry()
    ensures Turns([Message(User, "")]) == [ChatEntry("", "")]
  {
    var u := Message(User, "");
    FoldStart();
    FoldUserFirst([], u, [], "", "", false);
    assert [] + [u] == [u];
    FoldFinal([u], [], "", "", true, false);
  }

  /** When the second part of a conversation opens with a user message and
      the first part ends with an answer, the two fold independently. */
  lemma {:induction false} TurnsAtBoundary(a: seq<Message>, b: seq<Message>)
    requires AllRelevant(a) && AllRelevant(b)
    requires a != [] && a[|a| - 1].role == Assistant
    requires b != [] && b[0].role == User
    ensures AllRelevant(a + b)
    ensures Turns(a + b) == Turns(a) + Turns(b)
    decreases |b|
  {
    var init := b[..|b| - 1];
    var m := b[|b| - 1];
    assert init + [m] == b;
    assert (a + init) + [m] == a + b;
    if init == [] {
      BoundaryBase(a, m);
    } else {
      assert AllRelevant(a + init) && Turns(a + init) == Turns(a) + Turns(init)
        && TrailingAssistants(a + init) == TrailingAssistants(init) by {
        TurnsAtBoundary(a, init);
        TrailingAssistantsAppend(a, init);
      }
      SplitSurvivesSnoc(a, init, m);
    }
  }

  lemma BoundaryBase(a: seq<Message>, m: Message)
    requires AllRelevant(a) && a != [] && a[|a| - 1].role == Assistant
    requires m.role == User
    ensures AllRelevant(a + [m])
    ensures Turns(a + [m]) == Turns(a) + Turns([m])
  {
    var e := ChatEntry(m.content, "");
    assert Turns(a + [m]) == Turns(a) + [e] by {
      SnocUserNew(a, m);
    }
    assert Turns([m]) == [e] by {
      SnocUserNew([], m);
      assert [] + [m] == [m];
    }
  }

  /** One more message keeps a history split `Turns(a) + Turns(b)` in step. */
  lemma SplitSurvivesSnoc(a: seq<Message>, b: seq<Message>, m: Message)
    requires AllRelevant(a) && AllRelevant(b) && Relevant(m)
    requires a != [] && b != []
    requires Turns(a + b) == Turns(a) + Turns(b)
    requires TrailingAssistants(a + b) == TrailingAssistants(b)
    ensures AllRelevant(a + b + [m]) && AllRelevant(b + [m])
    ensures Turns(a + b + [m]) == Turns(a) + Turns(b + [m])
  {
    if m.role == User && TrailingAssistants(b) > 0 {
      SplitSnocNew(a, b, m);
    } else if m.role == User {
      SplitSnocMerge(a, b, m);
    } else {
      SplitSnocAssistant(a, b, m);
    }
  }

  lemma SplitSnocNew(a: seq<Message>, b: seq<Message>, m: Message)
    requires AllRelevant(a) && AllRelevant(b) && m.role == User
    requires a != [] && b != []
    requires Turns(a + b) == Turns(a) + Turns(b)
    requires TrailingAssistants(a + b) == TrailingAssistants(b) > 0
    ensures AllRelevant(a + b + [m]) && AllRelevant(b + [m])
    ensures Turns(a + b + [m]) == Turns(a) + Turns(b + [m])
  {
    var ta, tb, tm := Turns(a), Turns(b), [ChatEntry(m.content, "")];
    assert ta + tb + tm == ta + (tb + tm);
    SnocUserNew(a + b, m);
    SnocUserNew(b, m);
  }

  lemma SplitSnocMerge(a: seq<Message>, b: seq<Message>, m: Message)
    requires AllRelevant(a) && AllRelevant(b) && m.role == User
    requires a != [] && b != []
    requires Turns(a + b) == Turns(a) + Turns(b)
    requires TrailingAssistants(a + b) == TrailingAssistants(b) == 0
    ensures AllRelevant(a + b + [m]) && AllRelevant(b + [m])
    ensures Turns(a + b + [m]) == Turns(a) + Turns(b + [m])
  {
    SnocUserMerge(a + b, m);
    SnocUserMerge(b, m);
    var tb := Turns(b);
    LastReplaced(Turns(a), tb, ChatEntry(tb[|tb| - 1].question + "\n" + m.content, ""));
  }

  lemma SplitSnocAssistant(a: seq<Message>, b: seq<Message>, m: Message)
    requires AllRelevant(a) && AllRelevant(b) && m.role == Assistant
    requires a != [] && b != []
    requires Turns(a + b) == Turns(a) + Turns(b)
    ensures AllRelevant(a + b + [m]) && AllRelevant(b + [m])
    ensures Turns(a + b + [m]) == Turns(a) + Turns(b + [m])
  {
    SnocAssistant(a + b, m);
    SnocAssistant(b, m);
    WithAnswerAppend(Turns(a), Turns(b), m.content);
  }

  lemma WithAnswerAppend(ta: seq<ChatEntry>, tb: seq<ChatEntry>, answer: string)
    requires tb != []
    ensures WithAnswer(ta + tb, answer) == ta + WithAnswer(tb, answer)
  {
    LastReplaced(ta, tb, ChatEntry(tb[|tb| - 1].question, answer));
  }

  lemma LastReplaced(ta: seq<ChatEntry>, tb: seq<ChatEntry>, e: ChatEntry)
    requires tb != []
    ensures (ta + tb)[|ta + tb| - 1] == tb[|tb| - 1]
    ensures (ta + tb)[..|ta + tb| - 1] + [e] == ta + (tb[..|tb| - 1] + [e])
  {
  }

  /** The trailing assistant run of `a + b` is that of `b` once `b` holds a
      user message at its front. */
  lemma {:induction false} TrailingAssistantsAppend(a: seq<Message>, b: seq<Message>)
    requires b != [] && b[0].role == User
    ensures TrailingAssistants(a + b) == TrailingAssistants(b)
    decreases |b|
  {
    var ab := a + b;
    if b[|b| - 1].role == Assistant {
      var init := b[..|b| - 1];
      assert init != [];
      assert ab[..|ab| - 1] == a + init;
      TrailingAssistantsAppend(a, init);
    }
  }
}
