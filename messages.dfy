/** Chat messages and the normalisation that turns every system message into
    one leading user message (`convertSystemToUser`, api/main.go:915-947). */
module Messages {
  import opened Text

  /** `Message`: a role tag and its content. The role is free text, as in the
      request body; only "system", "user" and "assistant" mean anything. */
  datatype Message = Message(role: string, content: string)

  const System: string := "system"
  const User: string := "user"
  const Assistant: string := "assistant"

  /** Contents of the system messages, in order. */
  function SystemContents(msgs: seq<Message>): seq<string>
    decreases |msgs|
  {
    if msgs == [] then []
    else
      var last := msgs[|msgs| - 1];
      SystemContents(msgs[..|msgs| - 1]) + (if last.role == System then [last.content] else [])
  }

  /** The messages that are not system messages, in order. */
  function NonSystem(msgs: seq<Message>): seq<Message>
    decreases |msgs|
  {
    if msgs == [] then []
    else
      var last := msgs[|msgs| - 1];
      NonSystem(msgs[..|msgs| - 1]) + (if last.role == System then [] else [last])
  }

  /** What the `strings.Builder` of `convertSystemToUser` holds after the
      given system contents: "\n" is written before a content only when the
      builder is already non-empty. */
  function SystemText(parts: seq<string>): string
    decreases |parts|
  {
    if parts == [] then ""
    else
      var acc := SystemText(parts[..|parts| - 1]);
      (if |acc| > 0 then acc + "\n" else acc) + parts[|parts| - 1]
  }

  /** The message list after `convertSystemToUser`. */
  function Normalised(msgs: seq<Message>): seq<Message> {
    if SystemContents(msgs) == [] then msgs
    else [Message(User, SystemText(SystemContents(msgs)))] + NonSystem(msgs)
  }

  /** `convertSystemToUser`: collects the system contents into one builder and
      the other messages into a new list, then puts a user message holding the
      builder's text in front when a system message was seen. */
  method ConvertSystemToUser(msgs: seq<Message>) returns (r: seq<Message>)
    ensures r == Normalised(msgs)
    ensures forall i :: 0 <= i < |r| ==> r[i].role != System
    ensures (forall i :: 0 <= i < |msgs| ==> msgs[i].role != System) ==> r == msgs
    ensures (exists i :: 0 <= i < |msgs| && msgs[i].role == System) ==>
              |r| == |NonSystem(msgs)| + 1 &&
              r[0] == Message(User, SystemText(SystemContents(msgs))) &&
              r[1..] == NonSystem(msgs)
  {
    if |msgs| == 0 {
      NormalisedFacts(msgs);
      return msgs;
    }
    var content := "";
    var rest: seq<Message> := [];
    var found := false;
    for i := 0 to |msgs|
      invariant content == SystemText(SystemContents(msgs[..i]))
      invariant rest == NonSystem(msgs[..i])
      invariant found <==> SystemContents(msgs[..i]) != []
    {
      var m := msgs[i];
      PrefixStep(msgs, i);
      if m.role == System {
        SystemTextStep(SystemContents(msgs[..i]), m.content);
        if |content| > 0 {
          content := content + "\n";
        }
        content := content + m.content;
        found := true;
        assert content == SystemText(SystemContents(msgs[..i]) + [m.content]);
        assert SystemContents(msgs[..i + 1]) == SystemContents(msgs[..i]) + [m.content];
      } else {
        rest := rest + [m];
        assert SystemContents(msgs[..i + 1]) == SystemContents(msgs[..i]);
      }
    }
    assert msgs[..|msgs|] == msgs;
    NormalisedFacts(msgs);
    NonSystemFacts(msgs);
    r := rest;
    if found {
      r := [Message(User, content)] + rest;
    }
  }

  /** One more message extends the two filters by at most that message. */
  lemma PrefixStep(msgs: seq<Message>, i: nat)
    requires i < |msgs|
    ensures SystemContents(msgs[..i + 1]) == SystemContents(msgs[..i]) + (if msgs[i].role == System then [msgs[i].content] else [])
    ensures NonSystem(msgs[..i + 1]) == NonSystem(msgs[..i]) + (if msgs[i].role == System then [] else [msgs[i]])
  {
    assert msgs[..i + 1][..i] == msgs[..i];
  }

  lemma SystemTextStep(parts: seq<string>, p: string)
    ensures SystemText(parts + [p]) == (if |SystemText(parts)| > 0 then SystemText(parts) + "\n" else SystemText(parts)) + p
  {
    assert (parts + [p])[..|parts|] == parts;
  }

  /** No message of `msgs` is a system message. */
  predicate NoSystem(msgs: seq<Message>) {
    forall i :: 0 <= i < |msgs| ==> msgs[i].role != System
  }

  /** Every message of `msgs` is a system message. */
  predicate AllSystem(msgs: seq<Message>) {
    forall i :: 0 <= i < |msgs| ==> msgs[i].role == System
  }

  lemma RolesSnoc(init: seq<Message>, m: Message)
    ensures NoSystem(init + [m]) <==> NoSystem(init) && m.role != System
    ensures AllSystem(init + [m]) <==> AllSystem(init) && m.role == System
  {
    var msgs := init + [m];
    assert forall i :: 0 <= i < |init| ==> msgs[i] == init[i];
    assert msgs[|init|] == m;
  }

  lemma {:induction false} NonSystemHasNoSystem(msgs: seq<Message>)
    ensures NoSystem(NonSystem(msgs))
    decreases |msgs|
  {
    if msgs != [] {
      var init, last := msgs[..|msgs| - 1], msgs[|msgs| - 1];
      NonSystemHasNoSystem(init);
      if last.role == System {
        assert NonSystem(msgs) == NonSystem(init) + [];
        assert NonSystem(init) + [] == NonSystem(init);
      } else {
        RolesSnoc(NonSystem(init), last);
      }
    }
  }

  lemma {:induction false} NoSystemContents(msgs: seq<Message>)
    ensures SystemContents(msgs) == [] <==> NoSystem(msgs)
    ensures NoSystem(msgs) ==> NonSystem(msgs) == msgs
    decreases |msgs|
  {
    if msgs != [] {
      var init, last := msgs[..|msgs| - 1], msgs[|msgs| - 1];
      NoSystemContents(init);
      assert init + [last] == msgs;
      RolesSnoc(init, last);
    }
  }

  lemma {:induction false} FilterCount(msgs: seq<Message>)
    ensures |NonSystem(msgs)| + |SystemContents(msgs)| == |msgs|
    decreases |msgs|
  {
    if msgs != [] {
      FilterCount(msgs[..|msgs| - 1]);
    }
  }

  lemma {:induction false} AllSystemLeavesNothing(msgs: seq<Message>)
    ensures AllSystem(msgs) ==> NonSystem(msgs) == []
    decreases |msgs|
  {
    if msgs != [] {
      var init, last := msgs[..|msgs| - 1], msgs[|msgs| - 1];
      AllSystemLeavesNothing(init);
      assert init + [last] == msgs;
      RolesSnoc(init, last);
    }
  }

  /** No system message survives normalisation, the system contents are
      absent exactly when no system message exists, and the non-system
      messages keep their relative order. */
  lemma NonSystemFacts(msgs: seq<Message>)
    ensures forall i :: 0 <= i < |NonSystem(msgs)| ==> NonSystem(msgs)[i].role != System
    ensures (SystemContents(msgs) == []) <==> (forall i :: 0 <= i < |msgs| ==> msgs[i].role != System)
    ensures SystemContents(msgs) == [] ==> NonSystem(msgs) == msgs
    ensures |NonSystem(msgs)| + |SystemContents(msgs)| == |msgs|
    ensures (forall i :: 0 <= i < |msgs| ==> msgs[i].role == System) ==> NonSystem(msgs) == []
  {
    NonSystemHasNoSystem(msgs);
    NoSystemContents(msgs);
    FilterCount(msgs);
    AllSystemLeavesNothing(msgs);
  }

  lemma NormalisedFacts(msgs: seq<Message>)
    ensures forall i :: 0 <= i < |Normalised(msgs)| ==> Normalised(msgs)[i].role != System
    ensures (forall i :: 0 <= i < |msgs| ==> msgs[i].role != System) ==> Normalised(msgs) == msgs
    ensures (exists i :: 0 <= i < |msgs| && msgs[i].role == System) ==>
              SystemContents(msgs) != [] && |Normalised(msgs)| == |NonSystem(msgs)| + 1
  {
    NonSystemFacts(msgs);
    var r := Normalised(msgs);
    if SystemContents(msgs) != [] {
      assert forall i :: 1 <= i < |r| ==> r[i] == NonSystem(msgs)[i - 1];
    }
  }

  /** A non-empty request stays non-empty after normalisation (the handler
      later reads its last message). */
  lemma NormalisedNonEmpty(msgs: seq<Message>)
    ensures |Normalised(msgs)| == 0 <==> |msgs| == 0
  {
    NonSystemFacts(msgs);
  }

  /** Leading empty contents are skipped by `SystemText`. */
  function DropLeadingEmpty(parts: seq<string>): seq<string>
    decreases |parts|
  {
    if parts != [] && parts[0] == "" then DropLeadingEmpty(parts[1..]) else parts
  }

  /** The builder text is the newline join of the system contents once the
      leading empty ones are dropped: `["", "x"]` gives "x", not "\nx". */
  lemma {:induction false} SystemTextIsJoin(parts: seq<string>)
    ensures SystemText(parts) == JoinLines(DropLeadingEmpty(parts))
    decreases |parts|
  {
    if parts != [] {
      var init, last := parts[..|parts| - 1], parts[|parts| - 1];
      assert init + [last] == parts;
      SystemTextIsJoin(init);
      DropLeadingEmptySnoc(init, last);
      SystemTextStep(init, last);
      var d := DropLeadingEmpty(init);
      if d == [] {
        DropAllEmpty(init);
        JoinEmpty(init);
        JoinSingle(last);
      } else {
        DropLeadingEmptyHead(init);
        JoinNonEmpty(d);
        JoinSnoc(d, last);
      }
    }
  }

  lemma JoinSingle(last: string)
    ensures JoinLines(DropLeadingEmpty([last])) == last
  {
    if last == "" {
      assert [last][1..] == [];
    }
  }

  lemma JoinSnoc(d: seq<string>, last: string)
    requires d != []
    ensures JoinLines(d + [last]) == JoinLines(d) + "\n" + last
  {
    var dl := d + [last];
    assert dl[..|dl| - 1] == d && dl[|dl| - 1] == last;
  }

  lemma {:induction false} DropLeadingEmptySnoc(parts: seq<string>, last: string)
    ensures DropLeadingEmpty(parts) != [] ==> DropLeadingEmpty(parts + [last]) == DropLeadingEmpty(parts) + [last]
    ensures DropLeadingEmpty(parts) == [] ==> DropLeadingEmpty(parts + [last]) == DropLeadingEmpty([last])
    decreases |parts|
  {
    if parts != [] {
      assert (parts + [last])[0] == parts[0];
      assert (parts + [last])[1..] == parts[1..] + [last];
      if parts[0] == "" {
        DropLeadingEmptySnoc(parts[1..], last);
      }
    } else {
      assert parts + [last] == [last];
    }
  }

  lemma {:induction false} DropLeadingEmptyHead(parts: seq<string>)
    ensures DropLeadingEmpty(parts) != [] ==> DropLeadingEmpty(parts)[0] != ""
    decreases |parts|
  {
    if parts != [] && parts[0] == "" {
      DropLeadingEmptyHead(parts[1..]);
    }
  }

  lemma {:induction false} DropAllEmpty(parts: seq<string>)
    requires DropLeadingEmpty(parts) == []
    ensures forall i :: 0 <= i < |parts| ==> parts[i] == ""
    decreases |parts|
  {
    if parts != [] {
      DropAllEmpty(parts[1..]);
      assert forall i :: 1 <= i < |parts| ==> parts[i] == parts[1..][i - 1];
    }
  }

  lemma {:induction false} JoinEmpty(parts: seq<string>)
    requires forall i :: 0 <= i < |parts| ==> parts[i] == ""
    ensures SystemText(parts) == ""
    decreases |parts|
  {
    if parts != [] {
      JoinEmpty(parts[..|parts| - 1]);
    }
  }

  lemma {:induction false} JoinNonEmpty(d: seq<string>)
    requires d != [] && d[0] != ""
    ensures |JoinLines(d)| > 0
    decreases |d|
  {
    if |d| > 1 {
      JoinNonEmpty(d[..|d| - 1]);
    }
  }

  /** When the first system content is non-empty the synthetic user message
      holds exactly the newline join of all system contents. */
  lemma SystemTextJoinWhenFirstNonEmpty(parts: seq<string>)
    requires parts != [] && parts[0] != ""
    ensures SystemText(parts) == JoinLines(parts)
  {
    SystemTextIsJoin(parts);
  }

  /** A request holding only system messages becomes a single user message
      with the joined system text. */
  lemma SystemOnly(msgs: seq<Message>)
    requires msgs != []
    requires forall i :: 0 <= i < |msgs| ==> msgs[i].role == System
    ensures Normalised(msgs) == [Message(User, SystemText(SystemContents(msgs)))]
  {
    NonSystemFacts(msgs);
    assert msgs[0].role == System;
  }
}
