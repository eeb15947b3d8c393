/** The character-class token estimate (`countTokens`, api/main.go:889-913).
    Go computes `int(float64(e)*0.3 + float64(c)*1)`; the model uses the
    exact integer `c + (3 * e) / 10`, which is what the float expression
    means for every realistic message length. */
module Tokens {
  import opened Outcomes
  import opened Messages

  /** Code points at or below 127 ("English" in the source). */
  function AsciiCount(s: string): nat
    decreases |s|
  {
    if s == [] then 0 else (if s[0] as int <= 127 then 1 else 0) + AsciiCount(s[1..])
  }

  /** Code points above 127 ("Chinese" in the source). */
  function WideCount(s: string): nat
    decreases |s|
  {
    if s == [] then 0 else (if s[0] as int <= 127 then 0 else 1) + WideCount(s[1..])
  }

  /** Tokens charged for one message: 0.3 per ASCII code point, 1 per other
      code point, truncated, plus 2 for the role marker. */
  function MessageTokens(content: string): nat {
    WideCount(content) + (3 * AsciiCount(content)) / 10 + 2
  }

  /** The estimate for a list of messages. */
  function TotalTokens(msgs: seq<Message>): nat
    decreases |msgs|
  {
    if msgs == [] then 0
    else TotalTokens(msgs[..|msgs| - 1]) + MessageTokens(msgs[|msgs| - 1].content)
  }

  /** Every code point is counted in exactly one class. */
  lemma {:induction false} CountsPartition(s: string)
    ensures AsciiCount(s) + WideCount(s) == |s|
    decreases |s|
  {
    if s != [] {
      CountsPartition(s[1..]);
    }
  }

  /** `countTokens`: two nested counting loops. The error result is always nil. */
  method CountTokens(msgs: seq<Message>) returns (total: nat, err: Option<string>)
    ensures total == TotalTokens(msgs)
    ensures total >= 2 * |msgs|
    ensures err == None
  {
    total := 0;
    for k := 0 to |msgs|
      invariant total == TotalTokens(msgs[..k])
    {
      var content := msgs[k].content;
      var english, chinese := 0, 0;
      for j := 0 to |content|
        invariant english == AsciiCount(content[..j])
        invariant chinese == WideCount(content[..j])
      {
        CountStep(content, j);
        if content[j] as int <= 127 {
          english := english + 1;
        } else {
          chinese := chinese + 1;
        }
      }
      assert content[..|content|] == content;
      assert msgs[..k + 1][..k] == msgs[..k];
      total := total + (chinese + (3 * english) / 10 + 2);
    }
    assert msgs[..|msgs|] == msgs;
    TotalTokensAtLeast(msgs);
    err := None;
  }

  /** Counting one more code point. */
  lemma {:induction false} CountStep(s: string, j: nat)
    requires j < |s|
    ensures AsciiCount(s[..j + 1]) == AsciiCount(s[..j]) + (if s[j] as int <= 127 then 1 else 0)
    ensures WideCount(s[..j + 1]) == WideCount(s[..j]) + (if s[j] as int <= 127 then 0 else 1)
  {
    CountsAppend(s[..j], [s[j]]);
    assert s[..j] + [s[j]] == s[..j + 1];
  }

  /** Both counts add up over concatenation. */
  lemma {:induction false} CountsAppend(s: string, t: string)
    ensures AsciiCount(s + t) == AsciiCount(s) + AsciiCount(t)
    ensures WideCount(s + t) == WideCount(s) + WideCount(t)
    decreases |s|
  {
    if s == [] {
      assert s + t == t;
    } else {
      assert (s + t)[0] == s[0];
      assert (s + t)[1..] == s[1..] + t;
      CountsAppend(s[1..], t);
    }
  }

  /** Every message contributes at least 2, so the estimate is at least
      twice the number of messages. */
  lemma {:induction false} TotalTokensAtLeast(msgs: seq<Message>)
    ensures TotalTokens(msgs) >= 2 * |msgs|
    decreases |msgs|
  {
    if msgs != [] {
      TotalTokensAtLeast(msgs[..|msgs| - 1]);
    }
  }

  /** The estimate of a list is the sum of the estimates of its parts. */
  lemma {:induction false} TotalTokensAppend(a: seq<Message>, b: seq<Message>)
    ensures TotalTokens(a + b) == TotalTokens(a) + TotalTokens(b)
    decreases |b|
  {
    if b == [] {
      assert a + b == a;
    } else {
      var b' := b[..|b| - 1];
      assert (a + b)[..|a + b| - 1] == a + b';
      TotalTokensAppend(a, b');
    }
  }

  /** The single-message estimate the externalisation thresholds use. */
  lemma TotalTokensSingle(m: Message)
    ensures TotalTokens([m]) == MessageTokens(m.content)
  {
    assert [m][..0] == [];
  }

  /** Bounds of one message's estimate in terms of its length in code points. */
  lemma MessageTokensBounds(s: string)
    ensures 2 + (3 * |s|) / 10 <= MessageTokens(s) <= |s| + 2
  {
    CountsPartition(s);
  }

  /** Doubling an all-ASCII text doubles its estimate up to the truncation
      and the fixed overhead of 2. */
  lemma DoubledAscii(s: string)
    requires forall i :: 0 <= i < |s| ==> s[i] as int <= 127
    ensures 2 * MessageTokens(s) - 2 <= MessageTokens(s + s) <= 2 * MessageTokens(s) - 1
  {
    AllAscii(s);
    CountsAppend(s, s);
    CountsPartition(s);
  }

  lemma {:induction false} AllAscii(s: string)
    requires forall i :: 0 <= i < |s| ==> s[i] as int <= 127
    ensures WideCount(s) == 0
    decreases |s|
  {
    if s != [] {
      AllAscii(s[1..]);
    }
  }
}
