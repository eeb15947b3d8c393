/** Moving long history content into uploaded files (api/main.go:379-469):
    each history question of 30 or more estimated tokens and each non-empty
    history answer is written to a temporary file, uploaded, recorded as a
    source, and replaced in the history by a reference to the uploaded file.

    The nonce fetch, the temporary file and the upload are one abstract
    `Uploader`: it is given the number of uploads made before it in this
    request and the bytes of the file, and says what the service answered. */
module Externalise {
  import opened Outcomes
  import opened Text
  import opened PlainText
  import opened Messages
  import opened Tokens
  import opened History

  /** `MaxContextTokens`: a current turn estimated above this is uploaded. */
  const MaxContextTokens: nat := 2000

  /** A history question estimated at this many tokens or more is uploaded. */
  const QuestionThreshold: nat := 30

  const UserFile: string := "user_file"

  /** What the nonce fetch, the temporary file write and the upload give. */
  datatype UploadReply =
    | Uploaded(filename: string, userFilename: string)
    | NonceFailed
    | TempFileFailed
    | UploadFailed

  /** The body of the 500 response when a step of an upload fails. */
  function FailureMessage(reply: UploadReply): string
    requires !reply.Uploaded?
  {
    match reply
    case NonceFailed => "Failed to get nonce"
    case TempFileFailed => "Failed to create temp file"
    case UploadFailed => "Failed to upload file"
  }

  /** One element of the `sources` query parameter. */
  datatype Source = Source(sourceType: string, filename: string, userFilename: string, sizeBytes: nat)

  /** The upload service, called with the index of the call and the file bytes. */
  type Uploader = (nat, seq<Byte>) -> UploadReply

  /** The fixed text before the uploaded file's name in a placeholder
      ("look at this file and chat directly with its content: "). */
  const PlaceholderPrefix: string :=
    "\U{67E5}\U{770B}\U{8FD9}\U{4E2A}\U{6587}\U{4EF6}\U{5E76}\U{4E14}\U{76F4}\U{63A5}"
    + "\U{4E0E}\U{6587}\U{4EF6}\U{5185}\U{5BB9}\U{8FDB}\U{884C}\U{804A}\U{5929}\U{FF1A}"

  /** The text that replaces uploaded content: the prefix, the service's name
      for the file without a trailing ".txt", then ".txt". */
  function Placeholder(userFilename: string): (r: string)
    ensures HasPrefix(r, PlaceholderPrefix) && HasSuffix(r, ".txt")
    ensures |r| >= |PlaceholderPrefix| + 4
  {
    PlaceholderPrefix + TrimSuffix(userFilename, ".txt") + ".txt"
  }

  /** The extension is never doubled: a name with or without ".txt" gives
      the same placeholder, which ends in exactly one ".txt". */
  lemma PlaceholderExtension(base: string)
    ensures Placeholder(base + ".txt") == PlaceholderPrefix + base + ".txt"
    ensures !HasSuffix(base, ".txt") ==> Placeholder(base) == Placeholder(base + ".txt")
  {
    var s := base + ".txt";
    assert HasSuffix(s, ".txt") by {
      assert s[|s| - 4..] == ".txt";
    }
    assert s[..|s| - 4] == base;
  }

  /** The placeholder names the file: different names without the extension
      give different placeholders. */
  lemma PlaceholderInjective(u1: string, u2: string)
    requires Placeholder(u1) == Placeholder(u2)
    ensures TrimSuffix(u1, ".txt") == TrimSuffix(u2, ".txt")
  {
    var p1, p2 := Placeholder(u1), Placeholder(u2);
    var n := |PlaceholderPrefix|;
    assert p1[n..|p1| - 4] == TrimSuffix(u1, ".txt");
    assert p2[n..|p2| - 4] == TrimSuffix(u2, ".txt");
  }

  /** Whether a history question is moved to a file. */
  predicate QuestionNeedsUpload(question: string) {
    question != "" && MessageTokens(question) >= QuestionThreshold
  }

  /** Whether a history answer is moved to a file: any non-empty answer. */
  predicate AnswerNeedsUpload(answer: string) {
    answer != ""
  }

  /** Whether the current turn is moved to a file. */
  predicate TurnNeedsUpload(content: string) {
    MessageTokens(content) > MaxContextTokens
  }

  /** The source recorded for `content` after a successful upload; its size
      is the byte length of the original, unfiltered content. */
  function SourceOf(reply: UploadReply, content: string): Source
    requires reply.Uploaded?
  {
    Source(UserFile, reply.filename, reply.userFilename, Utf8Length(content))
  }

  /** The reply to the upload of `content` as the `call`-th file. */
  function ReplyFor(upload: Uploader, call: nat, content: string): UploadReply {
    upload(call, AddUtf8Bom(content))
  }

  /** One entry and the sources after it has been processed. */
  datatype EntryStep = EntryStep(entry: ChatEntry, sources: seq<Source>)

  /** The whole history after processing, and the sources collected. */
  datatype Externalised = Externalised(history: seq<ChatEntry>, sources: seq<Source>)

  /** The answer half of processing one entry. */
  function AnswerStep(e: ChatEntry, upload: Uploader, sources: seq<Source>): Result<EntryStep> {
    if AnswerNeedsUpload(e.answer) then
      var reply := ReplyFor(upload, |sources|, e.answer);
      if reply.Uploaded? then
        Success(EntryStep(e.(answer := Placeholder(reply.userFilename)), sources + [SourceOf(reply, e.answer)]))
      else Failure(FailureMessage(reply))
    else Success(EntryStep(e, sources))
  }

  /** Processing one entry: its question first, then its answer. */
  function EntryOf(e: ChatEntry, upload: Uploader, sources: seq<Source>): Result<EntryStep> {
    if QuestionNeedsUpload(e.question) then
      var reply := ReplyFor(upload, |sources|, e.question);
      if reply.Uploaded? then
        AnswerStep(e.(question := Placeholder(reply.userFilename)), upload, sources + [SourceOf(reply, e.question)])
      else Failure(FailureMessage(reply))
    else AnswerStep(e, upload, sources)
  }

  /** Processing a whole history, entry by entry; the first failed upload
      aborts the request with its message. */
  function ExternaliseAll(h: seq<ChatEntry>, upload: Uploader): Result<Externalised>
    decreases |h|
  {
    if h == [] then Success(Externalised([], []))
    else
      match ExternaliseAll(h[..|h| - 1], upload)
      case Failure(msg) => Failure(msg)
      case Success(done) =>
        match EntryOf(h[|h| - 1], upload, done.sources)
        case Failure(msg) => Failure(msg)
        case Success(step) => Success(Externalised(done.history + [step.entry], step.sources))
  }

  /** The fields of `after` in the slots where `before` needs an upload:
      its question, then its answer. */
  function EntrySlots(before: ChatEntry, after: ChatEntry): seq<string> {
    (if QuestionNeedsUpload(before.question) then [after.question] else [])
    + (if AnswerNeedsUpload(before.answer) then [after.answer] else [])
  }

  /** The same over a whole history, entry by entry. */
  function Slots(before: seq<ChatEntry>, after: seq<ChatEntry>): seq<string>
    requires |before| == |after|
    decreases |before|
  {
    if before == [] then []
    else Slots(before[..|before| - 1], after[..|after| - 1]) + EntrySlots(before[|before| - 1], after[|after| - 1])
  }

  /** The contents uploaded for a history, in upload order. */
  function ToUpload(h: seq<ChatEntry>): seq<string> {
    Slots(h, h)
  }

  /** The placeholder of every source, in order. */
  function Placeholders(sources: seq<Source>): (r: seq<string>)
    ensures |r| == |sources|
    ensures forall k :: 0 <= k < |sources| ==> r[k] == Placeholder(sources[k].userFilename)
  {
    seq(|sources|, k requires 0 <= k < |sources| => Placeholder(sources[k].userFilename))
  }

  /** The first `n` uploads of `contents` succeed. */
  predicate UploadedUpTo(upload: Uploader, contents: seq<string>, n: nat)
    requires n <= |contents|
  {
    forall k :: 0 <= k < n ==> ReplyFor(upload, k, contents[k]).Uploaded?
  }

  /** `sources` is what uploading `contents` in order records. */
  predicate SourcesMatch(upload: Uploader, contents: seq<string>, sources: seq<Source>) {
    && |sources| == |contents|
    && UploadedUpTo(upload, contents, |contents|)
    && forall k :: 0 <= k < |contents| ==> sources[k] == SourceOf(ReplyFor(upload, k, contents[k]), contents[k])
  }

  /** `msg` is the message of the first failing upload of `contents`. */
  predicate FirstFailure(upload: Uploader, contents: seq<string>, msg: string) {
    exists k :: 0 <= k < |contents| && UploadedUpTo(upload, contents, k)
      && !ReplyFor(upload, k, contents[k]).Uploaded?
      && msg == FailureMessage(ReplyFor(upload, k, contents[k]))
  }

  lemma SourcesMatchSnoc(upload: Uploader, contents: seq<string>, sources: seq<Source>, c: string)
    requires SourcesMatch(upload, contents, sources)
    requires ReplyFor(upload, |contents|, c).Uploaded?
    ensures SourcesMatch(upload, contents + [c], sources + [SourceOf(ReplyFor(upload, |contents|, c), c)])
  {
  }

  lemma FailureAt(upload: Uploader, contents: seq<string>, sources: seq<Source>, c: string, rest: seq<string>)
    requires SourcesMatch(upload, contents, sources)
    requires !ReplyFor(upload, |contents|, c).Uploaded?
    ensures FirstFailure(upload, contents + [c] + rest, FailureMessage(ReplyFor(upload, |contents|, c)))
    ensures !UploadedUpTo(upload, contents + [c] + rest, |contents + [c] + rest|)
  {
    var all := contents + [c] + rest;
    assert all[|contents|] == c;
    assert forall k :: 0 <= k < |contents| ==> all[k] == contents[k];
    assert UploadedUpTo(upload, all, |contents|);
  }

  /** The answer half, in terms of the flattened view. */
  lemma {:induction false} AnswerStepCharacterised(e: ChatEntry, upload: Uploader, contents: seq<string>, sources: seq<Source>)
    requires SourcesMatch(upload, contents, sources)
    ensures var r := AnswerStep(e, upload, sources);
      var all := contents + (if AnswerNeedsUpload(e.answer) then [e.answer] else []);
      && (r.Success? <==> UploadedUpTo(upload, all, |all|))
      && (r.Success? ==> SourcesMatch(upload, all, r.value.sources) && r.value.entry.question == e.question)
      && (r.Success? && AnswerNeedsUpload(e.answer) ==> r.value.entry.answer == Placeholder(r.value.sources[|contents|].userFilename))
      && (r.Success? && !AnswerNeedsUpload(e.answer) ==> r.value.entry == e)
      && (r.Failure? ==> FirstFailure(upload, all, r.error))
  {
    if AnswerNeedsUpload(e.answer) {
      if ReplyFor(upload, |contents|, e.answer).Uploaded? {
        SourcesMatchSnoc(upload, contents, sources, e.answer);
      } else {
        FailureAt(upload, contents, sources, e.answer, []);
        assert contents + [e.answer] + [] == contents + [e.answer];
      }
    } else {
      assert contents + [] == contents;
    }
  }

  /** One entry, in terms of the flattened view: it succeeds iff its uploads
      succeed, records their sources, and puts placeholders exactly in the
      slots that needed an upload. */
  lemma {:induction false} EntryCharacterised(e: ChatEntry, upload: Uploader, contents: seq<string>, sources: seq<Source>)
    requires SourcesMatch(upload, contents, sources)
    ensures var r := EntryOf(e, upload, sources);
      var all := contents + EntrySlots(e, e);
      && (r.Success? <==> UploadedUpTo(upload, all, |all|))
      && (r.Success? ==> SourcesMatch(upload, all, r.value.sources))
      && (r.Success? ==> EntrySlots(e, r.value.entry) == Placeholders(r.value.sources)[|contents|..])
      && (r.Success? && !QuestionNeedsUpload(e.question) ==> r.value.entry.question == e.question)
      && (r.Success? && !AnswerNeedsUpload(e.answer) ==> r.value.entry.answer == e.answer)
      && (r.Failure? ==> FirstFailure(upload, all, r.error))
  {
    var r := EntryOf(e, upload, sources);
    var aSlot := if AnswerNeedsUpload(e.answer) then [e.answer] else [];
    if QuestionNeedsUpload(e.question) {
      var reply := ReplyFor(upload, |contents|, e.question);
      var c1 := contents + [e.question];
      assert contents + EntrySlots(e, e) == c1 + aSlot;
      if reply.Uploaded? {
        var e1 := e.(question := Placeholder(reply.userFilename));
        var s1 := sources + [SourceOf(reply, e.question)];
        SourcesMatchSnoc(upload, contents, sources, e.question);
        AnswerStepCharacterised(e1, upload, c1, s1);
        if r.Success? {
          var ps := Placeholders(r.value.sources);
          assert r.value.sources[|contents|] == s1[|contents|];
          assert EntrySlots(e, r.value.entry) == ps[|contents|..];
        } else {
          assert !UploadedUpTo(upload, c1 + aSlot, |c1 + aSlot|);
        }
      } else {
        FailureAt(upload, contents, sources, e.question, aSlot);
      }
    } else {
      assert contents + EntrySlots(e, e) == contents + aSlot;
      AnswerStepCharacterised(e, upload, contents, sources);
      if r.Success? {
        var ps := Placeholders(r.value.sources);
        assert EntrySlots(e, r.value.entry) == ps[|contents|..];
      }
    }
  }

  lemma FirstFailureExtends(upload: Uploader, contents: seq<string>, rest: seq<string>, msg: string)
    requires FirstFailure(upload, contents, msg)
    ensures FirstFailure(upload, contents + rest, msg)
    ensures !UploadedUpTo(upload, contents + rest, |contents + rest|)
  {
    var k :| 0 <= k < |contents| && UploadedUpTo(upload, contents, k)
      && !ReplyFor(upload, k, contents[k]).Uploaded?
      && msg == FailureMessage(ReplyFor(upload, k, contents[k]));
    var all := contents + rest;
    assert all[k] == contents[k];
    assert UploadedUpTo(upload, all, k);
  }

  lemma UploadedPrefix(upload: Uploader, contents: seq<string>, rest: seq<string>)
    requires UploadedUpTo(upload, contents + rest, |contents + rest|)
    ensures UploadedUpTo(upload, contents, |contents|)
  {
    var all := contents + rest;
    forall k | 0 <= k < |contents|
      ensures ReplyFor(upload, k, contents[k]).Uploaded?
    {
      assert all[k] == contents[k];
    }
  }

  /** What processing `h` gives, in terms of the flattened view. */
  predicate Characterised(h: seq<ChatEntry>, upload: Uploader, r: Result<Externalised>) {
    && (r.Success? <==> UploadedUpTo(upload, ToUpload(h), |ToUpload(h)|))
    && (r.Success? ==> SourcesMatch(upload, ToUpload(h), r.value.sources))
    && (r.Success? ==> |r.value.history| == |h|)
    && (r.Success? ==> Slots(h, r.value.history) == Placeholders(r.value.sources))
    && (r.Success? ==> forall i :: 0 <= i < |h| && !QuestionNeedsUpload(h[i].question) ==>
                         r.value.history[i].question == h[i].question)
    && (r.Success? ==> forall i :: 0 <= i < |h| && !AnswerNeedsUpload(h[i].answer) ==>
                         r.value.history[i].answer == h[i].answer)
    && (r.Failure? ==> FirstFailure(upload, ToUpload(h), r.error))
  }

  /** The whole history: processing succeeds iff every upload of `ToUpload(h)`
      succeeds; the sources are exactly those uploads, in order, with the byte
      length of the original content; the slots that needed an upload hold the
      placeholders of those sources and every other field is unchanged; and a
      failure carries the message of the first failing upload. */
  lemma {:induction false} ExternaliseCharacterised(h: seq<ChatEntry>, upload: Uploader)
    ensures Characterised(h, upload, ExternaliseAll(h, upload))
    decreases |h|
  {
    if h == [] {
      assert ToUpload(h) == [];
    } else {
      var init, e := h[..|h| - 1], h[|h| - 1];
      assert init + [e] == h;
      ExternaliseCharacterised(init, upload);
      if ExternaliseAll(init, upload).Failure? {
        StepAfterFailure(init, e, upload);
      } else {
        StepAfterSuccess(init, e, upload);
      }
    }
  }

  lemma ToUploadSnoc(init: seq<ChatEntry>, e: ChatEntry)
    ensures ToUpload(init + [e]) == ToUpload(init) + EntrySlots(e, e)
  {
    var h := init + [e];
    assert h[..|h| - 1] == init;
  }

  lemma StepAfterFailure(init: seq<ChatEntry>, e: ChatEntry, upload: Uploader)
    requires Characterised(init, upload, ExternaliseAll(init, upload))
    requires ExternaliseAll(init, upload).Failure?
    ensures Characterised(init + [e], upload, ExternaliseAll(init + [e], upload))
  {
    var h := init + [e];
    assert h[..|h| - 1] == init;
    ToUploadSnoc(init, e);
    FirstFailureExtends(upload, ToUpload(init), EntrySlots(e, e), ExternaliseAll(init, upload).error);
  }

  lemma ExternaliseSnoc(init: seq<ChatEntry>, e: ChatEntry, upload: Uploader)
    ensures ExternaliseAll(init + [e], upload) ==
      match ExternaliseAll(init, upload)
      case Failure(msg) => Failure(msg)
      case Success(done) =>
        match EntryOf(e, upload, done.sources)
        case Failure(msg) => Failure(msg)
        case Success(step) => Success(Externalised(done.history + [step.entry], step.sources))
  {
    var h := init + [e];
    assert h[..|h| - 1] == init;
    assert h[|h| - 1] == e;
  }

  lemma StepAfterSuccess(init: seq<ChatEntry>, e: ChatEntry, upload: Uploader)
    requires Characterised(init, upload, ExternaliseAll(init, upload))
    requires ExternaliseAll(init, upload).Success?
    ensures Characterised(init + [e], upload, ExternaliseAll(init + [e], upload))
  {
    ToUploadSnoc(init, e);
    ExternaliseSnoc(init, e, upload);
    var done := ExternaliseAll(init, upload).value;
    EntryCharacterised(e, upload, ToUpload(init), done.sources);
    var r := EntryOf(e, upload, done.sources);
    if r.Success? {
      StepEntrySuccess(init, e, upload, done, r.value);
    }
  }

  lemma StepEntrySuccess(init: seq<ChatEntry>, e: ChatEntry, upload: Uploader, done: Externalised, step: EntryStep)
    requires Characterised(init, upload, Success(done))
    requires SourcesMatch(upload, ToUpload(init) + EntrySlots(e, e), step.sources)
    requires EntrySlots(e, step.entry) == Placeholders(step.sources)[|ToUpload(init)|..]
    requires !QuestionNeedsUpload(e.question) ==> step.entry.question == e.question
    requires !AnswerNeedsUpload(e.answer) ==> step.entry.answer == e.answer
    ensures Characterised(init + [e], upload, Success(Externalised(done.history + [step.entry], step.sources)))
  {
    var h := init + [e];
    var hist := done.history + [step.entry];
    ToUploadSnoc(init, e);
    assert UploadedUpTo(upload, ToUpload(h), |ToUpload(h)|);
    assert SourcesMatch(upload, ToUpload(h), step.sources);
    SlotsStep(init, e, done, step);
    KeptStep(init, e, done.history, step.entry);
  }

  lemma SlotsStep(init: seq<ChatEntry>, e: ChatEntry, done: Externalised, step: EntryStep)
    requires |done.history| == |init|
    requires Slots(init, done.history) == Placeholders(done.sources)
    requires |done.sources| <= |step.sources|
    requires step.sources[..|done.sources|] == done.sources
    requires EntrySlots(e, step.entry) == Placeholders(step.sources)[|done.sources|..]
    ensures Slots(init + [e], done.history + [step.entry]) == Placeholders(step.sources)
  {
    SlotsSnoc(init, done.history, e, step.entry);
    PlaceholdersSplit(step.sources, |done.sources|);
  }

  lemma SlotsSnoc(before: seq<ChatEntry>, after: seq<ChatEntry>, b: ChatEntry, a: ChatEntry)
    requires |before| == |after|
    ensures Slots(before + [b], after + [a]) == Slots(before, after) + EntrySlots(b, a)
  {
    var h, hist := before + [b], after + [a];
    assert h[..|h| - 1] == before && h[|h| - 1] == b;
    assert hist[..|hist| - 1] == after && hist[|hist| - 1] == a;
  }

  lemma PlaceholdersSplit(sources: seq<Source>, n: nat)
    requires n <= |sources|
    ensures Placeholders(sources) == Placeholders(sources[..n]) + Placeholders(sources)[n..]
  {
    var ps, pre := Placeholders(sources), Placeholders(sources[..n]);
    forall k | 0 <= k < n
      ensures ps[k] == pre[k]
    {
      assert sources[..n][k] == sources[k];
    }
    assert ps[..n] == pre;
    assert ps == ps[..n] + ps[n..];
  }

  lemma KeptStep(init: seq<ChatEntry>, e: ChatEntry, hist0: seq<ChatEntry>, entry: ChatEntry)
    requires |hist0| == |init|
    requires forall i :: 0 <= i < |init| && !QuestionNeedsUpload(init[i].question) ==> hist0[i].question == init[i].question
    requires forall i :: 0 <= i < |init| && !AnswerNeedsUpload(init[i].answer) ==> hist0[i].answer == init[i].answer
    requires !QuestionNeedsUpload(e.question) ==> entry.question == e.question
    requires !AnswerNeedsUpload(e.answer) ==> entry.answer == e.answer
    ensures var h, hist := init + [e], hist0 + [entry];
      && (forall i :: 0 <= i < |h| && !QuestionNeedsUpload(h[i].question) ==> hist[i].question == h[i].question)
      && (forall i :: 0 <= i < |h| && !AnswerNeedsUpload(h[i].answer) ==> hist[i].answer == h[i].answer)
  {
  }

  /** A history with nothing to upload passes through unchanged, with no
      uploads and no sources. */
  lemma NothingToUpload(h: seq<ChatEntry>, upload: Uploader)
    requires ToUpload(h) == []
    ensures ExternaliseAll(h, upload) == Success(Externalised(h, []))
  {
    ExternaliseCharacterised(h, upload);
    var r := ExternaliseAll(h, upload);
    assert r.Success?;
    assert r.value.sources == [];
    var hist := r.value.history;
    forall i | 0 <= i < |h|
      ensures hist[i] == h[i]
    {
      NoSlotsAt(h, i);
    }
    assert hist == h;
  }

  lemma {:induction false} NoSlotsAt(h: seq<ChatEntry>, i: nat)
    requires ToUpload(h) == [] && i < |h|
    ensures !QuestionNeedsUpload(h[i].question) && !AnswerNeedsUpload(h[i].answer)
    decreases |h|
  {
    var init, e := h[..|h| - 1], h[|h| - 1];
    assert Slots(h, h) == Slots(init, init) + EntrySlots(e, e);
    if i < |h| - 1 {
      NoSlotsAt(init, i);
    }
  }

  /** An aborted history stays aborted: later entries are not processed. */
  lemma {:induction false} FailureSticks(h: seq<ChatEntry>, n: nat, msg: string, upload: Uploader)
    requires n <= |h| && ExternaliseAll(h[..n], upload) == Failure(msg)
    ensures ExternaliseAll(h, upload) == Failure(msg)
    decreases |h| - n
  {
    if n < |h| {
      assert h[..|h|][..n] == h[..n];
      var init := h[..|h| - 1];
      assert init[..n] == h[..n];
      FailureSticks(init, n, msg, upload);
    } else {
      assert h[..n] == h;
    }
  }

  /** The history rewriting loop of the handler: each entry is rewritten in
      place, question then answer; the first failed upload stops it with the
      message of the 500 response. */
  method ExternaliseHistory(history: array<ChatEntry>, upload: Uploader)
    returns (sources: seq<Source>, failure: Option<string>)
    modifies history
    ensures failure.None? <==> ExternaliseAll(old(history[..]), upload).Success?
    ensures failure.None? ==> ExternaliseAll(old(history[..]), upload) == Success(Externalised(history[..], sources))
    ensures failure.Some? ==> ExternaliseAll(old(history[..]), upload) == Failure(failure.value)
  {
    ghost var h0 := history[..];
    sources := [];
    failure := None;
    var i := 0;
    RewrittenStart(h0, upload);
    while i < history.Length
      invariant 0 <= i <= history.Length == |h0|
      invariant Rewritten(h0, history[..], i, sources, upload)
    {
      ghost var before := history[..];
      RewrittenNext(h0, before, i, sources, upload);
      var after, err := ExternaliseEntry(history, i, upload, sources);
      if err.Some? {
        FailedAt(h0, i, Externalised(before[..i], sources), err.value, upload);
        FailureSticks(h0, i + 1, err.value, upload);
        return sources, err;
      }
      RewrittenStep(h0, before, history[..], i, sources, upload);
      sources := after;
      i := i + 1;
    }
    RewrittenDone(h0, history[..], i, sources, upload);
  }

  /** The invariant of the rewriting loop: the first `i` entries of `cur` are
      the externalised first `i` entries of `h0`, with `sources` the uploads
      so far, and the rest of `cur` is untouched. */
  predicate Rewritten(h0: seq<ChatEntry>, cur: seq<ChatEntry>, i: nat, sources: seq<Source>, upload: Uploader) {
    && i <= |h0| == |cur|
    && cur[i..] == h0[i..]
    && ExternaliseAll(h0[..i], upload) == Success(Externalised(cur[..i], sources))
  }

  lemma RewrittenStart(h0: seq<ChatEntry>, upload: Uploader)
    ensures Rewritten(h0, h0, 0, [], upload)
  {
    assert h0[..0] == [];
  }

  /** The entry the loop reads next is still the original one. */
  lemma RewrittenNext(h0: seq<ChatEntry>, cur: seq<ChatEntry>, i: nat, sources: seq<Source>, upload: Uploader)
    requires Rewritten(h0, cur, i, sources, upload) && i < |h0|
    ensures cur[i] == h0[i]
  {
    assert cur[i..][0] == h0[i..][0];
  }

  /** A rewritten entry extends the externalised prefix by one. */
  lemma RewrittenStep(h0: seq<ChatEntry>, cur: seq<ChatEntry>, next: seq<ChatEntry>, i: nat,
                      sources: seq<Source>, upload: Uploader)
    requires Rewritten(h0, cur, i, sources, upload) && i < |h0|
    requires EntryOf(h0[i], upload, sources).Success?
    requires next == cur[i := EntryOf(h0[i], upload, sources).value.entry]
    ensures Rewritten(h0, next, i + 1, EntryOf(h0[i], upload, sources).value.sources, upload)
  {
    ExternaliseStep(h0, i, upload);
    assert next[..i + 1] == cur[..i] + [next[i]];
    assert next[i + 1..] == cur[i + 1..];
    assert cur[i + 1..] == cur[i..][1..];
    assert h0[i + 1..] == h0[i..][1..];
  }

  /** A failed entry ends the externalised prefix with its message. */
  lemma FailedAt(h0: seq<ChatEntry>, i: nat, done: Externalised, msg: string, upload: Uploader)
    requires i < |h0| && ExternaliseAll(h0[..i], upload) == Success(done)
    requires EntryOf(h0[i], upload, done.sources) == Failure(msg)
    ensures ExternaliseAll(h0[..i + 1], upload) == Failure(msg)
  {
    var p := h0[..i + 1];
    assert p[..|p| - 1] == h0[..i];
    assert p[|p| - 1] == h0[i];
    FailedPrefix(p, done, msg, upload);
  }

  /** A history whose last entry fails, after a prefix that succeeded. */
  lemma FailedPrefix(h: seq<ChatEntry>, done: Externalised, msg: string, upload: Uploader)
    requires h != [] && ExternaliseAll(h[..|h| - 1], upload) == Success(done)
    requires EntryOf(h[|h| - 1], upload, done.sources) == Failure(msg)
    ensures ExternaliseAll(h, upload) == Failure(msg)
  {
  }

  /** After the last entry the rewritten array is the externalised history. */
  lemma RewrittenDone(h0: seq<ChatEntry>, cur: seq<ChatEntry>, i: nat, sources: seq<Source>, upload: Uploader)
    requires Rewritten(h0, cur, i, sources, upload) && i == |h0|
    ensures ExternaliseAll(h0, upload) == Success(Externalised(cur, sources))
  {
    assert h0[..i] == h0;
    assert cur[..i] == cur;
  }

  /** One more entry of the history. */
  lemma ExternaliseStep(h: seq<ChatEntry>, i: nat, upload: Uploader)
    requires i < |h|
    ensures ExternaliseAll(h[..i + 1], upload) ==
      match ExternaliseAll(h[..i], upload)
      case Failure(msg) => Failure(msg)
      case Success(done) =>
        match EntryOf(h[i], upload, done.sources)
        case Failure(msg) => Failure(msg)
        case Success(step) => Success(Externalised(done.history + [step.entry], step.sources))
  {
    assert h[..i + 1][..i] == h[..i];
  }

  /** The body of the loop for `entry := &chatHistory[i]`: the question, then
      the answer, each uploaded and replaced by its placeholder when it needs
      it. On failure the entry may be half rewritten; the handler gives up on
      the whole history then. */
  method ExternaliseEntry(history: array<ChatEntry>, i: nat, upload: Uploader, sources: seq<Source>)
    returns (after: seq<Source>, failure: Option<string>)
    requires i < history.Length
    modifies history
    ensures failure.None? <==> EntryOf(old(history[i]), upload, sources).Success?
    ensures failure.None? ==>
              && after == EntryOf(old(history[i]), upload, sources).value.sources
              && history[..] == old(history[..])[i := EntryOf(old(history[i]), upload, sources).value.entry]
    ensures failure.Some? ==> failure.value == EntryOf(old(history[i]), upload, sources).error
    ensures failure.Some? ==> forall j :: 0 <= j < history.Length && j != i ==> history[j] == old(history[j])
  {
    ghost var e := history[i];
    after := sources;
    failure := None;
    if history[i].question != "" {
      var count, _ := CountTokens([Message(User, history[i].question)]);
      TotalTokensSingle(Message(User, history[i].question));
      if count >= QuestionThreshold {
        var reply := upload(|after|, AddUtf8Bom(history[i].question));
        if !reply.Uploaded? {
          return after, Some(FailureMessage(reply));
        }
        after := after + [SourceOf(reply, history[i].question)];
        history[i] := history[i].(question := Placeholder(reply.userFilename));
      }
    }
    assert EntryOf(e, upload, sources) == AnswerStep(history[i], upload, after);
    if history[i].answer != "" {
      var reply := upload(|after|, AddUtf8Bom(history[i].answer));
      if !reply.Uploaded? {
        return after, Some(FailureMessage(reply));
      }
      after := after + [SourceOf(reply, history[i].answer)];
      history[i] := history[i].(answer := Placeholder(reply.userFilename));
    }
  }
}
