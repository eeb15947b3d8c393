# you2api request handler, modelled in Dafny

you2api is an HTTP service that accepts OpenAI-style chat-completion
requests and forwards them to the you.com streaming-search API. This
project models the request handler `Handler` in `api/main.go`
and the helpers it calls, and proves properties of that model:

- the routing: the model list, the service-status fallback, the CORS
  preflight, the bearer check and body decoding;
- `convertSystemToUser`, which merges every system message into one leading
  user message;
- the folding of all messages but the last into question/answer history
  entries;
- the character-based token estimate `countTokens`;
- uploading long history questions and every non-empty history answer as
  files, and rewriting the history to refer to them (`addUTF8BOM`,
  `ensurePlainText`);
- the upstream query string: fixed parameters, correlation ids, model
  selector, sources, the current turn (inline, or uploaded when it is too
  long) and the history;
- the model-name table and its reverse;
- the translation of the upstream event stream into one OpenAI completion
  (non-streaming) or a series of chunks (streaming).

Modules, one per file:

| module | file | what it holds |
|---|---|---|
| `Outcomes` | outcomes.dfy | `Option` and `Result` |
| `Text` | text.dfy | Go's `strings.HasPrefix`/`TrimPrefix`/`TrimSuffix`, joining, `%d`, UTF-8 encoding and decoding |
| `ModelNames` | models.dfy | `modelMap`, `mapModelName`, `reverseMapModelName`, `isAgentModel`, `getCookies`, the model list |
| `Messages` | messages.dfy | `Message`, roles, `convertSystemToUser` |
| `Tokens` | tokens.dfy | `countTokens` |
| `PlainText` | plaintext.dfy | `ensurePlainText`, `addUTF8BOM` |
| `History` | history.dfy | the history fold and its reference definition `Turns` |
| `Externalise` | externalise.dfy | the per-entry uploads and the rewriting of the history in place |
| `Upstream` | upstream.dfy | the query parameters |
| `Translate` | translate.dfy | the status check and both response handlers |
| `Handler` | handler.dfy | `Handler` from the routing to the upstream call |

Methods follow the loops of the source and are proved equal to a
specification function. The properties the source promises are proved
about those functions as lemmas. The history rewrite works on an `array`,
because the handler updates `chatHistory[i]` in place through a pointer.

Where the service's design description and the code differ, the model
follows the code:

- An entry whose question and answer are both empty can occur (a history
  user message with empty content). See `History.EmptyEntry`.
- A second assistant message after a question replaces the first answer;
  it is not kept. See `History.AnswerReplaced`.
- A leading empty system content leaves no trace in the merged system
  text. The separator is written only when the text built so far is
  non-empty. See `Messages.SystemTextIsJoin`.
- The comment beside the token estimate gives non-ASCII characters a
  weight of 0.6; the code uses 1. The model uses 1.

## Model

| member | source | states |
|---|---|---|
| `Handler.Handle` | api/main.go:222-303 | the handler's outcome, taken branch by branch in the source's order, is the reference outcome `Respond` |
| `Handler.HandleChat` | api/main.go:303-583 | the chat pipeline (normalise, fold, upload history, build the query, attach cookies) ends as `ChatOutcome` says: the first upload failure gives 500 with its message, an empty message list panics, otherwise the upstream call |
| `Handler.PrepareHistory` | api/main.go:303-469 | the messages after system normalisation are `Normalised`, and the rewritten history is `ExternaliseAll` of the folded history |
| `Handler.TurnQuery` | api/main.go:487-583 | the query for the current turn equals `BuildQuery`: the last message is uploaded exactly when its estimate exceeds 2000, and a failed upload step gives its error |
| `Handler.BearerCredential` | api/main.go:286-291 | a credential exists iff the header starts with "Bearer ", and prefix plus credential give back the header |
| `Handler.BearerRoundTrip` | api/main.go:286-291 | the header "Bearer " + c is read as credential c |
| `Handler.UnauthorisedBeforeBody` | api/main.go:285-298 | without a bearer header a chat request gets 401, whatever its body |
| `Handler.UndecodableBody` | api/main.go:293-298 | an authorised request whose body does not decode gets 400 "Invalid request body" |
| `Handler.ModelRoutes` | api/main.go:224-263 | both model paths answer OPTIONS with a preflight; otherwise they list every table model, only table models, and one entry per agent id |
| `Handler.OtherPaths` | api/main.go:265-273 | any path outside the model and chat paths gets the service-status object |
| `Handler.EmptyConversationPanics` | api/main.go:488 | an authorised chat request with no messages reaches the index of the last message and panics |
| `Handler.UpstreamCarriesCredential` | api/main.go:622-628 | a request that reaches the upstream carries the credential as the DS cookie, the fixed cookie names, and the requested model and mode unchanged |
| `Handler.SingleShortMessage` | api/main.go:573-582 | a single short non-system message goes upstream as `q` itself, with no sources and an empty history |
| `Messages.ConvertSystemToUser` | api/main.go:916-947 | the result has no system message; without system messages the list is unchanged; otherwise it is one user message holding the merged system text, followed by the other messages in order |
| `Messages.NonSystemFacts` | api/main.go:926-936 | the kept messages have no system role; nothing is dropped iff there is no system message; the kept messages and the system contents together account for every message |
| `Messages.NormalisedNonEmpty` | api/main.go:916-947 | normalisation gives an empty list iff its input is empty |
| `Messages.SystemTextIsJoin` | api/main.go:926-932 | the merged system text is the system contents joined by "\n" after leading empty contents are dropped |
| `Messages.SystemTextJoinWhenFirstNonEmpty` | api/main.go:926-932 | when the first system content is non-empty, the merged text is exactly their "\n" join |
| `Messages.SystemOnly` | api/main.go:938-946 | a request made only of system messages becomes one user message |
| `Tokens.CountTokens` | api/main.go:890-913 | the loop computes `TotalTokens`, at least 2 per message, and never reports an error |
| `Tokens.TotalTokensAtLeast` | api/main.go:910 | every message costs at least its 2 role tokens |
| `Tokens.TotalTokensAppend` | api/main.go:892-911 | the estimate of a concatenation is the sum of the estimates |
| `Tokens.MessageTokensBounds` | api/main.go:907-910 | a message's estimate lies between 2 + 3n/10 and n + 2 for n characters |
| `Tokens.DoubledAscii` | api/main.go:907 | for ASCII text, doubling the text doubles the estimate up to the rounding of 0.3 per character |
| `Tokens.CountsPartition` | api/main.go:898-904 | every character is counted as ASCII or as non-ASCII, never both |
| `PlainText.EnsurePlainText` | api/main.go:959-975 | the loop keeps the length, keeps every allowed character and turns every other one into a space |
| `PlainText.FilteredIsPlain` | api/main.go:959-975 | the filtered text contains only allowed characters |
| `PlainText.FilteredIdentity` | api/main.go:959-975 | text that is already plain is left unchanged |
| `PlainText.FilteredIdempotent` | api/main.go:959-975 | filtering twice is filtering once |
| `PlainText.AddUtf8Bom` | api/main.go:950-956 | the file starts with the bytes EF BB BF |
| `PlainText.AddUtf8BomLength` | api/main.go:950-956 | the file has 3 + n bytes plus 2 per CJK character of the content |
| `PlainText.ReadAfterAddUtf8Bom` | api/main.go:950-956 | reading the file back (skip the BOM, decode UTF-8) gives the filtered content |
| `History.FoldHistory` | api/main.go:313-377 | the fold of all messages but the last equals `Turns` of their user and assistant messages; with at most one message the history is empty |
| `History.QuestionAnswered` | api/main.go:345-349 | a user message followed by an assistant message gives one entry with that question and answer |
| `History.AnswerReplaced` | api/main.go:346-349 | a second assistant message replaces the first answer |
| `History.LeadingAssistant` | api/main.go:353-358 | an assistant message with no question gives an entry with an empty question |
| `History.EmptyEntry` | api/main.go:370-375 | a lone user message with empty content gives an entry with both halves empty |
| `History.UsersMerged` | api/main.go:337-339 | consecutive user messages merge into one question joined by "\n" with an empty answer |
| `History.SnocUserNew` | api/main.go:325-336 | a user message after an answer (or at the start) opens a new entry and keeps the earlier ones |
| `History.SnocUserMerge` | api/main.go:337-339 | a user message after an unanswered question extends that question by "\n" and its content |
| `History.SnocAssistant` | api/main.go:345-359 | an assistant message sets the answer of the last entry, or opens an entry with an empty question at the start |
| `History.TurnsAtBoundary` | api/main.go:322-361 | splitting a conversation where a user message follows an assistant message splits its history at that point |
| `Externalise.ExternaliseHistory` | api/main.go:380-469 | the in-place loop succeeds iff `ExternaliseAll` succeeds; on success the array holds the rewritten history and the sources returned are its sources; on failure the message is that of `ExternaliseAll` |
| `Externalise.ExternaliseEntry` | api/main.go:381-468 | processing entry i touches no other slot: on success slot i becomes the entry `EntryOf` gives and the sources grow as it says; on failure the message is that of `EntryOf` and every other slot is unchanged (slot i may be half rewritten) |
| `Externalise.ExternaliseCharacterised` | api/main.go:380-469 | processing succeeds iff every upload of the contents that need one succeeds; the sources are those uploads in order, with the byte length of the original content; the fields that needed an upload hold the placeholders of those sources, every other field is unchanged; a failure carries the message of the first failing upload |
| `Externalise.EntryCharacterised` | api/main.go:383-468 | the same for one entry: its question is uploaded before its answer, and the first failure stops it |
| `Externalise.NothingToUpload` | api/main.go:383-430 | a history with no long question and no non-empty answer is kept as it is, with no sources |
| `Externalise.FailureSticks` | api/main.go:391-455 | a failure on a prefix of the history is the failure of the whole history: later entries are never processed |
| `Externalise.Placeholder` | api/main.go:425 | the placeholder starts with the fixed prefix and ends with ".txt" |
| `Externalise.PlaceholderExtension` | api/main.go:425 | the extension is never doubled: a name with or without ".txt" gives the same placeholder |
| `Externalise.PlaceholderInjective` | api/main.go:425 | equal placeholders come from names equal up to a trailing ".txt" |
| `Upstream.QueryParams` | api/main.go:495-582 | every parameter occurs at most once; `sources` is present iff some source was collected and then holds all of them; `q` is the placeholder of the uploaded turn or the turn itself; `chat`, `pastChatLength` and `traceId` carry the history, its length and the trace id; the selector is the agent id or "custom" with the mapped model |
| `Upstream.BuildQueryCases` | api/main.go:529-582 | building the query fails iff the turn needs an upload and a step of it fails, with that step's message; otherwise it is the query for the collected sources and text |
| `Upstream.QueryBase` | api/main.go:496-514 | the fixed parameters carry the chat id as query trace id and chat id, the turn id, the history length and the trace id at their places |
| `Upstream.QuerySelector` | api/main.go:516-527 | an agent model is sent as the chat mode with no AI model; any other model as the mapped AI model with mode "custom" |
| `Upstream.QueryTail` | api/main.go:567-582 | the sources (only when there are any), then `q`, then `chat` end the query |
| `Upstream.QueryDistinct` | api/main.go:495-582 | no parameter name is added twice |
| `Upstream.LookupDistinct` | api/main.go:583 | in a query without repeated names, each parameter is found under its own name |
| `ModelNames.ReadsBackAll` | api/main.go:138-196 | every table model mapped upstream and back gives itself |
| `ModelNames.ModelMapInjective` | api/main.go:138-170 | no two table models share an upstream name |
| `ModelNames.ReverseModelMap` | api/main.go:173-179 | the reverse table's keys are the upstream names, and each maps back to a model that maps to it |
| `ModelNames.MapModelNameInTable` | api/main.go:182-187 | every model, known or not, is mapped to an upstream name of the table |
| `ModelNames.ReverseAfterMap` | api/main.go:182-196 | mapping a table model and reversing gives it back |
| `ModelNames.MapAfterReverse` | api/main.go:182-196 | reversing a table upstream name and mapping again gives it back |
| `ModelNames.ReverseAfterMapUnknown` | api/main.go:182-196 | an unknown model comes back as "deepseek_v3" |
| `ModelNames.ReverseUnknown` | api/main.go:190-196 | an upstream name outside the table is reversed to "deepseek-chat" |
| `ModelNames.EnvelopeModelInTable` | api/main.go:721 | the model in every response envelope is a table model: the requested one if known, else "deepseek_v3" |
| `ModelNames.IsAgentModel` | api/main.go:48-55 | a model is an agent model iff it occurs among the agent ids |
| `ModelNames.GetCookies` | api/main.go:663-673 | the cookies are exactly the seven fixed names, and DS holds the credential |
| `ModelNames.ListModels` | api/main.go:235-259 | the list object holds one detail per table model and nothing else, then one per agent id in order, all with the same creation time |
| `Translate.CollectContent` | api/main.go:694-709 | the non-streaming content is the in-order concatenation of the tokens of the event data lines that carry "data: " and parse |
| `Translate.StreamChunks` | api/main.go:757-789 | one chunk per token event, in order, each carrying that event's delta and its own clock reading |
| `Translate.StreamMatchesAggregate` | api/main.go:694-789 | when every data line carries "data: ", the streamed deltas add up to the non-streaming content |
| `Translate.UnprefixedDataDiffers` | api/main.go:700-766 | a data line without the prefix that parses is streamed but not aggregated |
| `Translate.EventConsumesNext` | api/main.go:697-699 | the line after an event is its data line and is never examined as an event |
| `Translate.BackToBackEvents` | api/main.go:697-699 | two event lines in a row give one data line: the second event line |
| `Translate.EventAtEnd` | api/main.go:697-699 | an event on the last line reads an empty data line |
| `Translate.HelloExample` | api/main.go:694-789 | three token events give the content "Hello!" and three deltas in order |
| `Translate.StatusPassedThrough` | api/main.go:646-651 | a first answer with a status other than 200 is passed through with "API returned status %d" |
| `Translate.CompletionShape` | api/main.go:711-732 | a completion is sent only in non-streaming mode after a complete read; it holds one assistant choice with the aggregated content and the envelope model |
| `Translate.StreamShape` | api/main.go:742-789 | a stream reply has one chunk per token event of the second answer, in order |
| `Translate.Respond` | api/main.go:634-791 | the method's reply is `Conclude`: connection errors give 500, a bad status passes through, then the chosen mode's scan |
| `Translate.EnvelopeModel` | api/main.go:721 | the envelope model is in the table: the requested model if known, else "deepseek_v3" |
| `Text.DecodeEncode` | api/main.go:955 | UTF-8 decoding of the encoding of any text gives it back |
| `Text.EncodeLength` | api/main.go:564 | the encoding has `Utf8Length` bytes, Go's `len` of a string |
| `Text.TrimPrefix` | api/main.go:291 | when the prefix is present, prefix plus result is the input; otherwise the input is unchanged |
| `Text.TrimSuffix` | api/main.go:572 | when the suffix is present, result plus suffix is the input; otherwise the input is unchanged |

## Left out

- HTTP transport, response headers (content type, CORS, event-stream headers) and JSON encoding of replies: the model returns typed outcomes (`Handler.Outcome`, `Translate.Reply`) instead of bytes on the wire.
- JSON encoding of the `chat` and `sources` query values: they are kept as the typed values they encode (`Upstream.Value`). The model therefore does not show the text Go sends; for example an empty history is a nil slice and is sent as `chat=null`, not `[]`.
- `getNonce`, `generateShortFileName`, the temporary file, its deferred removal and `uploadFile`: together they are the `Uploader` parameter. It is given the number of uploads before it and the file's bytes, and answers with the file names or which step failed.
- The UUIDs, the RFC 3339 time and the Unix time: parameters (`Correlation`, `Stamp`, `Clock`, `now`).
- JSON parsing of `youChatToken` events: an abstract partial function `TokenParser`. Decoding the request body is given as already decoded or not.
- Tokens.CountTokens: the floating-point product is replaced by the exact integer value ⌊3e/10⌋ + c. Floating-point rounding is not modelled.
- Go map iteration order: the model list keeps the table models as a set, and the cookie header's order is not modelled.
- `url.Values.Encode` sorts parameters by name. The model keeps them in the order they are added, and states its properties by lookup by name.
- The globals `originalModel` and `agentModelIDs`: explicit parameters. Reading the agent ids from the environment (`initAgentModelIDs`), logging and concurrent requests are not part of this model.
- Invalid UTF-8 in Go strings: text is a sequence of Unicode scalar values.
- `bufio.Scanner`'s buffer limit: a read failure is a flag on the upstream answer.
- The upstream is requested twice: once for the status and once by the chosen response handler. The two answers are separate inputs.
- Externalise.ExternaliseHistory: when an upload fails the handler returns at once. The contents of the partly rewritten history are then not stated, since nothing reads them.
- The configuration, proxy, logger and metrics packages and `start.go` are not part of this model.
