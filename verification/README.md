# Verified models of an MCP client and server library

The library speaks the Model Context Protocol in Go. This project models its most intricate code in
Dafny and proves what that code is for. Paths below are relative to the root of the repository.

- **The connection engine** (`Engine`, `EngineSafety`, `EngineRuns`, `EngineCalls`, `EngineExclusions`, with `Catalogue`, `Credential`, `Versions`,
  `Handshake`, `Withdrawn`). One transport is shared by any number of goroutines that take turns at
  a one-slot exchange gate. `Engine` is a transition system whose steps are the atomic sections of
  `protocol.go` and `client.go`; token changes, list-changed announcements, and `Client.Disconnect`
  (which does not take the gate) are steps of the world. `recordListing` is two steps, since it reads
  the generation before it takes the mutex. Every definition carries which generation,
  authorization and announcement count it came from; these marks are never consulted by a step.
  The objects behind it are classes: the catalogue (`Catalogue.Client`), the HTTP credential
  (`Credential.HttpCredential`), the handshake against an arbitrary peer (`Handshake.Negotiation`),
  and the record of withdrawn requests (`Withdrawn.Channel`). Both the classes and the transition
  system use the same functions (`Recorded`, `LookedUp`, `Settled`, ...), so a method's contract is
  what ties an object to the steps.
- **The tool catalog** (`Wire`, `ToolReply`, `DocReader`, `CatalogReport`, `CatalogReading`, `CatalogFailure`, `CatalogBatch`,
  `CatalogFloor`, `CatalogSearch`). An encoder of documents with both of its ways to escape, sizes
  that add up, a reader that finds what a document holds under a key, replies measured on a stand-in, failure reports clipped to fit, the batch loop, and
  the search.
- **Numbers** (`Decimal`, `CanonicalNumber`, `IntegralNumber`): digit-level algorithms held
  against the value a literal denotes, a real number.
- **Header values** (`Base64`, `HeaderValue`): two encoders and one strict decoder over the base64
  of RFC 4648, sections 3.5 and 4.
- **Pages** (`Pages`, `Pagination`), **argument paths** (`Json`, `ArgPath`), **uri templates**
  (`UriTemplate`), **annotated schemas** (`MirroredSchema`, `MirroredPlaces`, `MirroredParameters`).
- **Stdio flow control** (`Stdio`): the reader, the receivers and the backlog between them as a
  transition system at the granularity of their locks.

Where the code does not do what a first reading suggests, the model follows the code:

- Two spellings of one number whose exponent lies beyond 2^30 may stay apart
  (`CanonicalNumber.BeyondTheBound`); `CanonicalNumber.SameSpelling` says exactly when equal values
  are rewritten alike.
- The two header encoders disagree on one byte string, `=?base64?=`, whose markers overlap
  (`HeaderValue.EncodersDifferOnOverlapAlone`); decoding inverts both all the same.
- `Receive` takes the error a stream ended with while a line is still waiting, returns the line, and
  drops the error (`Stdio.EndingLost`): nothing later reports it (`Stdio.LostForGood`), so the next
  receiver waits until its timeout. It can be lost exactly where
  a line is still waiting when the stream ends (`Stdio.EndingMayLose`).
- `ExcludedTools` reads the number of the token presented before it takes the mutex. For a token not
  settled yet that number is foretold, and another token may be given it in between: the refused tools
  shown may then be another caller's (`EngineExclusions.AnothersMayBeShown`).

## Model

| member | source | states |
|---|---|---|
| EngineSafety.EveryRunIsSafe | client/protocol.go:650-690 | In every interleaving from the start: each call frame sent has its mirrored headers from what was stated over the frame's own generation and authorization, and has none exactly where the version its generation was settled on is one that initialize negotiates; what came from the catalogue was fresh when looked up and was read by a listing that set out after the last announced change; each result shown belongs to the token presented; refused tools shown on a look under the token then settled were refused for that token; a connected client with a free gate has a recorded connection with exactly one result, of its version's handshake. |
| EngineSafety.NextKeeps | client/protocol.go:418-464 | Every atomic section of every goroutine, and every move of the world, keeps the invariant the safety properties rest on. |
| EngineSafety.GenerationsCountSettlements | client/protocol.go:450-464 | Over any run the generation is the number of connections settled; what a generation was settled under and on, and which token an authorization stands for, is never rewritten. |
| EngineSafety.RecordHeldKeeps | client/client.go:389-408 | Recording what a call read under the gate keeps the catalogue's marks right even when an announcement or another recording falls between reading the generation and taking the mutex. |
| EngineSafety.LookedUpStands | client/client.go:419-431 | A definition found in the catalogue for the standing generation was stated under the standing authorization and no announcement since its listing set out. |
| EngineSafety.AroundKeeps | client/client.go:277-279 | A disconnect that does not take the gate, time passing and a changed token keep the invariant whoever holds the gate. |
| EngineSafety.PageReadKeeps | client/protocol.go:598-609 | The generation and the authorization a held connection goes by are those its frames really travel over and present, so a page dated by the one is marked with the other. |
| EngineSafety.AgreeingKeeps | client/negotiation.go:159-162 | A connection recorded under the authorization its handshake was run for belongs to the credential its frames presented. |
| EngineCalls.EveryCallMayLeave | client/protocol.go:813-824 | From wherever a call stands over its connection, whatever the catalogue keeps of the tool, some run sends it next: without headers exactly where the version settled is one that initialize negotiates, with them exactly where it is not. |
| EngineCalls.FramesBounded | client/protocol.go:661-680 | No run sends more than six frames for one call: one attempt, one more for a session lost, one more for a version refused, and the same again for the one repeat after a header mismatch. |
| EngineExclusions.AnothersMayBeShown | client/client.go:363-371 | Whoever looks at the refused tools with the gate free may, in some run from there, be shown tools refused for another token exactly where the token then presented is not the one last settled. |
| EngineExclusions.ForetoldMaySeeAnothers | client/client.go:363-371 | The run that does: the number foretold for one token is settled for another between the two reads, and a listing is read and recorded under it. |
| EngineExclusions.ShownExactly | client/client.go:363-371 | In every run from the start, refused tools shown were refused for the token looked under exactly where that token was the one last settled at the look, or the first settled after it. |
| Engine.Stamped | client/client.go:332-349 | A page's entries carry the generation, authorization and announcement count they were read under and go stale when the page does. |
| Catalogue.Client.RecordListing | client/client.go:389-408 | The new state of the catalogue: nothing of a crossed or outlived listing, nothing where an announcement came since it set out, and otherwise what it stated for its own generation. |
| Catalogue.Client.StatedFor | client/client.go:419-431 | A definition, an absence claim of a whole catalogue, or nothing, by generation and freshness, after dropping what belongs to another connection. |
| Catalogue.Client.ServerNotified | client/client.go:104-112 | An announced change empties the catalogue and is counted; any other notification changes nothing. |
| Catalogue.Client.ForgetOtherConnection | client/client.go:439-444 | What was stated over another generation is gone, what was stated over this one stands. |
| Catalogue.Client.ExcludedTools | client/client.go:363-371 | The second of the two reads, as the engine takes it: what the last listing refused, where it was asked for under the authorization the first read found. |
| Catalogue.StatedFromEntry | client/client.go:332-349 | A definition stated for a name is that of an entry the listing carried under it. |
| Catalogue.RecordedIsFound | client/client.go:389-431 | What a listing states last for a tool, recorded for the connection it was read over with no change announced meanwhile, is found again while it is fresh; what a whole listing does not state is found absent until the listing goes stale. |
| Credential.NumberStandsForOneToken | client/transport_http.go:125-145 | Over every sequence of tokens two settlements have one number exactly when the token did not change in between: a token that comes back gets a number of its own. |
| Credential.NumbersGrow | client/transport_http.go:125-134 | Numbers never fall. |
| Credential.HttpCredential.SettleAuthorization | client/transport_http.go:125-134 | The new credential and the number of the token settled. |
| Credential.HttpCredential.AuthorizationContext | client/transport_http.go:138-145 | The number the present token stands for, or would be settled as, with nothing settled. |
| Credential.HttpCredential.Presented | client/transport_http.go:159-166 | The frames of an exchange carry the token settled for it, as every connection of the engine is settled with, whatever the callback resolves by then. |
| Versions.PreferredIsNewest | client/protocol_version.go:96-105 | The preferred version is ours, was offered, and nothing newer of ours was; there is none exactly when none of ours was offered. |
| Versions.PreferredProtocolVersion | client/protocol_version.go:96-105 | The two loops compute that preference. |
| Handshake.Negotiation.Run | client/negotiation.go:116-154 | Against any peer at most five request frames; success records a well-settled connection that is the one the last turn's reply settles: the version initialize's answer chose, or the newest of ours that discovery's answer offers, with that answer as its result and its lifetime counted from now; of the pinned version where one is pinned; an unsupported pin sends nothing; failure leaves the old connection or none. The turns from where a probe begins heed every rejection, and a probe left unanswered is the last of them and the failure reported. |
| Handshake.Negotiation.Probe | client/negotiation.go:188-246 | At most four frames, the first a discovery; what is settled is what the last reply settles; a fallback is tried exactly where discovery's failure allows one; a rejection on discovery's terms leads only to an initialize of a version on its own list, and a probe left unanswered settles nothing and ends it. |
| Handshake.Negotiation.Fallback | client/negotiation.go:276-297 | Only initialize of the fallback version is asked, again after a failed answer exactly where the channel was gone, the context not done, and it opens anew, and not after a rejection on discovery's own terms; success is what the last reply settles. |
| Handshake.Negotiation.NegotiateDown | client/negotiation.go:302-308 | The one frame that may follow a rejection offers the newest shared version of its list, and is sent exactly where that is one initialize negotiates; success is what its reply settles. |
| Handshake.Negotiation.Initialize | client/negotiation.go:340-361 | One frame; success exactly where the server answers with a version initialize negotiates, the one offered where it is exact, and takes the notification; then the version settled is the one it chose, with its result; a failed answer is the failure reported. |
| Handshake.Negotiation.Discover | client/negotiation.go:367-395 | Discovery is asked first, alone where the version is pinned; what is settled, with the answer as its result and its lifetime, or asked for by initialize next, is the newest version of ours on the server's own list; a failed answer is the failure reported. |
| Withdrawn.Channel.ExchangeFrame | client/protocol.go:1037-1081 | For every inbox and record, how the exchange ends and after how many frames: with the reply where the last frame read carries its own id or is a null-id error with no withdrawal open, refused where it is no message or a request over discovery, lost where none came, over where the context was done before the next; every frame before it was passed over. The null-id errors passed over are exactly as many as withdrawals were closed by one meanwhile. |
| Withdrawn.EndedExactly | client/protocol.go:1043-1080 | Each way to end, exactly by the last frame read: a reply, a refusal and a missing frame exclude one another, and any other frame ends nothing but by the context or the end of what is delivered. |
| Withdrawn.EndedOnce | client/protocol.go:1043-1080 | What is delivered and what was withdrawn leave one outcome and one count of frames read. |
| Withdrawn.NoneSkipped | client/protocol.go:1043-1080 | No frame read past was the exchange's reply, one that ends it, or a missing one, and none after the first was read with the context done. |
| Withdrawn.Channel.Attempt | client/protocol.go:790-860 | One request as a step from what the channel held to what it holds: its id is new; its exchange ends as the inbox and the record have it end; a reply is its own; each null-id error passed over is charged to a withdrawal of its own; exactly when it counts as withdrawn and is recorded; a failed request clears the record where a connection is settled and leaves it standing while none is. |
| Withdrawn.Channel.Account | client/protocol.go:949-961 | The record is the unlapsed withdrawals with this one last, the oldest displaced beyond 64, and one withdrawal more was made. |
| Withdrawn.Channel.RepliesToWithdrawn | client/protocol.go:1002-1012 | A null-id error is a late reply exactly when an unlapsed withdrawal is open, and takes the oldest with it. |
| Withdrawn.Channel.AccountedFor | client/protocol.go:983-993 | The withdrawal of that id is answered; the others stay, in order. |
| Withdrawn.Channel.Withdraw | client/protocol.go:878-921 | Exactly when a failed exchange counts as withdrawn, and what the record holds then. |
| Withdrawn.LapseOpens | client/protocol.go:965-973 | The filter in place leaves exactly the open withdrawals that have not lapsed. |
| Withdrawn.AnswerOpens | client/protocol.go:983-993 | Cutting an id out of the record closes that withdrawal and no other. |
| Withdrawn.OpensOrdered | client/protocol.go:949-961 | The record is always a subsequence in the order the withdrawals were made. |
| Withdrawn.PassedAtMostWithdrawn | client/protocol.go:995-1012 | Over any run of requests, through every disconnect, the null-id errors passed over are no more than the withdrawals unspent at its start and those made in it. |
| Withdrawn.PassedFromStart | client/protocol.go:995-1012 | From an empty record, no more null-id errors are passed over than withdrawals are recorded. |
| Withdrawn.EveryTurnHolds | client/protocol.go:790-860 | In every turn of any run the reply is the request's own, its id counted up from the start; what is held is the ordered record of at most 64 withdrawals, none lapsed where one is recorded. |
| Pages.ReadPages | client/methods.go:159-226 | For every server: at most 1000 pages with pairwise distinct cursors, every page after the first asked under the first one's authorization; success is the pages concatenated and cut at the limit, dated by the earliest, of generation g only if all pages were; each failure is explained by what was read. |
| Pages.ReadPage | client/methods.go:159-226 | One page appended, and whether to go on, stop or fail. |
| Pages.AppendPage | client/methods.go:205-214 | The objects of the page up to the limit or to the first entry that is none. |
| Pages.OneCaller | client/methods.go:159-226 | Of a server that insists on the authorization asked for, all pages of a finished reading were read by one caller. |
| Pages.ListOn | client/methods.go:80-98 | A listing whose authorization changed is begun once more, and only once; a negative limit is refused. |
| Pages.DatedDescribes | client/methods.go:183-196 | Dating a listing page by page keeps its generation, authorization and staleness those of all its pages. |
| Pagination.FollowPaginator | server/pagination.go:31-52 | The client's loop over the paginator returns the server's items once each and in order in max(1, ceil(n/perPage)) pages, and fails only beyond 1000 pages. |
| Pagination.NeverRepeats | client/methods.go:159-226 | No cursor of the paginator is ever one asked with before. |
| Pagination.PagesAsked | server/pagination.go:31-52 | No more pages are asked for than the items fill. |
| Pagination.CursorRoundTrip | server/pagination.go:56-86 | A cursor handed out leads back to its offset. |
| Wire.SizeIsBytes | server/tool_catalog.go:1700-1706 | The size built up from a document's parts is the length of what the encoder writes, in bytes of UTF-8. |
| Wire.BurdenIsWeight | server/tool_catalog.go:572-586 | The same for the text of a document, escaped again where it is embedded in a content item. |
| Wire.EmbeddedNoShorter | server/tool_catalog.go:1098-1112 | A payload's unescaped text embedded in a string is never shorter than the payload on the wire. |
| ToolReply.LedSize | server/invoke.go:77-95 | What a tool result led by a text item measures, from its text, its items and its metadata. |
| CatalogReport.EntryFor | server/tool_catalog.go:636-671 | An entry carries every object item, the structured content and the metadata of its call, with sizes that are those on the wire, and is marked where something does not encode. |
| CatalogReport.Substitution | server/tool_catalog.go:820-872 | The reply measures what its stand-in does plus what the placeholders leave out, for every report and every set of entries. |
| CatalogBatch.Batch.Render | server/tool_catalog.go:820-872 | The reply, and as its size the exact length of its encoding; none exactly when some entry does not encode. |
| CatalogBatch.Forwarded | server/tool_catalog.go:843-855 | The loop's contents, placeholders and difference are those the substitution is stated for. |
| CatalogBatch.Batch.FailReply | server/tool_catalog.go:915-944 | A failure's reply fits exactly when it does with no name at all; it names the call whole if that fits, else by the longest clip that does, else not. |
| CatalogBatch.Batch.CanReport | server/tool_catalog.go:954-958 | Whether the costlier failure of the call fits beside all results held, by its name or without it. |
| CatalogFailure.WorstIsWorst | server/tool_catalog.go:488-494 | Neither failure costs more to report than the one room is reserved for. |
| CatalogFailure.FailSizeByTexts | server/tool_catalog.go:915-944 | Two failure replies over the same results differ by their texts alone. |
| CatalogFailure.ShorterFits | server/tool_catalog.go:546-551 | Where a longer clip fits every shorter one does, so bisection is sound. |
| CatalogFailure.LongestFit | server/tool_catalog.go:557-568 | Bisection finds the largest count that fits. |
| CatalogBatch.RoomForEither | server/tool_catalog.go:946-965 | Room reserved before a call runs is room for either way it may fail. |
| CatalogBatch.Handle | server/tool_catalog.go:1365-1460 | For every batch, every tool and every limit: the calls run are the first attempted ones, once and in order; the text that leads the reply encodes a payload that holds, under each key, the calls requested, attempted and reported, ok, complete, the failure, the omitted call and every record; the content and the metadata of the kept calls stand behind it and beside it, whole and in order; no earlier result is dropped; the reply is within the limit once a call ran; the batch stopped for a stated reason, and an omitted call is named with it, in the words of the failure it was. |
| CatalogReading.ReplyReads | server/tool_catalog.go:438-461 | What a reader that goes by keys alone finds in a reply is what it was made from, each value under its own key and under no other. |
| CatalogFloor.WithinBounds | server/tool_catalog.go:211-218 | Under the bounds the limits are held to, every reply is within its limit and the first call always runs. |
| CatalogFloor.FirstFailure | server/tool_catalog.go:54-59 | The floor holds the smallest failure report of a first call, for every batch and every limit allowed. |
| CatalogSearch.Search | server/tool_catalog.go:1098-1134 | The reply carries the largest number of the best entries that fits, up to the limit, and says whether more matched; where entries match and not one fits it is the limit report. A reader that goes by keys finds so. |
| CatalogSearch.ReplyOutweighs | server/tool_catalog.go:1098-1112 | A reply is longer than the prepared sizes of its entries together: pruning by them loses nothing. |
| CatalogSearch.Rank | server/tool_catalog.go:1145-1192 | Every matching entry once, by falling score, in registration order among equals. |
| CatalogSearch.RanksOnce | server/tool_catalog.go:1178-1184 | There is only one such ranking. |
| CatalogSearch.DropRepeats | server/tool_catalog.go:1271-1283 | In place, each term once where it first stood. |
| CatalogSearch.DistinctOnce | server/tool_catalog.go:1271-1283 | Those terms are the same terms, with none twice. |
| CatalogSearch.MatchesSomewhere | server/tool_catalog.go:1155-1176 | An entry matches exactly when nothing is asked for, when the query spells its name, or when a term of the query stands in its name, title, description or schema. |
| CatalogSearch.PlacesWeigh | server/tool_catalog.go:1159-1172 | A term found in one place alone scores more in the name than in the title, there than in the description, and there than in the schema; a place more always scores more. |
| CatalogSearch.NameOutranks | server/tool_catalog.go:1155-1172 | A query of one word puts the tool called by it before every tool called otherwise, wherever that one mentions it. |
| CanonicalNumber.CanonicalNumber | mcptest/jsonvalue.go:143-182 | The loops compute the spelling of the canonical literal. |
| CanonicalNumber.ValueKept | mcptest/jsonvalue.go:136-142 | Every literal keeps its value, whatever its exponent. |
| CanonicalNumber.SameSpelling | mcptest/jsonvalue.go:143-182 | Two literals are rewritten alike exactly when they denote one value and each has a bounded exponent or is written in the canonical form already, or they are one literal. |
| CanonicalNumber.BeyondTheBound | mcptest/jsonvalue.go:159-162 | For every exponent beyond the bound, two spellings of one value that stay apart. |
| CanonicalNumber.NormalisedAlike | mcptest/jsonvalue.go:117-134 | Two documents are rewritten alike exactly when they are one document but for the spelling of their numbers. |
| Decimal.TakenApart | client/mirrored.go:497-519 | A literal's text is cut into exactly that literal. |
| Decimal.Reassembled | client/mirrored.go:497-519 | Whatever the text, its parts spell it again. |
| Decimal.AtoiPower | client/mirrored.go:529-539 | An exponent parses exactly when a machine int holds it, and to its value. |
| IntegralNumber.IntegralNumber | client/mirrored.go:497-566 | For every text: the result is v exactly when the text is a number denoting v with v and its negation in a machine int; wrapping of the point lets nothing wrong through and keeps nothing right out. |
| IntegralNumber.StandingExact | client/mirrored.go:541-553 | The digits and the point tell exactly which whole number, if any, is denoted. |
| IntegralNumber.ReadExact | client/mirrored.go:543-565 | Whatever the exponent, what is read with the point where a machine int puts it is what is read with the true one. |
| IntegralNumber.MirroredInteger | client/mirrored.go:466-487 | Rendered, as its decimal digits, exactly when the number is whole and within 2^53-1. |
| IntegralNumber.LifetimeOf | client/caching.go:35-61 | Whole milliseconds above none in nanoseconds, held to the longest duration; anything else is no lifetime. |
| HeaderValue.DecodesExactly | transport/headervalue.go:65-78 | A header decodes to a value exactly when it is that value as a literal or its one wrapped spelling. |
| HeaderValue.SentAsItIs | transport/headervalue.go:37-42 | The server's encoder leaves a value alone exactly where every byte is 0x21 to 0x7E, or 0x20 or 0x09 inside, and it has not the markers of a wrapped one. |
| HeaderValue.ServerRoundTrip | transport/headervalue.go:37-42 | Decoding inverts the server's encoder on every byte string. |
| HeaderValue.ClientRoundTrip | client/headers.go:97-128 | Decoding inverts the client's encoder on every byte string. |
| HeaderValue.EncodersDifferOnOverlapAlone | client/headers.go:106-108 | The encoders agree on every byte string but the one whose markers overlap. |
| HeaderValue.OneWrappedSpelling | transport/headervalue.go:44-64 | Two wrapped headers that decode to one value are one header. |
| HeaderValue.BreaksAreSkipped | transport/headervalue.go:100-122 | The base64 decoder alone would read a line break past: the literal check is what shuts it out. |
| Base64.StrictIsCanonical | transport/headervalue.go:65-78 | What a strict decoder accepts unbroken is the encoder's own spelling. |
| ArgPath.ResolvePath | server/argpath.go:129-146 | The walk over the text of a path is the walk over its segments. |
| ArgPath.SplitJoins | server/argpath.go:129-146 | The segments a path is cut into at its dots spell it again. |
| ArgPath.Collect | server/argpath.go:224-242 | A star collects from every element, one level collapsed where another star follows. |
| ArgPath.StarPathReads | server/argpath.go:224-242 | A path with stars reads, when its first star meets a container, one list: all that stands at its last star, in order over all branches, each with what the rest finds or a hole; otherwise nothing. |
| ArgPath.OneStarKeepsPlace | server/argpath.go:214-223 | With one star the i-th entry is what the rest finds from the i-th element, or a hole. |
| ArgPath.HasWildcardSegment | server/argpath.go:310-319 | Whether a star is among the segments. |
| ArgPath.IndexIsCanonical | server/argpath.go:195-212 | A segment is an index exactly when it is the decimal spelling of one below the length. |
| ArgPath.MemberReads | server/argpath.go:148-212 | A name reads an object's member so called, or the element of an array whose place it spells in decimal, and nothing else. |
| ArgPath.EngineValue | server/argpath.go:111-126 | The loop is the rules' own walk over nested objects. |
| ArgPath.EngineFindsNoMore | server/argpath.go:111-126 | What the rules find under a path without stars the accessors find there too. |
| ArgPath.RuleFieldFault | server/argpath.go:95-105 | A field is refused exactly when it has a star or the rules and the accessors would read differently. |
| ArgPath.FaultOnlyWhereNothingFound | server/argpath.go:95-105 | Without a bound name, that is exactly where the rules find nothing and the accessors something. |
| Json.KeysAscend | server/argpath.go:244-256 | The order a star visits an object's members in is that of their keys, none twice. |
| UriTemplate.MatchURITemplate | server/uritemplate.go:25-87 | A match is one by the values the literals leave; no match means there is none. |
| UriTemplate.MatchInvertsExpansion | server/uritemplate.go:25-87 | The values found are exactly those that expand to the uri, all saying something, all but the last within a segment, and with no literal standing before its place. |
| UriTemplate.SubstitutesBack | server/uritemplate.go:25-87 | With distinct names, what a match states put back for the names is the uri. |
| UriTemplate.AdjacentNeverMatch | server/uritemplate.go:71-77 | Two placeholders with nothing between them match no uri. |
| UriTemplate.ParseReassembles | server/uritemplate.go:93-113 | Taking a template apart loses and moves nothing. |
| UriTemplate.HoleIsFirst | server/uritemplate.go:95-111 | A placeholder runs from the first brace that opens to the first behind it that closes, and there is one wherever any brace that opens has one that closes behind it. |
| UriTemplate.ParseTemplate | server/uritemplate.go:93-113 | The loop takes a template apart that way. |
| MirroredParameters.ParseMirroredParameters | client/mirrored.go:148-162 | The parameters are all annotated properties, and there are any exactly when every object that carries the annotation is reached by properties alone, or stands in the value of const, default, enum or examples read as keywords, or carries it as a name of a map whose names the author chose; nothing measured lies deeper than 256; every annotation is well made; and no two names differ by case alone. |
| MirroredPlaces.FineWherePlaced | client/mirrored.go:289-380 | For any vocabulary of keywords: what the reader of keywords, maps and values passes is exactly what stands in its place, told of positions alone. |
| MirroredPlaces.KindOfSpells | client/mirrored.go:49-131 | The keywords the reader goes by are these twenty-seven, each of one kind. |
| MirroredParameters.MarksExactly | client/mirrored.go:177-233 | The annotated properties read are those that a chain of properties reaches, each once, and no others. |
| MirroredParameters.Reader.MirroredIn | client/mirrored.go:177-233 | The path grown and cut back in place is what it was, and each parameter carries its own. |
| MirroredSchema.KeywordViolation | client/mirrored.go:289-302 | A keyword's value is fine exactly when every position in it is permitted as it is read there. |
| MirroredSchema.SchemaViolation | client/mirrored.go:340-353 | A schema no chain reaches is fine exactly when it and all below it carry no annotation where one would be read, within the depth. |
| MirroredSchema.NamedMembersViolation | client/mirrored.go:308-315 | Names a schema's author chose are not read as keywords. |
| MirroredSchema.ValueViolation | client/mirrored.go:358-380 | A value that cannot be placed is fine exactly when no annotation stands anywhere in it, within the depth. |
| Stdio.EveryRunHolds | client/transport_stdio.go:68-113 | In every interleaving of the reader and the receivers: the count is the bytes taken and not released, and within the bound; frames received are a prefix of those read, in order; no reader sleeps where there is room. |
| Stdio.NeverDeadlocked | client/transport_stdio.go:85-104 | A reader asleep has a frame waiting to be received or one being released, and any release wakes it. |
| Stdio.EndingLost | client/transport_stdio.go:345-351 | One frame and the end read before it is received lose the error the stream ended with. |
| Stdio.PendingMayLose | client/transport_stdio.go:345-361 | While the error is still to be taken, some run loses it exactly where a line is waiting. |
| Stdio.EndingMayLose | client/transport_stdio.go:239-264 | At the end of the stream, some run from there loses its error exactly where a line read before it is not received yet. |
| Stdio.DrainedNeverLoses | client/transport_stdio.go:330-369 | A run in which every line was received when the stream ended never loses the error. |
| Stdio.LostForGood | client/transport_stdio.go:330-369 | Once lost, nothing that follows tells of it. |
| Stdio.ReadFrame | client/transport_stdio.go:273-285 | A whole line exactly when it is no longer than the limit, and nothing of a longer one. |
| Stdio.TailBuffer.Write | client/transport_stdio.go:126-138 | What is kept is always the last bytes of everything written. |
| Stdio.Backlog.Take | client/transport_stdio.go:85-96 | The loop of waits: however others let go of frames or close the backlog meanwhile, the frame is held at the first moment the test every run's step goes by lets it be, or refused at the first it is closed. |

## Left out

- EngineCalls.FramesBounded: that a call is repeated only where the definition read again mirrors something new; the model lets any header mismatch be answered by one repeat.
- Engine.Stamped: the marks of where a definition came from are the model's own; the code keeps the generation and the authorization of a whole listing and none per entry.
- CatalogBatch.Handle: argument validation, duplicate names, progress notifications and events; tools are what each call comes to, in order, and whether the request was abandoned meanwhile.
- CatalogReport.EntryFor: a text that is not valid UTF-8, which the encoder replaces, is not a text here.
- CatalogSearch.Search: case folding and the splitting of a query into terms come in as the terms and texts of the entries; entries that do not encode are refused before a search, as the code does.
- CanonicalNumber.CanonicalNumber: the exponent's adjustment on a machine int, which the bound of 2^30 keeps from overflowing for any literal that fits in memory.
- IntegralNumber.IntegralNumber: texts of 2^63-20 characters and more.
- Pagination.FollowPaginator: the JSON object inside a cursor, and an offset so near the largest int that adding a page overflows; the codec's law is that it reads back what it writes.
- UriTemplate.MatchURITemplate: percent-encoding, which the code leaves alone as well.
- MirroredParameters.Reader.MirroredIn: that path slices share one backing array, which is why the code clones what it keeps; and which violation is reported first.
- Handshake.Negotiation.Run: the contents of handshake results but what decides; a peer is what it answers at each turn.
- Withdrawn.Channel.ExchangeFrame: an inbox that never ends; the exchange's own time limit ends it as an outcome.
- Stdio.EveryRunHolds: that a process is eventually scheduled; what is proved is that someone can always move.
- A transport without a credential, whose authorization is one constant, is the engine with a token that never changes.
- `Tool` headers as a whole (`client/mirrored.go` 396-421) only put together the lookup of a nested member, `MirroredInteger` and the client's header encoder.
- `messageReply` clips a diagnostic by the same bisection as a failure report, over one text.
- Sockets, subprocesses, HTTP round trips, TLS and timers are outcomes; logging, events and the wording of errors have no part.
- `console`, `mcpclient`, `content`, `schema`, `event`, `ui` and `client/oauth`, and reflection over arguments built in Go: not part of this model.
